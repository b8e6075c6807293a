/** The advice engine: a stored table of advice lists per category and weight
    bucket, seven threshold rules that append to those stored lists, and the
    risk and protective factor lists. */
module Advice {
  import opened Inputs
  import opened Rules

  // ----- Keys of the advice table -----

  const Nutrition := "nutrition"
  const Activity := "activite_physique"
  const Lifestyle := "mode_de_vie"
  const Categories: set<string> := {Nutrition, Activity, Lifestyle}

  const UnderweightBucket := "insuffisance_ponderale"
  const NormalWeightBucket := "poids_normal"
  const OverweightBucket := "surpoids"
  const ObeseBucket := "obesite"
  const Buckets: set<string> := {UnderweightBucket, NormalWeightBucket, OverweightBucket, ObeseBucket}

  /** The single bucket of the lifestyle category. */
  const General := "general"

  /** Class index to weight bucket; every integer has one. */
  function WeightCategory(prediction: int): (bucket: string)
    ensures bucket in Buckets
    ensures bucket == UnderweightBucket <==> prediction == 0
    ensures bucket == NormalWeightBucket <==> prediction == 1
    ensures bucket == OverweightBucket <==> prediction == 2 || prediction == 3
    ensures bucket == ObeseBucket <==> prediction < 0 || prediction > 3
  {
    if prediction == 0 then UnderweightBucket
    else if prediction == 1 then NormalWeightBucket
    else if prediction in [2, 3] then OverweightBucket
    else ObeseBucket
  }

  /** The bucket of category `category` that a prediction in `bucket` reads. */
  function Slot(category: string, bucket: string): string
  {
    if category == Lifestyle then General else bucket
  }

  // The base lists of the table, one per slot.
  const NutritionUnderweightAdvice: seq<string> := [
    "🥗 Augmentez votre apport calorique avec des aliments nutritifs",
    "🥜 Consommez plus de protéines (viandes maigres, légumineuses, noix)",
    "🍌 Ajoutez des collations saines entre les repas",
    "🥛 Buvez des smoothies riches en calories et nutriments"]
  const NutritionNormalWeightAdvice: seq<string> := [
    "🥬 Maintenez une alimentation équilibrée et variée",
    "🍎 Consommez 5 portions de fruits et légumes par jour",
    "🐟 Privilégiez les protéines maigres et les poissons gras",
    "💧 Buvez suffisamment d'eau (1.5-2L par jour)"]
  const NutritionOverweightAdvice: seq<string> := [
    "🥗 Réduisez les portions et privilégiez les légumes",
    "🚫 Limitez les aliments transformés et sucrés",
    "🍽️ Mangez lentement et écoutez votre satiété",
    "🥤 Remplacez les boissons sucrées par de l'eau"]
  const NutritionObeseAdvice: seq<string> := [
    "👨‍⚕️ Consultez un nutritionniste pour un plan personnalisé",
    "📊 Tenez un journal alimentaire pour identifier les habitudes",
    "🥬 Remplissez la moitié de votre assiette avec des légumes",
    "⏰ Respectez des horaires de repas réguliers"]
  const ActivityUnderweightAdvice: seq<string> := [
    "💪 Privilégiez la musculation pour développer la masse musculaire",
    "🏃‍♂️ Commencez par 20-30 minutes d'exercice modéré",
    "🧘‍♀️ Intégrez des exercices de renforcement et d'étirement"]
  const ActivityNormalWeightAdvice: seq<string> := [
    "🏃‍♂️ Maintenez 150 minutes d'activité modérée par semaine",
    "💪 Ajoutez 2 séances de renforcement musculaire",
    "🚶‍♀️ Intégrez plus de marche dans votre quotidien"]
  const ActivityOverweightAdvice: seq<string> := [
    "🏃‍♂️ Augmentez progressivement votre activité physique",
    "🚴‍♀️ Privilégiez les activités cardio (vélo, natation, marche)",
    "⏰ Visez 45-60 minutes d'exercice 5 fois par semaine"]
  const ActivityObeseAdvice: seq<string> := [
    "👨‍⚕️ Consultez un médecin avant de commencer un programme",
    "🚶‍♀️ Commencez par la marche quotidienne (10-15 minutes)",
    "🏊‍♀️ Privilégiez les activités à faible impact (natation, aquagym)"]
  const LifestyleGeneralAdvice: seq<string> := [
    "😴 Dormez 7-9 heures par nuit pour réguler les hormones",
    "🧘‍♀️ Pratiquez la gestion du stress (méditation, yoga)",
    "📱 Limitez le temps d'écran, surtout avant le coucher",
    "👥 Entourez-vous de soutien social pour vos objectifs santé"]

  /** The table as the engine builds it: nutrition and activity advice per
      weight bucket, and one general lifestyle list. */
  function InitialAdviceDatabase(): (db: map<string, map<string, seq<string>>>)
    ensures db.Keys == Categories
    ensures db[Nutrition].Keys == Buckets && db[Activity].Keys == Buckets
    ensures db[Lifestyle].Keys == {General}
  {
    map[
      Nutrition := map[
        UnderweightBucket := NutritionUnderweightAdvice,
        NormalWeightBucket := NutritionNormalWeightAdvice,
        OverweightBucket := NutritionOverweightAdvice,
        ObeseBucket := NutritionObeseAdvice],
      Activity := map[
        UnderweightBucket := ActivityUnderweightAdvice,
        NormalWeightBucket := ActivityNormalWeightAdvice,
        OverweightBucket := ActivityOverweightAdvice,
        ObeseBucket := ActivityObeseAdvice],
      Lifestyle := map[
        General := LifestyleGeneralAdvice]
    ]
  }

  /** Both per-bucket lookups find the bucket, so their `[]` fallback is never used. */
  lemma BaseLookupNeverDefaults(prediction: int)
    ensures WeightCategory(prediction) in InitialAdviceDatabase()[Nutrition]
    ensures WeightCategory(prediction) in InitialAdviceDatabase()[Activity]
    ensures General in InitialAdviceDatabase()[Lifestyle]
  {
  }

  // ----- The seven advice rules -----

  const VegetablesAdvice := "🥕 Augmentez votre consommation de légumes à chaque repas"
  const ActivityAdvice := "🏃‍♂️ Augmentez progressivement votre activité physique"
  const WaterAdvice := "💧 Buvez plus d'eau tout au long de la journée"
  const SnackingAdvice := "🚫 Remplacez le grignotage par des collations saines (fruits, noix)"
  const StressAdvice := "🧘‍♀️ Pratiquez des techniques de relaxation pour gérer le stress"
  const ScreenAdvice := "📱 Réduisez le temps d'écran et augmentez l'activité physique"
  const TransportAdvice := "🚶‍♀️ Intégrez plus de marche ou de vélo dans vos déplacements"

  /** A rule appends its message to the list of its category. */
  datatype Rule = Rule(category: string, message: string)

  /** The rules in evaluation order. */
  const AdviceRules: seq<Rule> := [
    Rule(Nutrition, VegetablesAdvice),
    Rule(Activity, ActivityAdvice),
    Rule(Lifestyle, WaterAdvice),
    Rule(Nutrition, SnackingAdvice),
    Rule(Lifestyle, StressAdvice),
    Rule(Lifestyle, ScreenAdvice),
    Rule(Activity, TransportAdvice)
  ]

  const AdviceMessages: seq<string> := [
    VegetablesAdvice, ActivityAdvice, WaterAdvice, SnackingAdvice,
    StressAdvice, ScreenAdvice, TransportAdvice
  ]

  /** Which rules fire for these inputs (missing numbers read as 0). */
  function AdviceFired(u: UserInputs): (fired: seq<bool>)
    requires WellTyped(u)
    ensures |fired| == |AdviceRules|
  {
    [ Number(u, "consommation_legumes") < 2.0,
      Number(u, "frequence_activite_physique") < 2.0,
      Number(u, "consommation_eau") < 2.0,
      Equals(u, "grignotage", "Toujours"),
      Number(u, "stress") > 2.0,
      Number(u, "temps_technologie") > 2.0,
      OneOf(u, "transport", ["Automobile", "Transport_Public"]) ]
  }

  /** The rules that fire and belong to `category`. */
  function Mask(category: string, u: UserInputs): (mask: seq<bool>)
    requires WellTyped(u)
  {
    var fired := AdviceFired(u);
    seq(|AdviceRules|, i requires 0 <= i < |AdviceRules| => AdviceRules[i].category == category && fired[i])
  }

  /** The messages the rules append to `category`, in rule order. */
  function Extras(category: string, u: UserInputs): (extras: seq<string>)
    requires WellTyped(u)
    ensures |extras| <= |AdviceRules|
    ensures forall m :: m in extras ==> m in AdviceMessages
  {
    Select(AdviceMessages, Mask(category, u))
  }

  lemma AdviceMessagesDistinct()
    ensures Distinct(AdviceMessages)
    ensures forall i :: 0 <= i < |AdviceRules| ==> AdviceMessages[i] == AdviceRules[i].message
  {
  }

  /** Extras written out rule by rule. */
  lemma ExtrasUnfold(category: string, u: UserInputs)
    requires WellTyped(u)
    ensures var m := Mask(category, u);
      Extras(category, u) ==
        Pick(AdviceMessages, m, 0) + Pick(AdviceMessages, m, 1) + Pick(AdviceMessages, m, 2) +
        Pick(AdviceMessages, m, 3) + Pick(AdviceMessages, m, 4) + Pick(AdviceMessages, m, 5) +
        Pick(AdviceMessages, m, 6)
  {
    SelectSeven(AdviceMessages, Mask(category, u));
  }

  /** A message is appended to a category exactly when its rule fires and
      belongs to that category: each rule touches only its declared list. */
  lemma ExtrasMembership(category: string, u: UserInputs, k: nat)
    requires WellTyped(u) && k < |AdviceRules|
    ensures AdviceRules[k].message in Extras(category, u) <==>
              AdviceRules[k].category == category && AdviceFired(u)[k]
  {
    AdviceMessagesDistinct();
    SelectMemberAt(AdviceMessages, Mask(category, u), k);
  }

  /** Each category receives the messages of its own rules, in rule order:
      vegetables then snacking for nutrition, activity then transport for
      physical activity, water then stress then screen time for lifestyle. */
  lemma ExtrasByCategory(u: UserInputs)
    requires WellTyped(u)
    ensures var f := AdviceFired(u);
      Extras(Nutrition, u) == Pick(AdviceMessages, f, 0) + Pick(AdviceMessages, f, 3) &&
      Extras(Activity, u) == Pick(AdviceMessages, f, 1) + Pick(AdviceMessages, f, 6) &&
      Extras(Lifestyle, u) ==
        Pick(AdviceMessages, f, 2) + Pick(AdviceMessages, f, 4) + Pick(AdviceMessages, f, 5)
  {
    ExtrasUnfold(Nutrition, u);
    ExtrasUnfold(Activity, u);
    ExtrasUnfold(Lifestyle, u);
  }

  /** Appending each category's guarded messages one by one to any prefix
      extends that prefix by exactly the category's extras. */
  lemma GuardedAppendsGiveExtras(u: UserInputs, nutrition: seq<string>, activity: seq<string>, lifestyle: seq<string>)
    requires WellTyped(u)
    ensures nutrition +
              (if Number(u, "consommation_legumes") < 2.0 then [VegetablesAdvice] else []) +
              (if Equals(u, "grignotage", "Toujours") then [SnackingAdvice] else []) ==
            nutrition + Extras(Nutrition, u)
    ensures activity +
              (if Number(u, "frequence_activite_physique") < 2.0 then [ActivityAdvice] else []) +
              (if OneOf(u, "transport", ["Automobile", "Transport_Public"]) then [TransportAdvice] else []) ==
            activity + Extras(Activity, u)
    ensures lifestyle +
              (if Number(u, "consommation_eau") < 2.0 then [WaterAdvice] else []) +
              (if Number(u, "stress") > 2.0 then [StressAdvice] else []) +
              (if Number(u, "temps_technologie") > 2.0 then [ScreenAdvice] else []) ==
            lifestyle + Extras(Lifestyle, u)
  {
    ExtrasByCategory(u);
  }

  /** Nutrition and activity grow by at most two messages, lifestyle by at most
      three, and any other category by none. */
  lemma ExtrasBounds(u: UserInputs)
    requires WellTyped(u)
    ensures |Extras(Nutrition, u)| <= 2
    ensures |Extras(Activity, u)| <= 2
    ensures |Extras(Lifestyle, u)| <= 3
    ensures forall c :: c !in Categories ==> Extras(c, u) == []
  {
    ExtrasByCategory(u);
    forall c | c !in Categories ensures Extras(c, u) == [] {
      ExtrasUnfold(c, u);
    }
  }

  /** Each category's list grows by exactly the number of its rules that fire. */
  lemma ExtrasCounts(u: UserInputs)
    requires WellTyped(u)
    ensures var f := AdviceFired(u);
      |Extras(Nutrition, u)| == (if f[0] then 1 else 0) + (if f[3] then 1 else 0) &&
      |Extras(Activity, u)| == (if f[1] then 1 else 0) + (if f[6] then 1 else 0) &&
      |Extras(Lifestyle, u)| == (if f[2] then 1 else 0) + (if f[4] then 1 else 0) + (if f[5] then 1 else 0)
  {
    ExtrasByCategory(u);
  }

  /** The overweight activity list already starts with the low-activity
      message, so an overweight prediction with little activity shows that
      message twice. */
  lemma OverweightActivityAdviceRepeats(u: UserInputs)
    requires WellTyped(u) && Number(u, "frequence_activite_physique") < 2.0
    ensures !Distinct(ActivityOverweightAdvice + Extras(Activity, u))
  {
    var base := ActivityOverweightAdvice;
    var extras := Extras(Activity, u);
    ExtrasMembership(Activity, u, 1);
    var j :| 0 <= j < |extras| && extras[j] == ActivityAdvice;
    var s := base + extras;
    assert s[0] == ActivityAdvice == s[|base| + j];
  }

  /** A missing vegetable, activity or water entry counts as 0 and fires its
      "below 2" rule; a missing stress or screen-time entry never fires its
      "above 2" rule. */
  lemma MissingKeysDefaultToZero(u: UserInputs)
    requires WellTyped(u)
    ensures "consommation_legumes" !in u ==> VegetablesAdvice in Extras(Nutrition, u)
    ensures "frequence_activite_physique" !in u ==> ActivityAdvice in Extras(Activity, u)
    ensures "consommation_eau" !in u ==> WaterAdvice in Extras(Lifestyle, u)
    ensures "stress" !in u ==> StressAdvice !in Extras(Lifestyle, u)
    ensures "temps_technologie" !in u ==> ScreenAdvice !in Extras(Lifestyle, u)
  {
    ExtrasMembership(Nutrition, u, 0);
    ExtrasMembership(Activity, u, 1);
    ExtrasMembership(Lifestyle, u, 2);
    ExtrasMembership(Lifestyle, u, 4);
    ExtrasMembership(Lifestyle, u, 5);
  }

  /** Changing the water intake changes the lifestyle extras only. */
  lemma WaterOnlyAffectsLifestyle(u: UserInputs, water: Value)
    requires WellTyped(u) && IsNumber(water)
    ensures WellTyped(u["consommation_eau" := water])
    ensures Extras(Nutrition, u["consommation_eau" := water]) == Extras(Nutrition, u)
    ensures Extras(Activity, u["consommation_eau" := water]) == Extras(Activity, u)
  {
    var v := u["consommation_eau" := water];
    ExtrasByCategory(u);
    ExtrasByCategory(v);
    var fu, fv := AdviceFired(u), AdviceFired(v);
    assert fv[0] == fu[0] && fv[1] == fu[1] && fv[3] == fu[3] && fv[6] == fu[6];
  }

  // ----- Risk and protective factors -----

  const HighBmiRisk := "IMC élevé (≥30)"
  const OverweightRisk := "Surpoids (IMC 25-30)"
  const FamilyHistoryRisk := "Antécédents familiaux d'obésité"
  const SedentaryRisk := "Mode de vie sédentaire"
  const SnackingRisk := "Grignotage fréquent"
  const LowVegetablesRisk := "Faible consommation de légumes"
  const StressRisk := "Niveau de stress élevé"

  const RiskLabels: seq<string> := [
    HighBmiRisk, OverweightRisk, FamilyHistoryRisk, SedentaryRisk,
    SnackingRisk, LowVegetablesRisk, StressRisk
  ]

  /** Which risk labels apply; the two BMI labels exclude each other. */
  function RiskFired(u: UserInputs, bmi: real): (fired: seq<bool>)
    requires WellTyped(u)
    ensures |fired| == |RiskLabels|
  {
    [ bmi >= 30.0,
      25.0 <= bmi < 30.0,
      Equals(u, "antecedents_familiaux", "Oui"),
      Number(u, "frequence_activite_physique") < 1.0,
      Equals(u, "grignotage", "Toujours"),
      Number(u, "consommation_legumes") < 1.0,
      Number(u, "stress") > 2.0 ]
  }

  function RiskFactors(u: UserInputs, bmi: real): (factors: seq<string>)
    requires WellTyped(u)
    ensures |factors| <= |RiskLabels|
    ensures forall f :: f in factors ==> f in RiskLabels
  {
    Select(RiskLabels, RiskFired(u, bmi))
  }

  /** Weight and height are present and the height is not zero. */
  predicate HasBmi(u: UserInputs): (defined: bool)
    requires WellTyped(u)
    ensures defined <==>
              "poids_kg" in u && "taille_m" in u && AsReal(u["taille_m"]) * AsReal(u["taille_m"]) != 0.0
  {
    "poids_kg" in u && "taille_m" in u && AsReal(u["taille_m"]) != 0.0
  }

  function Bmi(u: UserInputs): (bmi: real)
    requires WellTyped(u) && HasBmi(u)
    ensures bmi * (AsReal(u["taille_m"]) * AsReal(u["taille_m"])) == AsReal(u["poids_kg"])
  {
    AsReal(u["poids_kg"]) / (AsReal(u["taille_m"]) * AsReal(u["taille_m"]))
  }

  const RegularActivityFactor := "Activité physique régulière"
  const HighVegetablesFactor := "Consommation élevée de légumes"
  const HydrationFactor := "Hydratation adéquate"
  const CalorieMonitoringFactor := "Surveillance des calories"
  const NonSmokerFactor := "Non-fumeur"
  const ActiveTransportFactor := "Transport actif"

  const ProtectiveLabels: seq<string> := [
    RegularActivityFactor, HighVegetablesFactor, HydrationFactor,
    CalorieMonitoringFactor, NonSmokerFactor, ActiveTransportFactor
  ]

  function ProtectiveFired(u: UserInputs): (fired: seq<bool>)
    requires WellTyped(u)
    ensures |fired| == |ProtectiveLabels|
  {
    [ Number(u, "frequence_activite_physique") >= 3.0,
      Number(u, "consommation_legumes") >= 3.0,
      Number(u, "consommation_eau") >= 2.0,
      Equals(u, "surveillance_calories", "Oui"),
      Equals(u, "fumeur", "Non"),
      OneOf(u, "transport", ["Marche", "Vélo"]) ]
  }

  function ProtectiveFactors(u: UserInputs): (factors: seq<string>)
    requires WellTyped(u)
    ensures |factors| <= |ProtectiveLabels|
    ensures forall f :: f in factors ==> f in ProtectiveLabels
  {
    Select(ProtectiveLabels, ProtectiveFired(u))
  }

  lemma LabelsDistinct()
    ensures Distinct(RiskLabels) && Distinct(ProtectiveLabels)
  {
  }

  /** Each risk label is listed exactly when its condition holds. */
  lemma RiskFactorsMembership(u: UserInputs, bmi: real)
    requires WellTyped(u)
    ensures HighBmiRisk in RiskFactors(u, bmi) <==> bmi >= 30.0
    ensures OverweightRisk in RiskFactors(u, bmi) <==> 25.0 <= bmi < 30.0
    ensures FamilyHistoryRisk in RiskFactors(u, bmi) <==> Equals(u, "antecedents_familiaux", "Oui")
    ensures SedentaryRisk in RiskFactors(u, bmi) <==> Number(u, "frequence_activite_physique") < 1.0
    ensures SnackingRisk in RiskFactors(u, bmi) <==> Equals(u, "grignotage", "Toujours")
    ensures LowVegetablesRisk in RiskFactors(u, bmi) <==> Number(u, "consommation_legumes") < 1.0
    ensures StressRisk in RiskFactors(u, bmi) <==> Number(u, "stress") > 2.0
  {
    LabelsDistinct();
    var fired := RiskFired(u, bmi);
    SelectMemberAt(RiskLabels, fired, 0);
    SelectMemberAt(RiskLabels, fired, 1);
    SelectMemberAt(RiskLabels, fired, 2);
    SelectMemberAt(RiskLabels, fired, 3);
    SelectMemberAt(RiskLabels, fired, 4);
    SelectMemberAt(RiskLabels, fired, 5);
    SelectMemberAt(RiskLabels, fired, 6);
  }

  /** At most one BMI label, so at most six labels, none repeated. */
  lemma RiskFactorsShape(u: UserInputs, bmi: real)
    requires WellTyped(u)
    ensures |RiskFactors(u, bmi)| <= 6
    ensures Distinct(RiskFactors(u, bmi))
    ensures !(HighBmiRisk in RiskFactors(u, bmi) && OverweightRisk in RiskFactors(u, bmi))
  {
    var fired := RiskFired(u, bmi);
    LabelsDistinct();
    SelectDistinct(RiskLabels, fired);
    SelectLength(RiskLabels, fired);
    assert fired == fired[..2] + fired[2..];
    CountAppend(fired[..2], fired[2..]);
    assert Count(fired[..2]) <= 1 by {
      assert fired[..2][..1] == [fired[0]];
      assert Count([fired[0]]) == (if fired[0] then 1 else 0) by {
        assert [fired[0]][..0] == [];
      }
    }
    RiskFactorsMembership(u, bmi);
  }

  /** At most six protective labels, none repeated. */
  lemma ProtectiveFactorsShape(u: UserInputs)
    requires WellTyped(u)
    ensures |ProtectiveFactors(u)| <= 6
    ensures Distinct(ProtectiveFactors(u))
  {
    LabelsDistinct();
    SelectDistinct(ProtectiveLabels, ProtectiveFired(u));
  }

  /** Each protective label is listed exactly when its condition holds. */
  lemma ProtectiveFactorsMembership(u: UserInputs)
    requires WellTyped(u)
    ensures RegularActivityFactor in ProtectiveFactors(u) <==> Number(u, "frequence_activite_physique") >= 3.0
    ensures HighVegetablesFactor in ProtectiveFactors(u) <==> Number(u, "consommation_legumes") >= 3.0
    ensures HydrationFactor in ProtectiveFactors(u) <==> Number(u, "consommation_eau") >= 2.0
    ensures CalorieMonitoringFactor in ProtectiveFactors(u) <==> Equals(u, "surveillance_calories", "Oui")
    ensures NonSmokerFactor in ProtectiveFactors(u) <==> Equals(u, "fumeur", "Non")
    ensures ActiveTransportFactor in ProtectiveFactors(u) <==> OneOf(u, "transport", ["Marche", "Vélo"])
  {
    LabelsDistinct();
    var fired := ProtectiveFired(u);
    SelectMemberAt(ProtectiveLabels, fired, 0);
    SelectMemberAt(ProtectiveLabels, fired, 1);
    SelectMemberAt(ProtectiveLabels, fired, 2);
    SelectMemberAt(ProtectiveLabels, fired, 3);
    SelectMemberAt(ProtectiveLabels, fired, 4);
    SelectMemberAt(ProtectiveLabels, fired, 5);
  }

  /** Regular activity (three or more) and a sedentary life (below one) never
      appear together, whatever the index. */
  lemma RegularActivityExcludesSedentary(u: UserInputs, bmi: real)
    requires WellTyped(u)
    ensures RegularActivityFactor in ProtectiveFactors(u) ==> SedentaryRisk !in RiskFactors(u, bmi)
  {
    ProtectiveFactorsMembership(u);
    RiskFactorsMembership(u, bmi);
  }

  /** "Always" snacking adds its advice to the nutrition list and its label to
      the risk factors, independently of each other. */
  lemma SnackingAppearsTwice(u: UserInputs, bmi: real)
    requires WellTyped(u) && Equals(u, "grignotage", "Toujours")
    ensures SnackingAdvice in Extras(Nutrition, u)
    ensures SnackingRisk in RiskFactors(u, bmi)
  {
    ExtrasMembership(Nutrition, u, 3);
    RiskFactorsMembership(u, bmi);
  }

  // ----- The engine -----

  /** A mutable list of advice texts; the engine's table holds these objects and
      hands the same objects out. */
  class AdviceList {
    /** The (category, bucket) slot of the table this list was created for. */
    ghost const slot: (string, string)
    var items: seq<string>

    constructor (ghost slot: (string, string), initial: seq<string>)
      ensures this.slot == slot && items == initial
    {
      this.slot := slot;
      items := initial;
    }

    /** `list.append(s)`. */
    method Append(s: string)
      modifies this
      ensures items == old(items) + [s]
    {
      items := items + [s];
    }

    /** `if cond: list.append(s)`, the shape of every advice rule. */
    method AppendWhen(cond: bool, s: string)
      modifies this
      ensures items == old(items) + (if cond then [s] else [])
    {
      if cond {
        Append(s);
      }
    }
  }

  /** The per-bucket dictionary of one weight-dependent category: a fresh list
      per bucket holding that bucket's base advice. */
  method NewBucketLists(category: string, base: map<string, seq<string>>) returns (lists: map<string, AdviceList>)
    requires base.Keys == Buckets
    ensures lists.Keys == Buckets
    ensures forall b :: b in lists ==>
              fresh(lists[b]) && lists[b].slot == (category, b) && lists[b].items == base[b]
  {
    var u := new AdviceList((category, UnderweightBucket), base[UnderweightBucket]);
    var n := new AdviceList((category, NormalWeightBucket), base[NormalWeightBucket]);
    var o := new AdviceList((category, OverweightBucket), base[OverweightBucket]);
    var b := new AdviceList((category, ObeseBucket), base[ObeseBucket]);
    lists := map[UnderweightBucket := u, NormalWeightBucket := n, OverweightBucket := o, ObeseBucket := b];
  }

  /** One fresh list per entry of a table shaped like the advice database,
      holding that entry's messages. */
  method NewDatabase(table: map<string, map<string, seq<string>>>)
    returns (db: map<string, map<string, AdviceList>>)
    requires table.Keys == Categories
    requires table[Nutrition].Keys == Buckets && table[Activity].Keys == Buckets
    requires table[Lifestyle].Keys == {General}
    ensures db.Keys == Categories
    ensures db[Nutrition].Keys == Buckets && db[Activity].Keys == Buckets
    ensures db[Lifestyle].Keys == {General}
    ensures forall c, b :: c in db && b in db[c] ==>
              fresh(db[c][b]) && db[c][b].slot == (c, b) && db[c][b].items == table[c][b]
  {
    var nutrition := NewBucketLists(Nutrition, table[Nutrition]);
    var activity := NewBucketLists(Activity, table[Activity]);
    var general := new AdviceList((Lifestyle, General), table[Lifestyle][General]);
    db := map[Nutrition := nutrition, Activity := activity, Lifestyle := map[General := general]];
    forall c, b | c in db && b in db[c]
      ensures fresh(db[c][b]) && db[c][b].slot == (c, b) && db[c][b].items == table[c][b]
    {
      if c == Nutrition {
        assert db[c] == nutrition;
      } else if c == Activity {
        assert db[c] == activity;
      } else {
        assert db[c][b] == general;
      }
    }
  }

  class AdviceEngine {
    /** Category, then bucket, to a stored list. The mapping itself never
        changes; the lists it holds grow. */
    const database: map<string, map<string, AdviceList>>

    ghost predicate Valid()
    {
      database.Keys == Categories &&
      database[Nutrition].Keys == Buckets && database[Activity].Keys == Buckets &&
      database[Lifestyle].Keys == {General} &&
      forall c, b :: c in database && b in database[c] ==>
        database[c][b].slot == (c, b)
    }

    constructor ()
      ensures Valid()
      ensures forall c, b :: c in database && b in database[c] ==>
                fresh(database[c][b]) && database[c][b].items == InitialAdviceDatabase()[c][b]
    {
      var db := NewDatabase(InitialAdviceDatabase());
      database := db;
    }

    /** The three stored lists for the prediction's bucket, after the rules
        have appended to them. The returned lists are the stored ones, so the
        appends stay in the table and later calls see them. */
    method GetPersonalizedAdvice(prediction: int, u: UserInputs) returns (advice: map<string, AdviceList>)
      requires Valid() && WellTyped(u)
      modifies database[Nutrition][WeightCategory(prediction)],
               database[Activity][WeightCategory(prediction)],
               database[Lifestyle][General]
      ensures advice.Keys == Categories
      ensures advice[Nutrition] == database[Nutrition][WeightCategory(prediction)]
      ensures advice[Activity] == database[Activity][WeightCategory(prediction)]
      ensures advice[Lifestyle] == database[Lifestyle][General]
      ensures advice[Nutrition].items == old(advice[Nutrition].items) + Extras(Nutrition, u)
      ensures advice[Activity].items == old(advice[Activity].items) + Extras(Activity, u)
      ensures advice[Lifestyle].items == old(advice[Lifestyle].items) + Extras(Lifestyle, u)
      ensures forall c, b :: c in database && b in database[c] && b != Slot(c, WeightCategory(prediction)) ==>
                database[c][b].items == old(database[c][b].items)
    {
      var bucket := WeightCategory(prediction);
      advice := map[
        Nutrition := database[Nutrition][bucket],
        Activity := database[Activity][bucket],
        Lifestyle := database[Lifestyle][General]];
      assert advice[Nutrition].slot == (Nutrition, bucket);
      assert advice[Activity].slot == (Activity, bucket);
      assert advice[Lifestyle].slot == (Lifestyle, General);
      advice := AddSpecificAdvice(advice, u, bucket);
      forall c, b | c in database && b in database[c] && b != Slot(c, bucket)
        ensures database[c][b].items == old(database[c][b].items)
      {
        assert database[c][b].slot == (c, b);
      }
    }

    /** Runs the seven rules in order, each appending its message to the list
        of its category. The bucket argument is not used. */
    method AddSpecificAdvice(advice: map<string, AdviceList>, u: UserInputs, weightCategory: string)
      returns (result: map<string, AdviceList>)
      requires Nutrition in advice && Activity in advice && Lifestyle in advice
      requires advice[Nutrition] != advice[Activity] && advice[Nutrition] != advice[Lifestyle]
      requires advice[Activity] != advice[Lifestyle]
      requires WellTyped(u)
      modifies advice[Nutrition], advice[Activity], advice[Lifestyle]
      ensures result == advice
      ensures advice[Nutrition].items == old(advice[Nutrition].items) + Extras(Nutrition, u)
      ensures advice[Activity].items == old(advice[Activity].items) + Extras(Activity, u)
      ensures advice[Lifestyle].items == old(advice[Lifestyle].items) + Extras(Lifestyle, u)
    {
      var nutrition, activity, lifestyle := advice[Nutrition], advice[Activity], advice[Lifestyle];
      GuardedAppendsGiveExtras(u, nutrition.items, activity.items, lifestyle.items);
      nutrition.AppendWhen(Number(u, "consommation_legumes") < 2.0, VegetablesAdvice);
      activity.AppendWhen(Number(u, "frequence_activite_physique") < 2.0, ActivityAdvice);
      lifestyle.AppendWhen(Number(u, "consommation_eau") < 2.0, WaterAdvice);
      nutrition.AppendWhen(Equals(u, "grignotage", "Toujours"), SnackingAdvice);
      lifestyle.AppendWhen(Number(u, "stress") > 2.0, StressAdvice);
      lifestyle.AppendWhen(Number(u, "temps_technologie") > 2.0, ScreenAdvice);
      activity.AppendWhen(OneOf(u, "transport", ["Automobile", "Transport_Public"]), TransportAdvice);
      result := advice;
    }

    /** The risk labels for these inputs. Weight and height are read directly,
        so a missing one raises KeyError (weight first), and a zero height
        divides by zero. */
    method GetRiskFactors(u: UserInputs) returns (r: Result<seq<string>>)
      requires WellTyped(u)
      ensures "poids_kg" !in u ==> r == Err(KeyError("poids_kg"))
      ensures "poids_kg" in u && "taille_m" !in u ==> r == Err(KeyError("taille_m"))
      ensures "poids_kg" in u && "taille_m" in u && AsReal(u["taille_m"]) == 0.0 ==> r == Err(ZeroDivisionError)
      ensures r.Ok? <==> HasBmi(u)
      ensures r.Ok? ==> r.value == RiskFactors(u, Bmi(u))
      ensures r.Ok? ==> |r.value| <= 6 && Distinct(r.value)
    {
      if "poids_kg" !in u {
        return Err(KeyError("poids_kg"));
      }
      if "taille_m" !in u {
        return Err(KeyError("taille_m"));
      }
      var height := AsReal(u["taille_m"]);
      // Over the reals the squared height is zero exactly when the height is.
      if height == 0.0 {
        return Err(ZeroDivisionError);
      }
      var bmi := AsReal(u["poids_kg"]) / (height * height);
      assert height * height == AsReal(u["taille_m"]) * AsReal(u["taille_m"]);
      assert bmi == Bmi(u);
      var factors := CollectRiskFactors(u, bmi);
      return Ok(factors);
    }

    /** The rule chain of `get_risk_factors` once the BMI is known. */
    method CollectRiskFactors(u: UserInputs, bmi: real) returns (factors: seq<string>)
      requires WellTyped(u)
      ensures factors == RiskFactors(u, bmi)
      ensures |factors| <= 6 && Distinct(factors)
    {
      factors := [];
      ghost var fired := RiskFired(u, bmi);
      ghost var p0 := Pick(RiskLabels, fired, 0);
      ghost var p1 := Pick(RiskLabels, fired, 1);
      ghost var p2 := Pick(RiskLabels, fired, 2);
      ghost var p3 := Pick(RiskLabels, fired, 3);
      ghost var p4 := Pick(RiskLabels, fired, 4);
      ghost var p5 := Pick(RiskLabels, fired, 5);
      ghost var p6 := Pick(RiskLabels, fired, 6);
      if bmi >= 30.0 {
        factors := factors + [HighBmiRisk];
      } else if bmi >= 25.0 {
        factors := factors + [OverweightRisk];
      }
      assert factors == p0 + p1;
      if Equals(u, "antecedents_familiaux", "Oui") {
        factors := factors + [FamilyHistoryRisk];
      }
      assert factors == p0 + p1 + p2;
      if Number(u, "frequence_activite_physique") < 1.0 {
        factors := factors + [SedentaryRisk];
      }
      assert factors == p0 + p1 + p2 + p3;
      if Equals(u, "grignotage", "Toujours") {
        factors := factors + [SnackingRisk];
      }
      assert factors == p0 + p1 + p2 + p3 + p4;
      if Number(u, "consommation_legumes") < 1.0 {
        factors := factors + [LowVegetablesRisk];
      }
      assert factors == p0 + p1 + p2 + p3 + p4 + p5;
      if Number(u, "stress") > 2.0 {
        factors := factors + [StressRisk];
      }
      assert factors == p0 + p1 + p2 + p3 + p4 + p5 + p6;
      SelectSeven(RiskLabels, fired);
      RiskFactorsShape(u, bmi);
    }

    /** The protective labels for these inputs, in rule order. */
    method GetProtectiveFactors(u: UserInputs) returns (factors: seq<string>)
      requires WellTyped(u)
      ensures factors == ProtectiveFactors(u)
      ensures |factors| <= 6 && Distinct(factors)
    {
      factors := [];
      ghost var fired := ProtectiveFired(u);
      ghost var p0 := Pick(ProtectiveLabels, fired, 0);
      ghost var p1 := Pick(ProtectiveLabels, fired, 1);
      ghost var p2 := Pick(ProtectiveLabels, fired, 2);
      ghost var p3 := Pick(ProtectiveLabels, fired, 3);
      ghost var p4 := Pick(ProtectiveLabels, fired, 4);
      ghost var p5 := Pick(ProtectiveLabels, fired, 5);
      if Number(u, "frequence_activite_physique") >= 3.0 {
        factors := factors + [RegularActivityFactor];
      }
      assert factors == p0;
      if Number(u, "consommation_legumes") >= 3.0 {
        factors := factors + [HighVegetablesFactor];
      }
      assert factors == p0 + p1;
      if Number(u, "consommation_eau") >= 2.0 {
        factors := factors + [HydrationFactor];
      }
      assert factors == p0 + p1 + p2;
      if Equals(u, "surveillance_calories", "Oui") {
        factors := factors + [CalorieMonitoringFactor];
      }
      assert factors == p0 + p1 + p2 + p3;
      if Equals(u, "fumeur", "Non") {
        factors := factors + [NonSmokerFactor];
      }
      assert factors == p0 + p1 + p2 + p3 + p4;
      if OneOf(u, "transport", ["Marche", "Vélo"]) {
        factors := factors + [ActiveTransportFactor];
      }
      assert factors == p0 + p1 + p2 + p3 + p4 + p5;
      SelectSix(ProtectiveLabels, fired);
      ProtectiveFactorsShape(u);
    }
  }

  /** The dashboard creates one engine and reuses it for every request: a second
      request with the same inputs finds the first request's lifestyle extras
      still in the stored list and appends its own after them. */
  method CachedEngineAccumulates(prediction: int, u: UserInputs) returns (first: seq<string>, second: seq<string>)
    requires WellTyped(u)
    ensures first == InitialAdviceDatabase()[Lifestyle][General] + Extras(Lifestyle, u)
    ensures second == first + Extras(Lifestyle, u)
  {
    var engine := new AdviceEngine();
    var advice := engine.GetPersonalizedAdvice(prediction, u);
    first := advice[Lifestyle].items;
    advice := engine.GetPersonalizedAdvice(prediction, u);
    second := advice[Lifestyle].items;
  }
}
