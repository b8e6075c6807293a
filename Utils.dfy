/** The input helpers of the dashboard: body-mass index, its category, range
    validation of the form, encoding of the form into the classifier's feature
    record, and the fixed label and colour tables. */
module Utils {
  import opened Inputs

  // ----- Body-mass index -----

  /** Weight over squared height, or 0 for a height that is not positive. */
  function CalculateBmi(weight: real, height: real): (bmi: real)
    ensures height <= 0.0 ==> bmi == 0.0
    ensures height > 0.0 ==> bmi * (height * height) == weight
  {
    if height <= 0.0 then 0.0 else weight / (height * height)
  }

  const Underweight := "Insuffisance pondérale"
  const NormalWeight := "Poids normal"
  const Overweight := "Surpoids"
  const Obesity := "Obésité"

  /** Four bands: below 18.5, up to 25, up to 30, and from 30 on. */
  function GetBmiCategory(bmi: real): (category: string)
    ensures category in {Underweight, NormalWeight, Overweight, Obesity}
    ensures category == Underweight <==> bmi < 18.5
    ensures category == NormalWeight <==> 18.5 <= bmi < 25.0
    ensures category == Overweight <==> 25.0 <= bmi < 30.0
    ensures category == Obesity <==> 30.0 <= bmi
  {
    if bmi < 18.5 then Underweight
    else if bmi < 25.0 then NormalWeight
    else if bmi < 30.0 then Overweight
    else Obesity
  }

  /** Position of a category in the order of the bands. */
  function BandRank(category: string): nat
  {
    if category == Underweight then 0
    else if category == NormalWeight then 1
    else if category == Overweight then 2
    else 3
  }

  /** A larger index never falls in a lower band. */
  lemma BmiCategoryMonotone(a: real, b: real)
    requires a <= b
    ensures BandRank(GetBmiCategory(a)) <= BandRank(GetBmiCategory(b))
  {
  }

  /** 1.70 m and 70 kg give about 24.2: normal weight; 1.70 m and 90 kg give about 31.1: obesity. */
  lemma BmiCategoryExamples()
    ensures GetBmiCategory(CalculateBmi(70.0, 1.70)) == NormalWeight
    ensures GetBmiCategory(CalculateBmi(90.0, 1.70)) == Obesity
  {
  }

  // ----- Range validation -----

  datatype Validation = Validation(valid: bool, message: string)

  const AgeMessage := "L'âge doit être entre 10 et 100 ans"
  const HeightMessage := "La taille doit être entre 1.0 et 2.5 mètres"
  const WeightMessage := "Le poids doit être entre 30 et 300 kg"

  predicate AgeInRange(u: UserInputs)
    requires WellTyped(u)
  {
    "age" in u && 10.0 <= AsReal(u["age"]) <= 100.0
  }

  predicate HeightInRange(u: UserInputs)
    requires WellTyped(u)
  {
    "taille_m" in u && 1.0 <= AsReal(u["taille_m"]) <= 2.5
  }

  predicate WeightInRange(u: UserInputs)
    requires WellTyped(u)
  {
    "poids_kg" in u && 30.0 <= AsReal(u["poids_kg"]) <= 300.0
  }

  /** Checks age, then height, then weight; the first check that fails decides
      the message, and a key that is reached but missing raises KeyError. */
  function ValidateInputs(u: UserInputs): (r: Result<Validation>)
    requires WellTyped(u)
    ensures r == Ok(Validation(true, "")) <==> AgeInRange(u) && HeightInRange(u) && WeightInRange(u)
    ensures r == Err(KeyError("age")) <==> "age" !in u
    ensures r == Ok(Validation(false, AgeMessage)) <==> "age" in u && !AgeInRange(u)
    ensures r == Err(KeyError("taille_m")) <==> AgeInRange(u) && "taille_m" !in u
    ensures r == Ok(Validation(false, HeightMessage)) <==>
              AgeInRange(u) && "taille_m" in u && !HeightInRange(u)
    ensures r == Err(KeyError("poids_kg")) <==> AgeInRange(u) && HeightInRange(u) && "poids_kg" !in u
    ensures r == Ok(Validation(false, WeightMessage)) <==>
              AgeInRange(u) && HeightInRange(u) && "poids_kg" in u && !WeightInRange(u)
  {
    if "age" !in u then Err(KeyError("age"))
    else if AsReal(u["age"]) < 10.0 || AsReal(u["age"]) > 100.0 then Ok(Validation(false, AgeMessage))
    else if "taille_m" !in u then Err(KeyError("taille_m"))
    else if AsReal(u["taille_m"]) < 1.0 || AsReal(u["taille_m"]) > 2.5 then Ok(Validation(false, HeightMessage))
    else if "poids_kg" !in u then Err(KeyError("poids_kg"))
    else if AsReal(u["poids_kg"]) < 30.0 || AsReal(u["poids_kg"]) > 300.0 then Ok(Validation(false, WeightMessage))
    else Ok(Validation(true, ""))
  }

  /** Accepted inputs always take the division branch of CalculateBmi, and the
      index lies between 30 / 2.5² and 300 / 1.0². */
  lemma ValidInputsBmiBounds(u: UserInputs)
    requires WellTyped(u)
    requires ValidateInputs(u) == Ok(Validation(true, ""))
    ensures AsReal(u["taille_m"]) > 0.0
    ensures 30.0 / 6.25 <= CalculateBmi(AsReal(u["poids_kg"]), AsReal(u["taille_m"])) <= 300.0
  {
  }

  // ----- Yes/no coercion -----

  function LowerChar(c: char): char
  {
    if 'A' <= c <= 'Z' then (c as int + 32) as char else c
  }

  /** `str.lower()` restricted to the letters A to Z. */
  function Lower(s: string): (t: string)
    ensures |t| == |s|
    ensures forall i :: 0 <= i < |t| ==> !('A' <= t[i] <= 'Z')
    ensures forall i :: 0 <= i < |s| && 'A' <= s[i] <= 'Z' ==> t[i] as int == s[i] as int + 32
    ensures forall i :: 0 <= i < |s| && !('A' <= s[i] <= 'Z') ==> t[i] == s[i]
  {
    seq(|s|, i requires 0 <= i < |s| => LowerChar(s[i]))
  }

  const YesWords: seq<string> := ["oui", "yes", "true"]

  /** A text is 1 exactly when its lower-case form is a yes word; any other value
      is 1 exactly when it is non-zero. */
  function ConvertYesNoToNumeric(v: Value): (n: int)
    ensures n == 0 || n == 1
    ensures v.S? ==> (n == 1 <==> Lower(v.s) in YesWords)
    ensures v.I? ==> (n == 1 <==> v.n != 0)
    ensures v.R? ==> (n == 1 <==> v.x != 0.0)
  {
    match v
    case S(s) => if Lower(s) in YesWords then 1 else 0
    case I(k) => if k != 0 then 1 else 0
    case R(x) => if x != 0.0 then 1 else 0
  }

  /** The form's two choices, in any letter case, and an unrecognised text. */
  lemma YesNoExamples()
    ensures ConvertYesNoToNumeric(S("Oui")) == 1
    ensures ConvertYesNoToNumeric(S("OUI")) == 1
    ensures ConvertYesNoToNumeric(S("Non")) == 0
    ensures ConvertYesNoToNumeric(S("Ja")) == 0
  {
    assert Lower("Oui") == "oui";
    assert Lower("OUI") == "oui";
    assert Lower("Non") == "non";
    assert Lower("Ja") == "ja";
  }

  // ----- Feature record -----

  /** Where a column of the feature record comes from. */
  datatype Column =
    | Identifier            // the constant placeholder 0
    | Copy(key: string)     // the form value, unchanged
    | YesNo(key: string)    // the form value through the yes/no coercion
    | AtLeastThree(key: string)  // 1 when the form value is at least 3, else 0

  /** The seventeen columns, in the order the classifier expects. */
  const FeatureColumns: seq<(string, Column)> := [
    ("identifiant", Identifier),
    ("age", Copy("age")),
    ("taille_m", Copy("taille_m")),
    ("poids_kg", Copy("poids_kg")),
    ("antecedents_surpoids_famille", YesNo("antecedents_familiaux")),
    ("consommation_frequent_calorique", AtLeastThree("consommation_legumes")),
    ("frequence_legumes", Copy("consommation_legumes")),
    ("nombre_repas_jour", Copy("nombre_repas_principaux")),
    ("fumeur", YesNo("fumeur")),
    ("eau_litres_jour", Copy("consommation_eau")),
    ("suivi_calories", YesNo("surveillance_calories")),
    ("activite_physique_hebdo", Copy("frequence_activite_physique")),
    ("temps_ecran", Copy("temps_technologie")),
    ("genre", Copy("genre")),
    ("grignotage", Copy("grignotage")),
    ("alcool", Copy("alcool")),
    ("transport", Copy("transport"))
  ]

  /** The form keys the record reads, in the order the record literal reads them. */
  const InputKeys: seq<string> := [
    "age", "taille_m", "poids_kg", "antecedents_familiaux", "consommation_legumes",
    "nombre_repas_principaux", "fumeur", "consommation_eau", "surveillance_calories",
    "frequence_activite_physique", "temps_technologie", "genre", "grignotage", "alcool", "transport"
  ]

  predicate HasAll(keys: seq<string>, u: UserInputs)
  {
    forall i :: 0 <= i < |keys| ==> keys[i] in u
  }

  /** The first key, in order, that the inputs lack. */
  function FirstMissing(keys: seq<string>, u: UserInputs): (r: Option<string>)
    ensures r.None? <==> HasAll(keys, u)
    ensures r.Some? ==> exists i :: 0 <= i < |keys| && keys[i] == r.value && r.value !in u
                                    && forall j :: 0 <= j < i ==> keys[j] in u
  {
    if keys == [] then None
    else if keys[0] !in u then Some(keys[0])
    else
      var rest := FirstMissing(keys[1..], u);
      assert rest.Some? ==> exists i :: 0 <= i < |keys| && keys[i] == rest.value && rest.value !in u
                                        && forall j :: 0 <= j < i ==> keys[j] in u by {
        if rest.Some? {
          var i :| 0 <= i < |keys[1..]| && keys[1..][i] == rest.value && rest.value !in u
                   && forall j :: 0 <= j < i ==> keys[1..][j] in u;
          assert forall j :: 0 <= j < i + 1 ==> keys[j] in u by {
            forall j | 0 <= j < i + 1 ensures keys[j] in u {
              if j > 0 { assert keys[j] == keys[1..][j - 1]; }
            }
          }
        }
      }
      rest
  }

  predicate Readable(c: Column, u: UserInputs)
  {
    match c
    case Identifier => true
    case Copy(k) => k in u
    case YesNo(k) => k in u
    case AtLeastThree(k) => k in u && k in NumericKeys
  }

  /** The value a column takes for the given inputs. */
  function Cell(c: Column, u: UserInputs): Value
    requires WellTyped(u) && Readable(c, u)
  {
    match c
    case Identifier => I(0)
    case Copy(k) => u[k]
    case YesNo(k) => I(ConvertYesNoToNumeric(u[k]))
    case AtLeastThree(k) => I(if AsReal(u[k]) >= 3.0 then 1 else 0)
  }

  /** When every form key is present, every column can be read, and the record
      holds, column by column, the name and the value the column table gives:
      the placeholder, a verbatim copy, a yes/no coercion or the derived flag. */
  lemma PrepareInputDataFollowsColumns(u: UserInputs)
    requires WellTyped(u)
    requires HasAll(InputKeys, u)
    ensures PrepareInputData(u).Ok?
    ensures forall i :: 0 <= i < |FeatureColumns| ==>
              Readable(FeatureColumns[i].1, u) &&
              PrepareInputData(u).value[i] == (FeatureColumns[i].0, Cell(FeatureColumns[i].1, u))
  {
    InputKeysPresent(u);
  }

  lemma InputKeysPresent(u: UserInputs)
    requires HasAll(InputKeys, u)
    ensures "age" in u && "taille_m" in u && "poids_kg" in u && "antecedents_familiaux" in u
    ensures "consommation_legumes" in u && "nombre_repas_principaux" in u && "fumeur" in u
    ensures "consommation_eau" in u && "surveillance_calories" in u && "frequence_activite_physique" in u
    ensures "temps_technologie" in u && "genre" in u && "grignotage" in u && "alcool" in u && "transport" in u
  {
    assert InputKeys[0] in u && InputKeys[1] in u && InputKeys[2] in u && InputKeys[3] in u;
    assert InputKeys[4] in u && InputKeys[5] in u && InputKeys[6] in u && InputKeys[7] in u;
    assert InputKeys[8] in u && InputKeys[9] in u && InputKeys[10] in u && InputKeys[11] in u;
    assert InputKeys[12] in u && InputKeys[13] in u && InputKeys[14] in u;
  }

  /** The feature record as a sequence of named fields. A missing form key
      raises KeyError for the first one the literal reads. */
  function PrepareInputData(u: UserInputs): (r: Result<seq<(string, Value)>>)
    requires WellTyped(u)
    ensures r.Err? <==> !HasAll(InputKeys, u)
    ensures r.Err? ==> r.error.KeyError? && FirstMissing(InputKeys, u) == Some(r.error.key)
    ensures r.Ok? ==> |r.value| == |FeatureColumns|
    ensures r.Ok? ==> r.value[0] == ("identifiant", I(0))
    ensures r.Ok? ==> "consommation_legumes" in u && r.value[5].1 == I(if AsReal(u["consommation_legumes"]) >= 3.0 then 1 else 0)
  {
    match FirstMissing(InputKeys, u)
    case Some(k) => Err(KeyError(k))
    case None =>
      InputKeysPresent(u);
      Ok([
        ("identifiant", I(0)),
        ("age", u["age"]),
        ("taille_m", u["taille_m"]),
        ("poids_kg", u["poids_kg"]),
        ("antecedents_surpoids_famille", I(ConvertYesNoToNumeric(u["antecedents_familiaux"]))),
        ("consommation_frequent_calorique", I(if AsReal(u["consommation_legumes"]) >= 3.0 then 1 else 0)),
        ("frequence_legumes", u["consommation_legumes"]),
        ("nombre_repas_jour", u["nombre_repas_principaux"]),
        ("fumeur", I(ConvertYesNoToNumeric(u["fumeur"]))),
        ("eau_litres_jour", u["consommation_eau"]),
        ("suivi_calories", I(ConvertYesNoToNumeric(u["surveillance_calories"]))),
        ("activite_physique_hebdo", u["frequence_activite_physique"]),
        ("temps_ecran", u["temps_technologie"]),
        ("genre", u["genre"]),
        ("grignotage", u["grignotage"]),
        ("alcool", u["alcool"]),
        ("transport", u["transport"])
      ])
  }

  // ----- Label and colour tables -----

  /** The classifier's seven class names and their display texts, in declaration order. */
  function GetObesityLabels(): (labels: seq<(string, string)>)
    ensures |labels| == 7
    ensures forall i, j :: 0 <= i < j < 7 ==> labels[i].0 != labels[j].0 && labels[i].1 != labels[j].1
  {
    [ ("Insuffisance_Ponderale", "Insuffisance pondérale"),
      ("Poids_Normal", "Poids normal"),
      ("Surpoids_Niveau_I", "Surpoids niveau I"),
      ("Surpoids_Niveau_II", "Surpoids niveau II"),
      ("Obesite_Type_I", "Obésité type I"),
      ("Obesite_Type_II", "Obésité type II"),
      ("Obesite_Type_III", "Obésité type III") ]
  }

  /** The same display texts keyed by class index. */
  function GetObesityLabelsNumeric(): (labels: map<int, string>)
    ensures labels.Keys == {0, 1, 2, 3, 4, 5, 6}
  {
    map[0 := "Insuffisance pondérale",
        1 := "Poids normal",
        2 := "Surpoids niveau I",
        3 := "Surpoids niveau II",
        4 := "Obésité type I",
        5 := "Obésité type II",
        6 := "Obésité type III"]
  }

  /** Index i names the i-th class of the declaration-order table. */
  lemma NumericLabelsFollowDeclarationOrder()
    ensures forall i :: 0 <= i < 7 ==> GetObesityLabelsNumeric()[i] == GetObesityLabels()[i].1
  {
  }

  const DefaultColor := "#757575"

  /** One colour per class index from green to violet, a grey for anything else. */
  function GetRiskColor(prediction: int): (color: string)
    ensures color == DefaultColor <==> !(0 <= prediction <= 6)
  {
    var colors := map[0 := "#4CAF50", 1 := "#8BC34A", 2 := "#FFC107", 3 := "#FF9800",
                      4 := "#FF5722", 5 := "#F44336", 6 := "#9C27B0"];
    if prediction in colors then colors[prediction] else DefaultColor
  }

  /** Different classes get different colours. */
  lemma RiskColorsDistinct(p: int, q: int)
    requires 0 <= p <= 6 && 0 <= q <= 6 && p != q
    ensures GetRiskColor(p) != GetRiskColor(q)
  {
  }
}
