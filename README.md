# Obesity dashboard core in Dafny

This project models the two logic components behind the obesity-risk dashboard.

- **The advice engine** (`src/advice_engine.py`) holds a nested table of advice lists:
  - categories: `nutrition`, `activite_physique`, `mode_de_vie`;
  - weight buckets: `insuffisance_ponderale`, `poids_normal`, `surpoids`, `obesite`, and `general` for lifestyle.

  It maps a class index to a bucket. It runs seven threshold rules that append fixed messages to the lists. It also computes the risk and protective factor labels for a form.
- **The input helpers** (`src/utils.py`) cover:
  - the guarded BMI and its four bands;
  - range validation, where the first failure wins;
  - the yes/no coercion and the feature record passed to the classifier;
  - the fixed label and colour tables.

The form is a `map<string, Value>`, where a value is an integer, a real or a text (`Inputs.dfy`). A lookup with a default models `dict.get(key, 0)`. Two of the exceptions the core can raise are modelled as `Result.Err`:

- `KeyError`, from direct indexing with a missing key;
- `ZeroDivisionError`, from a zero height in `get_risk_factors`.

`Rules.dfy` captures the shape shared by all three rule chains: a run of independent `if cond: out.append(item)` statements. Its result is `Select(items, flags)`, the items whose flag holds, in table order. The facts about that shape (length, membership, no repeats) are proved once there.

**The engine is imperative.**

- Each stored list is an `AdviceList` object with a mutable `items` field.
- The engine's table is a map from category and bucket to those objects.
- `GetPersonalizedAdvice` hands out the stored objects themselves, as the Python code does at `src/advice_engine.py:78-80`. The appends of `AddSpecificAdvice` therefore grow the engine's table in place.
- Each list carries a ghost `slot` naming its place in the table. This makes it provable that no other list changes.
- `CachedEngineAccumulates` reuses one engine for two requests, as the dashboard's cached resource does. It shows the second request seeing the extras the first one appended.

`get_risk_factors` and `get_protective_factors` each build a fresh local list by sequential appends. They are methods with a local sequence, proved equal to the `Select`-based specification functions. Membership, order, length and no-repeat lemmas are proved about those functions.

**Behaviour of the code worth knowing:**

- The stored lists are mutated in place, so advice accumulates across requests on the cached engine (`CachedEngineAccumulates`).
- A message can be shown twice: the `surpoids` activity list starts with the message that rule 2 appends (`OverweightActivityAdviceRepeats`).
- Neither `calculate_bmi` nor `get_risk_factors` guards a zero height itself. `calculate_bmi` returns 0 for a height that is not positive, and `get_risk_factors` divides by zero. The page runs `validate_inputs` first (`src/app_obesite.py:162-166`, before the call at `:243`), and it rejects any height outside [1.0, 2.5]. So the ZeroDivisionError cannot be reached from the form (`ValidInputsBmiBounds`).

## Model

| member | source | states |
|---|---|---|
| Utils.CalculateBmi | src/utils.py:28-32 | a height that is not positive gives 0; otherwise the result times the squared height is the weight |
| Utils.GetBmiCategory | src/utils.py:34-43 | exactly one of four labels, and each label holds exactly on its band: below 18.5, [18.5, 25), [25, 30), from 30 |
| Utils.BmiCategoryMonotone | src/utils.py:34-43 | a larger index never falls in a lower band |
| Utils.BmiCategoryExamples | src/utils.py:28-43 | 70 kg at 1.70 m is normal weight; 90 kg at 1.70 m is obesity |
| Utils.ValidateInputs | src/utils.py:118-129 | `(True, "")` exactly when age, height and weight are all in range; otherwise the message of the first failing check, in the order age, height, weight; a KeyError for the first missing key that is reached |
| Utils.ValidInputsBmiBounds | src/utils.py:118-129 | accepted inputs have a positive height, so `calculate_bmi` takes the division branch, and the index lies in [30/6.25, 300] |
| Utils.Lower | src/utils.py:50 | keeps the length; no capital A to Z remains; each capital A to Z becomes its small letter; every other character is unchanged |
| Utils.ConvertYesNoToNumeric | src/utils.py:48-51 | always 0 or 1; a text gives 1 exactly when its lower-case form is `oui`, `yes` or `true`; a number gives 1 exactly when it is non-zero |
| Utils.YesNoExamples | src/utils.py:48-51 | `Oui` and `OUI` give 1; `Non` and an unknown word give 0 |
| Utils.FirstMissing | src/utils.py:54-73 | none exactly when every key is present; otherwise the first missing key in reading order |
| Utils.PrepareInputData | src/utils.py:45-75 | an error exactly when a form key is missing, and then a KeyError for the first key the record literal reads; otherwise 17 fields, `identifiant` is 0, and `consommation_frequent_calorique` is 1 exactly when `consommation_legumes` is at least 3 |
| Utils.PrepareInputDataFollowsColumns | src/utils.py:54-73 | with every key present, field i has the i-th column's name and value: the placeholder, a verbatim copy, the yes/no coercion of the three yes/no fields, or the derived flag |
| Utils.InputKeysPresent | src/utils.py:56-72 | presence of the key list gives each of the fifteen keys the record reads |
| Utils.GetObesityLabels | src/utils.py:77-87 | seven pairs with pairwise distinct class names and display texts |
| Utils.GetObesityLabelsNumeric | src/utils.py:89-99 | defined on exactly the indexes 0 to 6 |
| Utils.NumericLabelsFollowDeclarationOrder | src/utils.py:77-99 | the text at index i is the display text of the i-th class in declaration order |
| Utils.GetRiskColor | src/utils.py:101-112 | grey exactly for an index outside 0 to 6 |
| Utils.RiskColorsDistinct | src/utils.py:101-112 | different classes get different colours |
| Advice.WeightCategory | src/advice_engine.py:88-97 | total over all integers, returns one of four buckets: 0 underweight, 1 normal, 2 or 3 overweight, any other integer (negatives included) obese |
| Advice.InitialAdviceDatabase | src/advice_engine.py:11-70 | the table has the three categories; nutrition and activity have the four buckets; lifestyle has only `general` |
| Advice.BaseLookupNeverDefaults | src/advice_engine.py:77-81 | the bucket of any prediction is in both bucketed tables and `general` is in the lifestyle table, so the `[]` fallback of the lookups is never used |
| Advice.AdviceFired | src/advice_engine.py:104-130 | one flag per advice rule, seven in all |
| Rules.Select | src/advice_engine.py:168-193 | the result of a run of independent guarded appends: no longer than the table, and every selected item comes from the table |
| Advice.Extras | src/advice_engine.py:104-130 | the messages the seven rules append to a category: at most seven, each one of the seven rule messages |
| Advice.HasBmi | src/advice_engine.py:139 | the BMI expression is defined exactly when weight and height are present and the squared height is not zero |
| Advice.Bmi | src/advice_engine.py:139 | weight over squared height: the result times the squared height is the weight |
| Advice.RiskFactors | src/advice_engine.py:140-162 | the list the risk append chain builds: at most seven entries, each one of the risk labels |
| Advice.ProtectiveFactors | src/advice_engine.py:170-191 | the list the protective append chain builds: at most six entries, each one of the protective labels |
| Advice.AdviceMessagesDistinct | src/advice_engine.py:104-130 | the seven advice messages are pairwise distinct and message k belongs to rule k |
| Advice.ExtrasUnfold | src/advice_engine.py:104-130 | a category's extras are the messages of its firing rules, taken rule by rule in order |
| Advice.ExtrasMembership | src/advice_engine.py:104-130 | a rule's message is appended to a category exactly when the rule fires and belongs to that category |
| Advice.ExtrasByCategory | src/advice_engine.py:104-130 | nutrition receives vegetables then snacking, activity receives activity then transport, lifestyle receives water then stress then screen time, each exactly when its rule fires |
| Advice.GuardedAppendsGiveExtras | src/advice_engine.py:104-130 | the category's guarded appends, in source order, extend any list by exactly that category's extras |
| Advice.ExtrasBounds | src/advice_engine.py:104-130 | nutrition and activity grow by at most two messages, lifestyle by at most three, and every other category by none |
| Advice.ExtrasCounts | src/advice_engine.py:104-130 | each category grows by exactly the number of its rules that fire |
| Advice.OverweightActivityAdviceRepeats | src/advice_engine.py:51-55 | with an activity frequency below 2, the overweight activity list plus the extras contains the low-activity message twice |
| Advice.MissingKeysDefaultToZero | src/advice_engine.py:105-125 | a missing vegetable, activity or water value fires its "below 2" rule; a missing stress or screen-time value never fires its "above 2" rule |
| Advice.WaterOnlyAffectsLifestyle | src/advice_engine.py:112-114 | changing the water value leaves the nutrition and activity extras unchanged |
| Advice.RiskFired | src/advice_engine.py:139-162 | one flag per risk label, seven in all |
| Advice.RiskFactorsMembership | src/advice_engine.py:139-162 | each risk label is listed exactly when its condition holds; the high-BMI label from 30 on, the overweight label on [25, 30) |
| Advice.RiskFactorsShape | src/advice_engine.py:136-164 | at most six labels, never two equal ones, and never both BMI labels |
| Advice.ProtectiveFired | src/advice_engine.py:170-191 | one flag per protective label, six in all |
| Advice.ProtectiveFactorsShape | src/advice_engine.py:166-193 | at most six labels, never two equal ones |
| Advice.ProtectiveFactorsMembership | src/advice_engine.py:170-191 | each protective label is listed exactly when its condition holds |
| Advice.RegularActivityExcludesSedentary | src/advice_engine.py:150-172 | "regular activity" as a protective factor and "sedentary life" as a risk never occur together |
| Advice.SnackingAppearsTwice | src/advice_engine.py:117-155 | "always" snacking yields both the snacking advice and the snacking risk label |
| Advice.AdviceList.constructor | src/advice_engine.py:13-69 | a new list holds the given messages in the given slot |
| Advice.AdviceList.Append | src/advice_engine.py:106 | the list grows by exactly the appended message |
| Advice.AdviceList.AppendWhen | src/advice_engine.py:105-106 | the list grows by the message when the condition holds, and is unchanged otherwise |
| Advice.NewBucketLists | src/advice_engine.py:14-38 | a fresh list per weight bucket, holding that bucket's messages |
| Advice.NewDatabase | src/advice_engine.py:13-70 | a fresh list for every entry of the table, with the same keys and messages and its own slot |
| Advice.AdviceEngine.constructor | src/advice_engine.py:8-9 | a well-formed engine whose every list is fresh and holds the initial messages of its slot |
| Advice.AdviceEngine.GetPersonalizedAdvice | src/advice_engine.py:72-86 | returns exactly the three categories, bound to the stored lists of the prediction's bucket (for lifestyle, of `general`); those lists grow by their extras; every other stored list is unchanged |
| Advice.AdviceEngine.AddSpecificAdvice | src/advice_engine.py:99-132 | returns the same map; each of the three lists grows by exactly its category's extras |
| Advice.AdviceEngine.GetRiskFactors | src/advice_engine.py:134-164 | KeyError for a missing weight, then a missing height; ZeroDivisionError for a zero height; otherwise the risk labels of the computed BMI, at most six and never repeated |
| Advice.AdviceEngine.CollectRiskFactors | src/advice_engine.py:140-162 | the append chain gives exactly the risk labels of the given BMI in rule order, at most six and never repeated |
| Advice.AdviceEngine.GetProtectiveFactors | src/advice_engine.py:166-193 | exactly the protective labels in rule order, at most six and never repeated |
| Advice.CachedEngineAccumulates | src/app_obesite.py:118-125 | on one cached engine, the first request's lifestyle list is the general list plus the extras, and a second identical request appends the same extras again |

## Left out

- Comparing a text with a number raises TypeError in Python, and this is not modelled. Every member that reads a numeric field requires `WellTyped`: each of the eight numerically compared fields, when present, holds a number. This also covers fields a given member does not compare: `ValidateInputs` never reads `stress`, and `PrepareInputData` copies `age` verbatim. The form always supplies numbers in all of them, so no call from the page is excluded.
- Utils.Lower: lower-cases the letters A to Z only. Python's `str.lower` also folds accented and other non-ASCII capitals, and Dafny has no Unicode case tables. This loses nothing for `ConvertYesNoToNumeric`. No non-ASCII character lower-cases to text made only of the letters of `oui`, `yes` and `true`, so the coercion agrees with Python on every text.
- Arithmetic is over exact reals. IEEE rounding of the BMI and `height ** 2` (modelled as `height * height`) are not modelled.
- Python booleans are not a separate kind of value. `int(bool(v))` is modelled for integers and reals, which are the only non-text values the form produces.
- The pandas DataFrame of `prepare_input_data` is modelled as a sequence of (column name, value) pairs. The one-row column wrapping is not modelled.
- `load_model`, `load_data` and the `st.cache_*` decorators are file I/O and framework caching. The cached engine appears only as one engine reused across requests (`CachedEngineAccumulates`).
- The classifier, the Streamlit pages, the charts, and the prediction-index resolution in the page handler are outside the core.
- `format_percentage` is float formatting and `get_feature_names` is a list of display names with no behaviour; neither is modelled.
- Advice.AdviceEngine.AddSpecificAdvice: requires the three lists it appends to to be distinct objects. Python accepts any dictionary. The only caller passes three different stored lists, which `GetPersonalizedAdvice` proves from the slots. Its unused `weight_category` argument is kept.
- Advice.AdviceEngine.GetPersonalizedAdvice: reads the stored list directly instead of through `.get(bucket, [])`. `BaseLookupNeverDefaults` shows that the fallback list is never used.
- The form never produces a `stress` field (it is not among the widgets of `src/ui_components.py`). Its rules are modelled anyway, defaulting to 0 as the code does.
