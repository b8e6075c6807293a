/** The raw form data both core files read: a flat mapping from field names to
    values, and the two Python failures the core can raise on it. */
module Inputs {

  /** A form value: an integer slider, a real number input, or a selected text. */
  datatype Value = I(n: int) | R(x: real) | S(s: string)

  type UserInputs = map<string, Value>

  /** Exceptions the core lets escape: indexing a missing key, dividing by zero. */
  datatype Fault = KeyError(key: string) | ZeroDivisionError

  datatype Result<T> = Ok(value: T) | Err(error: Fault)

  datatype Option<T> = None | Some(value: T)

  /** `d.get(key, default)`. */
  function Get(u: UserInputs, key: string, default: Value): Value
  {
    if key in u then u[key] else default
  }

  predicate IsNumber(v: Value)
  {
    v.I? || v.R?
  }

  function AsReal(v: Value): real
    requires IsNumber(v)
  {
    if v.I? then v.n as real else v.x
  }

  /** The fields the core compares with a number. */
  const NumericKeys: set<string> := {
    "age", "taille_m", "poids_kg", "consommation_legumes",
    "frequence_activite_physique", "consommation_eau", "stress", "temps_technologie"
  }

  /** Every numerically compared field that is present holds a number (otherwise
      Python raises TypeError, which is not part of this model). */
  predicate WellTyped(u: UserInputs)
  {
    forall k :: k in NumericKeys && k in u ==> IsNumber(u[k])
  }

  /** `u.get(key, 0)` read as a number. */
  function Number(u: UserInputs, key: string): real
    requires WellTyped(u) && key in NumericKeys
  {
    AsReal(Get(u, key, I(0)))
  }

  /** `u.get(key) == text`: a missing key reads as None, which equals no text. */
  predicate Equals(u: UserInputs, key: string, text: string)
  {
    key in u && u[key] == S(text)
  }

  /** `u.get(key) in options` for a list of texts. */
  predicate OneOf(u: UserInputs, key: string, options: seq<string>)
  {
    key in u && u[key].S? && u[key].s in options
  }
}
