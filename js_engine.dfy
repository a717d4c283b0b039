/** The engine and value contracts. Exactly one backend is bound, QuickJS:
    the contracts of its operations are stated on `QuickJs.Engine` and on the
    functions over `QuickJs.Value`, and the rest of the crate reaches them
    only through the two names below. */
module JsEngine {
  import opened Errors
  import QJ = QuickJsCrate
  import opened QuickJs

  type Engine = QuickJs.Engine

  type Value = QuickJs.Value

  /** A value made by a factory converts back to what it was made from. */
  lemma FactoriesRoundTrip(b: bool, i: QJ.i32, f: QJ.F64, s: string)
    ensures IntoBool(FromBool(b)) == Ok(b)
    ensures IntoInt(FromInt(i)) == Ok(i)
    ensures IntoFloat(FromFloat(f)) == Ok(f)
    ensures IntoString(FromString(s)) == Ok(s)
  {
  }

  /** Converting to a type the value's tag does not hold fails, and the
      failure is always a value error, never an init or exec error. */
  lemma MismatchIsValueError(v: Value)
    ensures !IsBool(v) ==> IntoBool(v).Err? && IntoBool(v).error.JsValueError?
    ensures !IsInt(v) ==> IntoInt(v).Err? && IntoInt(v).error.JsValueError?
    ensures !IsFloat(v) ==> IntoFloat(v).Err? && IntoFloat(v).error.JsValueError?
    ensures !IsString(v) ==> IntoString(v).Err? && IntoString(v).error.JsValueError?
  {
  }
}
