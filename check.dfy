/** `Check`: argument guards. A guard either returns or throws; null is `None`. */
module Check {
  import opened Errors
  import opened Integers
  import opened Text

  /** `NotNull`, both overloads (a value and a read-only collection): throws exactly for null. */
  function NotNull<T>(val: Option<T>, parameterName: string): (r: Result<()>)
    ensures r.Throw? <==> val.None?
    ensures r.Throw? ==> r.error == ArgumentNull(parameterName)
  {
    if val.None? then Throw(ArgumentNull(parameterName)) else Ok(())
  }

  /** `NotEmpty` on a string: null is rejected first; then a string that is empty or all
      white space. */
  function NotEmptyString(val: Option<string>, parameterName: string): (r: Result<()>)
    ensures val.None? ==> r == Throw(ArgumentNull(parameterName))
    ensures val.Some? ==> (r.Throw? <==> AllWhiteSpace(val.value))
    ensures val.Some? && r.Throw? ==> r.error == Argument(parameterName)
  {
    match NotNull(val, parameterName)
    case Throw(e) => Throw(e)
    case Ok(_) =>
      if |Trim(val.value)| == 0 then Throw(Argument(parameterName)) else Ok(())
  }

  /** `NotEmpty` on a `long?`: null is rejected first; then any value that is not positive. */
  function NotEmptyLong(val: Option<Int64>, parameterName: string): (r: Result<()>)
    ensures r.Ok? <==> val.Some? && val.value > 0
    ensures val.None? ==> r == Throw(ArgumentNull(parameterName))
    ensures val.Some? && r.Throw? ==> r == Throw(ArgumentOutOfRange(parameterName))
  {
    match NotNull(val, parameterName)
    case Throw(e) => Throw(e)
    case Ok(_) =>
      if val.value <= 0 then Throw(ArgumentOutOfRange(parameterName)) else Ok(())
  }

  /** `IsEmpty`: an id that is not positive is empty. */
  function IsEmpty(val: Int64): (empty: bool)
    ensures empty <==> val <= 0
  {
    val <= 0
  }

  /** `NotEmpty` on a present `long` accepts exactly the values `IsEmpty` calls non-empty. */
  lemma NotEmptyAgreesWithIsEmpty(val: Int64, parameterName: string)
    ensures NotEmptyLong(Some(val), parameterName).Ok? <==> !IsEmpty(val)
  {
  }
}
