/** `AppMessageTypeExtensions`: the text and the code reported for each message type. */
module AppMessageTypeExtensions {
  import opened Errors
  import opened Integers
  import opened DecimalText
  import opened Text
  import opened AppMessageTypes

  const ErrorCodePrefix: string := "BACKEND_"

  /** `GetErrorMsg`: a readable message for each declared member; any other value throws. */
  function GetErrorMsg(msg: AppMessageType): (r: Result<string>)
    ensures r.Ok? <==> IsDefined(msg)
    ensures r.Throw? ==> r.error == ArgumentOutOfRange("msg")
    ensures r.Ok? ==> !AllWhiteSpace(r.value)
  {
    if !IsDefined(msg) then
      Throw(ArgumentOutOfRange("msg"))
    else
      var text :=
        if msg == InvalidRequest then "Invalid request"
        else if msg == UnknownError then "Unknown error occurred"
        else if msg == NotFound then "The resource was not found"
        else if msg == ResourceAlreadyExists then "Resource already exists"
        else "User is locked out";
      assert !IsWhiteSpace(text[0]);
      Ok(text)
  }

  /** Two different members never share a message. */
  lemma ErrorMsgInjective(a: AppMessageType, b: AppMessageType)
    requires GetErrorMsg(a).Ok? && GetErrorMsg(b).Ok?
    requires GetErrorMsg(a).value == GetErrorMsg(b).value
    ensures a == b
  {
  }

  /** `GetErrorCode`: `"BACKEND_"` and the member's number; undefined values throw. */
  function GetErrorCode(msg: AppMessageType): (r: Result<string>)
    ensures r.Ok? <==> IsDefined(msg)
    ensures r.Throw? ==> r.error == ArgumentOutOfRange("msg")
    ensures r.Ok? ==> |r.value| > |ErrorCodePrefix| && r.value[..|ErrorCodePrefix|] == ErrorCodePrefix
    ensures r.Ok? ==> ParseInt64(r.value[|ErrorCodePrefix|..]) == Some(msg as int)
  {
    if !IsDefined(msg) then
      Throw(ArgumentOutOfRange("msg"))
    else
      ParseOfToDecimal(msg);
      var code := ErrorCodePrefix + ToDecimal(msg);
      assert code[|ErrorCodePrefix|..] == ToDecimal(msg);
      Ok(code)
  }

  /** Two different members never share a code. */
  lemma ErrorCodeInjective(a: AppMessageType, b: AppMessageType)
    requires GetErrorCode(a).Ok? && GetErrorCode(b).Ok?
    requires GetErrorCode(a).value == GetErrorCode(b).value
    ensures a == b
  {
    var code := GetErrorCode(a).value;
    assert ParseInt64(code[|ErrorCodePrefix|..]) == Some(a as int);
    assert ParseInt64(code[|ErrorCodePrefix|..]) == Some(b as int);
  }

  /** `NotFound` is reported as `"BACKEND_3"`, and the value `999` has neither a message nor
      a code. */
  lemma MessageExamples()
    ensures GetErrorCode(NotFound) == Ok("BACKEND_3")
    ensures GetErrorMsg(999) == Throw(ArgumentOutOfRange("msg"))
    ensures GetErrorCode(999) == Throw(ArgumentOutOfRange("msg"))
  {
    assert ToDecimal(NotFound) == "3" by {
      assert ToDecimal(NotFound) == NatToDecimal(3) == [DigitChar(3)] == "3";
    }
    assert GetErrorCode(NotFound) == Ok(ErrorCodePrefix + ToDecimal(NotFound));
    assert ErrorCodePrefix + "3" == "BACKEND_3";
  }
}
