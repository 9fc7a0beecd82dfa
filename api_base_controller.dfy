/** `HandleResult` of the API `BaseController`: a service result becomes an HTTP response. */
module ApiBaseController {
  import opened Errors
  import opened AppMessageTypes
  import opened ActionResults

  /** A succeeded result is `200 OK`; a failed one gets the status of its message type; a
      failed one without a listed message type throws. The body is always the result itself. */
  function HandleResult<T>(result: ResultDto<T>): (r: Result<ObjectResult<T>>)
    ensures r.Ok? ==> r.value.Value == result
    ensures r.Ok? ==> (r.value.StatusCode == Status200OK <==> result.Succeed)
    ensures result.Succeed ==> r.Ok?
    ensures !result.Succeed ==> (r.Ok? <==> result.MessageType.Some? && IsDefined(result.MessageType.value))
    ensures r.Throw? ==> r.error == ArgumentOutOfRange("")
    ensures !result.Succeed && result.MessageType == Some(UnknownError) ==>
              r == Ok(ObjectResult(Status500InternalServerError, result))
    ensures !result.Succeed && (result.MessageType == Some(InvalidRequest) || result.MessageType == Some(ResourceAlreadyExists)) ==>
              r == Ok(ObjectResult(Status400BadRequest, result))
    ensures !result.Succeed && result.MessageType == Some(NotFound) ==>
              r == Ok(ObjectResult(Status404NotFound, result))
    ensures !result.Succeed && result.MessageType == Some(UserIsLockedOut) ==>
              r == Ok(ObjectResult(Status401Unauthorized, result))
  {
    if result.Succeed then
      Ok(ObjectResult(Status200OK, result))
    else
      match result.MessageType
      case Some(t) =>
        if t == UnknownError then Ok(ObjectResult(Status500InternalServerError, result))
        else if t == InvalidRequest || t == ResourceAlreadyExists then Ok(ObjectResult(Status400BadRequest, result))
        else if t == NotFound then Ok(ObjectResult(Status404NotFound, result))
        else if t == UserIsLockedOut then Ok(ObjectResult(Status401Unauthorized, result))
        else Throw(ArgumentOutOfRange(""))
      case None => Throw(ArgumentOutOfRange(""))
  }
}
