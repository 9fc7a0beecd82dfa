/** `HandleResult` of the MVC `BaseController`, a copy of the API controller's mapping. */
module MvcBaseController {
  import opened Errors
  import opened AppMessageTypes
  import opened ActionResults
  import ApiBaseController

  /** The same mapping as the API controller's: `200 OK` on success, the message type's status
      on failure, a throw when a failure carries no listed message type. */
  function HandleResult<T>(result: ResultDto<T>): (r: Result<ObjectResult<T>>)
    ensures r.Ok? ==> r.value.Value == result
    ensures r.Ok? ==> (r.value.StatusCode == Status200OK <==> result.Succeed)
    ensures result.Succeed ==> r.Ok?
    ensures !result.Succeed ==> (r.Ok? <==> result.MessageType.Some? && IsDefined(result.MessageType.value))
    ensures r.Throw? ==> r.error == ArgumentOutOfRange("")
  {
    if result.Succeed then
      Ok(ObjectResult(Status200OK, result))
    else
      match result.MessageType
      case Some(t) =>
        if t == UnknownError then Ok(ObjectResult(Status500InternalServerError, result))
        else if t == InvalidRequest || t == ResourceAlreadyExists then Ok(ObjectResult(Status400BadRequest, result))
        else if t == NotFound then Ok(ObjectResult(Status404NotFound, result))
        else if t == UserIsLockedOut then Ok(ObjectResult(Status401Unauthorized, result))
        else Throw(ArgumentOutOfRange(""))
      case None => Throw(ArgumentOutOfRange(""))
  }

  /** Both controllers answer every result identically. */
  lemma SameAsApi<T>(result: ResultDto<T>)
    ensures HandleResult(result) == ApiBaseController.HandleResult(result)
  {
  }
}
