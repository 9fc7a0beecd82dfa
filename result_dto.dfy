/** The result object a service hands to a controller, and the HTTP response a controller
    builds from it. */
module ActionResults {
  import opened Errors
  import opened AppMessageTypes

  /** The part of a result DTO that `HandleResult` reads. `Payload` stands for the rest of the
      object, which is passed through untouched. */
  datatype ResultDto<T> = ResultDto(Succeed: bool, MessageType: Option<AppMessageType>, Payload: T)

  /** An `ObjectResult`: the status code and the body. */
  datatype ObjectResult<T> = ObjectResult(StatusCode: int, Value: ResultDto<T>)

  const Status200OK: int := 200
  const Status400BadRequest: int := 400
  const Status401Unauthorized: int := 401
  const Status404NotFound: int := 404
  const Status500InternalServerError: int := 500
}
