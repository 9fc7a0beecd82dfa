/** `AppMessageType`: the `int`-backed enumeration of the application's failure kinds. Any
    `int` converts to the type, so values outside the declared members are representable. */
module AppMessageTypes {
  import opened Integers

  type AppMessageType = Int32

  const UnknownError: AppMessageType := 1
  const InvalidRequest: AppMessageType := 2
  const NotFound: AppMessageType := 3
  const ResourceAlreadyExists: AppMessageType := 4
  const UserIsLockedOut: AppMessageType := 5

  /** The declared members in declaration order: distinct, and `0`, the default of the type,
      is not one of them. */
  function DeclaredValues(): (values: seq<AppMessageType>)
    ensures |values| == 5
    ensures forall i, j :: 0 <= i < j < |values| ==> values[i] < values[j]
    ensures 0 !in values
  {
    [UnknownError, InvalidRequest, NotFound, ResourceAlreadyExists, UserIsLockedOut]
  }

  /** `Enum.IsDefined`: the value is a declared member, which is the range 1..5. */
  function IsDefined(msg: AppMessageType): (defined: bool)
    ensures defined <==> 1 <= msg <= 5
  {
    msg in DeclaredValues()
  }
}
