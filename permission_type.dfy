/** `PermissionType`: the `[Flags]` enum of operations a principal may perform on a resource
    category. Its underlying type is `int`, so any `int` converts to it; the named members are
    the constants below. */
module PermissionTypes {
  import opened Integers

  type PermissionType = Int32

  const None: PermissionType := 0
  const Read: PermissionType := 1      // 1 << 0
  const Create: PermissionType := 2    // 1 << 1
  const Delete: PermissionType := 4    // 1 << 2
  const Update: PermissionType := 8    // 1 << 3
  const All: PermissionType := 15      // Read | Create | Delete | Update

  /** The operation flags, one bit each. */
  const Operations: seq<PermissionType> := [Read, Create, Delete, Update]

  /** `Enum.GetValues<PermissionType>()`: the named members, ordered by value. */
  function EnumValues(): (values: seq<PermissionType>)
    ensures |values| > 0 && values[0] == None
    ensures forall i, j :: 0 <= i < j < |values| ==> values[i] < values[j]
    ensures forall i :: 0 <= i < |values| ==> LongBits(values[i]) & LongBits(All) == LongBits(values[i])
  {
    assert LongBits(None) == 0 && LongBits(Read) == 1 && LongBits(Create) == 2;
    assert LongBits(Delete) == 4 && LongBits(Update) == 8 && LongBits(All) == 15;
    [None, Read, Create, Delete, Update, All]
  }

  /** A value with exactly one bit set. */
  predicate IsSingleBit(x: Int64)
  {
    x != 0 && LongBits(x) & (LongBits(x) - 1) == 0
  }

  /** Read, Create, Delete and Update are one bit each, no two share a bit, and All is
      exactly their union. */
  lemma FlagLayout()
    ensures forall i :: 0 <= i < |Operations| ==> IsSingleBit(Operations[i])
    ensures forall i, j :: 0 <= i < j < |Operations| ==> LongBits(Operations[i]) & LongBits(Operations[j]) == 0
    ensures LongBits(All) == LongBits(Read) | LongBits(Create) | LongBits(Delete) | LongBits(Update)
    ensures LongBits(None) == 0
  {
  }

  /** The bit pattern of All. */
  lemma AllPattern()
    ensures LongBits(All) == 15
  {
  }
}
