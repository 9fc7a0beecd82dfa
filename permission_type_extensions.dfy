/** `AppPermissions`: the resource categories and the claim type that carries each
    category's granted permissions. */
module AppPermissions {

  const PlaylistCategory: string := "playlist"
  const MediaCategory: string := "medias"

  const PlaylistPermissionsClaim: string := "permissions." + PlaylistCategory
  const MediaPermissionsClaim: string := "permissions." + MediaCategory

  /** The claim types the permission check accepts. */
  const SupportedClaims: seq<string> := [PlaylistPermissionsClaim, MediaPermissionsClaim]

  /** Neither category holds the policy-name separator. */
  lemma CategoriesHaveNoSeparator()
    ensures '_' !in PlaylistCategory && '_' !in MediaCategory
  {
  }
}

/** `PermissionTypeExtensions`: rendering a permission as claim text, and the bitmask test
    that decides whether a granted permission covers a required one. */
module PermissionTypeExtensions {
  import opened Errors
  import opened Integers
  import opened DecimalText
  import opened PermissionTypes
  import opened AppPermissions

  /** `GetPermissionStringValue`: the decimal text of the value converted to `long`. */
  function GetPermissionStringValue(permission: PermissionType): (s: string)
    ensures ParseInt64(s) == Some(permission as int)
    ensures '_' !in s
  {
    ParseOfToDecimal(permission);
    NoUnderscoreInDecimal(permission);
    ToDecimal(permission)
  }

  /** `Enum.GetValues<PermissionType>()` converted to `long`, as 64-bit patterns. */
  function EnumValuesAsLong(): (bits: seq<bv64>)
    ensures bits == [0, 1, 2, 4, 8, 15]
  {
    var values := EnumValues();
    [LongBits(values[0]), LongBits(values[1]), LongBits(values[2]),
     LongBits(values[3]), LongBits(values[4]), LongBits(values[5])]
  }

  /** The predicate of the `Any` in `IsThisPermissionAllowed`, for one enum value. */
  predicate Grants(enumValue: bv64, required: bv64, current: bv64)
  {
    enumValue != 0 && enumValue & required == enumValue && required & current == required
  }

  /** Some named member of `PermissionType` grants the required value. */
  predicate Allowed(current: Int64, required: Int64)
  {
    AnyGrants(LongBits(current), LongBits(required))
  }

  predicate AnyGrants(current: bv64, required: bv64)
  {
    var values := EnumValuesAsLong();
    exists i :: 0 <= i < |values| && Grants(values[i], required, current)
  }

  /** `IsThisPermissionAllowed`: parses the granted value, then the required value, then
      checks the claim type, throwing at the first that fails; otherwise the bitmask test. */
  function IsThisPermissionAllowed(permission: string, claimType: string, permissionName: string): (r: Result<bool>)
    ensures ParseInt64(permission).None? ==> r == Throw(ArgumentOutOfRange("permission"))
    ensures ParseInt64(permission).Some? && ParseInt64(permissionName).None? ==>
              r == Throw(ArgumentOutOfRange("permissionName"))
    ensures ParseInt64(permission).Some? && ParseInt64(permissionName).Some? && claimType !in SupportedClaims ==>
              r == Throw(ArgumentOutOfRange("claimType"))
    ensures r.Ok? <==> ParseInt64(permission).Some? && ParseInt64(permissionName).Some? && claimType in SupportedClaims
    ensures r.Ok? ==> r.value == Allowed(ParseInt64(permission).value, ParseInt64(permissionName).value)
  {
    match ParseInt64(permission)
    case None => Throw(ArgumentOutOfRange("permission"))
    case Some(currentPermission) =>
      match ParseInt64(permissionName)
      case None => Throw(ArgumentOutOfRange("permissionName"))
      case Some(requiredPermission) =>
        if claimType !in SupportedClaims then Throw(ArgumentOutOfRange("claimType"))
        else
          Ok(Allowed(currentPermission, requiredPermission))
  }

  /** Allowed exactly when the required mask has one of the four operation bits and every
      bit of the required mask is granted. A required value of 0 is never allowed. */
  lemma AllowedIff(current: Int64, required: Int64)
    ensures Allowed(current, required) <==>
              LongBits(required) & LongBits(All) != 0 && LongBits(required) & LongBits(current) == LongBits(required)
  {
    AllPattern();
    AnyGrantsIff(LongBits(current), LongBits(required));
  }

  lemma AnyGrantsIff(c: bv64, r: bv64)
    ensures AnyGrants(c, r) <==> r & 15 != 0 && r & c == r
  {
    var values := EnumValuesAsLong();
    if r & 15 != 0 && r & c == r {
      if r & 1 != 0 { assert Grants(values[1], r, c); }
      else if r & 2 != 0 { assert Grants(values[2], r, c); }
      else if r & 4 != 0 { assert Grants(values[3], r, c); }
      else { assert Grants(values[4], r, c); }
    }
  }

  /** Granting more bits never takes a permission away. */
  lemma AllowedMonotonic(current: Int64, wider: Int64, required: Int64)
    requires LongBits(current) & LongBits(wider) == LongBits(current)
    requires Allowed(current, required)
    ensures Allowed(wider, required)
  {
    AllowedIff(current, required);
    AllowedIff(wider, required);
  }

  /** A requirement of `None` can never be met. */
  lemma NoneNeverAllowed(current: Int64)
    ensures !Allowed(current, PermissionTypes.None)
  {
    AllowedIff(current, PermissionTypes.None);
  }

  /** The unit-test cases: Read|Create grants Read but not Delete, and an unknown claim type
      throws. */
  lemma IsThisPermissionAllowedExamples()
    ensures IsThisPermissionAllowed("3", PlaylistPermissionsClaim, "1") == Ok(true)
    ensures IsThisPermissionAllowed("3", PlaylistPermissionsClaim, "4") == Ok(false)
    ensures IsThisPermissionAllowed("3", "not-supported", "4") == Throw(ArgumentOutOfRange("claimType"))
  {
    assert ParseInt64("3") == Some(3) by { assert DigitsValue("3") == 3 by { assert "3"[..0] == ""; } }
    assert ParseInt64("1") == Some(1) by { assert DigitsValue("1") == 1 by { assert "1"[..0] == ""; } }
    assert ParseInt64("4") == Some(4) by { assert DigitsValue("4") == 4 by { assert "4"[..0] == ""; } }
    AnyGrantsIff(3, 1);
    AnyGrantsIff(3, 4);
  }
}
