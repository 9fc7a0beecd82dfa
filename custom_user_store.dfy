/** `CustomUserStore`: the identity store of the application. The `User` fields it reads and
    writes, the claims it issues at sign-in, and its no-op claim operations. Each setter
    assigns one field and then `UpdateAsync`, which stamps a fresh `ConcurrencyStamp` and,
    through the repository, the `UpdatedAt` instant. The stamp (a new GUID in the source) is
    the parameter `newStamp`, the current instant is `now`, the identity the database assigns
    on insert is `newId`, and the write to the database itself is not modelled. */
module CustomUserStore {
  import opened Errors
  import opened Integers
  import opened DecimalText
  import opened Text
  import opened PermissionTypes
  import opened AppPermissions
  import opened PermissionTypeExtensions
  import opened PermissionRequirements

  /** The fields of a `User` that the store and its repository assign or read, as one value.
      `LockoutEnd`, `CreatedAt` and `UpdatedAt` are instants, kept abstract as integers. */
  datatype UserState = UserState(
    Id: Int64,
    UserName: Option<string>,
    NormalizedUserName: Option<string>,
    Email: Option<string>,
    NormalizedEmail: Option<string>,
    EmailConfirmed: bool,
    PasswordHash: Option<string>,
    SecurityStamp: Option<string>,
    ConcurrencyStamp: Option<string>,
    LockoutEnd: Option<int>,
    LockoutEnabled: bool,
    AccessFailedCount: Int32,
    CreatedAt: int,
    UpdatedAt: Option<int>)

  class User {
    var Id: Int64
    var UserName: Option<string>
    var NormalizedUserName: Option<string>
    var Email: Option<string>
    var NormalizedEmail: Option<string>
    var EmailConfirmed: bool
    var PasswordHash: Option<string>
    var SecurityStamp: Option<string>
    var ConcurrencyStamp: Option<string>
    var LockoutEnd: Option<int>
    var LockoutEnabled: bool
    var AccessFailedCount: Int32
    var CreatedAt: int
    var UpdatedAt: Option<int>

    function State(): UserState
      reads this
    {
      UserState(Id, UserName, NormalizedUserName, Email, NormalizedEmail, EmailConfirmed,
                PasswordHash, SecurityStamp, ConcurrencyStamp, LockoutEnd, LockoutEnabled, AccessFailedCount,
                CreatedAt, UpdatedAt)
    }
  }

  datatype IdentityResult = Success

  /** `UpdateAsync`: a new concurrency stamp, then the repository's `Update`, which records
      the instant of the update; nothing else changes. */
  method Update(user: User, newStamp: string, now: int) returns (result: IdentityResult)
    modifies user
    ensures user.State() == old(user.State()).(ConcurrencyStamp := Some(newStamp), UpdatedAt := Some(now))
    ensures result == Success
  {
    user.ConcurrencyStamp := Some(newStamp);
    user.UpdatedAt := Some(now);
    result := Success;
  }

  /** `CreateAsync`: the repository's `Create` records the creation instant and stores the
      identity the database assigns; the store reports success. */
  method Create(user: User, newId: Int64, now: int) returns (result: IdentityResult)
    modifies user
    ensures user.State() == old(user.State()).(CreatedAt := now, Id := newId)
    ensures ParseInt64(GetUserId(user)) == Some(newId)
    ensures result == Success
  {
    user.CreatedAt := now;
    user.Id := newId;
    result := Success;
  }

  /** `DeleteAsync`: not implemented. */
  function Delete(user: User): (r: Result<IdentityResult>)
    ensures r.Throw? && r.error == NotImplemented
  {
    Throw(NotImplemented)
  }

  /** `GetUserIdAsync`: the id as decimal text, which parses back to the id. */
  function GetUserId(user: User): (id: string)
    reads user
    ensures ParseInt64(id) == Some(user.Id)
  {
    ParseOfToDecimal(user.Id);
    ToDecimal(user.Id)
  }

  /** The getters: each returns the field as the user's state records it, so that a setter's
      new state is what the matching getter reports. */
  function GetUserName(user: User): (r: Option<string>)
    reads user
    ensures r == user.State().UserName
  {
    user.UserName
  }

  function GetNormalizedUserName(user: User): (r: Option<string>)
    reads user
    ensures r == user.State().NormalizedUserName
  {
    user.NormalizedUserName
  }

  function GetPasswordHash(user: User): (r: Option<string>)
    reads user
    ensures r == user.State().PasswordHash
  {
    user.PasswordHash
  }

  function GetSecurityStamp(user: User): (r: Option<string>)
    reads user
    ensures r == user.State().SecurityStamp
  {
    user.SecurityStamp
  }

  function GetLockoutEndDate(user: User): (r: Option<int>)
    reads user
    ensures r == user.State().LockoutEnd
  {
    user.LockoutEnd
  }

  function GetAccessFailedCount(user: User): (r: Int32)
    reads user
    ensures r == user.State().AccessFailedCount
  {
    user.AccessFailedCount
  }

  function GetLockoutEnabled(user: User): (r: bool)
    reads user
    ensures r == user.State().LockoutEnabled
  {
    user.LockoutEnabled
  }

  function GetEmail(user: User): (r: Option<string>)
    reads user
    ensures r == user.State().Email
  {
    user.Email
  }

  function GetEmailConfirmed(user: User): (r: bool)
    reads user
    ensures r == user.State().EmailConfirmed
  {
    user.EmailConfirmed
  }

  function GetNormalizedEmail(user: User): (r: Option<string>)
    reads user
    ensures r == user.State().NormalizedEmail
  {
    user.NormalizedEmail
  }

  /** `HasPasswordAsync`: a hash is present and holds a character that is not white space. */
  function HasPassword(user: User): (has: bool)
    reads user
    ensures has <==> user.PasswordHash.Some? && exists i :: 0 <= i < |user.PasswordHash.value| && !IsWhiteSpace(user.PasswordHash.value[i])
  {
    !IsNullOrWhiteSpace(user.PasswordHash)
  }

  method SetUserName(user: User, userName: Option<string>, newStamp: string, now: int)
    modifies user
    ensures user.State() == old(user.State()).(UserName := userName, ConcurrencyStamp := Some(newStamp), UpdatedAt := Some(now))
    ensures GetUserName(user) == userName
  {
    user.UserName := userName;
    var result := Update(user, newStamp, now);
  }

  method SetNormalizedUserName(user: User, normalizedName: Option<string>, newStamp: string, now: int)
    modifies user
    ensures user.State() == old(user.State()).(NormalizedUserName := normalizedName, ConcurrencyStamp := Some(newStamp), UpdatedAt := Some(now))
    ensures GetNormalizedUserName(user) == normalizedName
  {
    user.NormalizedUserName := normalizedName;
    var result := Update(user, newStamp, now);
  }

  method SetPasswordHash(user: User, passwordHash: Option<string>, newStamp: string, now: int)
    modifies user
    ensures user.State() == old(user.State()).(PasswordHash := passwordHash, ConcurrencyStamp := Some(newStamp), UpdatedAt := Some(now))
    ensures GetPasswordHash(user) == passwordHash
  {
    user.PasswordHash := passwordHash;
    var result := Update(user, newStamp, now);
  }

  method SetSecurityStamp(user: User, stamp: string, newStamp: string, now: int)
    modifies user
    ensures user.State() == old(user.State()).(SecurityStamp := Some(stamp), ConcurrencyStamp := Some(newStamp), UpdatedAt := Some(now))
    ensures GetSecurityStamp(user) == Some(stamp)
  {
    user.SecurityStamp := Some(stamp);
    var result := Update(user, newStamp, now);
  }

  method SetLockoutEndDate(user: User, lockoutEnd: Option<int>, newStamp: string, now: int)
    modifies user
    ensures user.State() == old(user.State()).(LockoutEnd := lockoutEnd, ConcurrencyStamp := Some(newStamp), UpdatedAt := Some(now))
    ensures GetLockoutEndDate(user) == lockoutEnd
  {
    user.LockoutEnd := lockoutEnd;
    var result := Update(user, newStamp, now);
  }

  /** `IncrementAccessFailedCountAsync`: one more failed access, with `int` wrap-around, and
      the new count returned. */
  method IncrementAccessFailedCount(user: User, newStamp: string, now: int) returns (count: Int32)
    modifies user
    ensures user.State() == old(user.State()).(AccessFailedCount := WrapInt32(old(user.AccessFailedCount) + 1),
                                               ConcurrencyStamp := Some(newStamp), UpdatedAt := Some(now))
    ensures count == GetAccessFailedCount(user)
    ensures old(user.AccessFailedCount) < TWO_31 - 1 ==> count == old(user.AccessFailedCount) + 1
  {
    user.AccessFailedCount := WrapInt32(user.AccessFailedCount + 1);
    var result := Update(user, newStamp, now);
    count := user.AccessFailedCount;
  }

  /** `ResetAccessFailedCountAsync`: no failed accesses and no lockout end. */
  method ResetAccessFailedCount(user: User, newStamp: string, now: int)
    modifies user
    ensures user.State() == old(user.State()).(AccessFailedCount := 0, LockoutEnd := None, ConcurrencyStamp := Some(newStamp), UpdatedAt := Some(now))
  {
    user.AccessFailedCount := 0;
    user.LockoutEnd := None;
    var result := Update(user, newStamp, now);
  }

  /** `SetLockoutEnabledAsync`: turns lockout on, whatever `enabled` says. */
  method SetLockoutEnabled(user: User, enabled: bool, newStamp: string, now: int)
    modifies user
    ensures user.State() == old(user.State()).(LockoutEnabled := true, ConcurrencyStamp := Some(newStamp), UpdatedAt := Some(now))
    ensures GetLockoutEnabled(user)
  {
    user.LockoutEnabled := true;
    var result := Update(user, newStamp, now);
  }

  method SetEmail(user: User, email: Option<string>, newStamp: string, now: int)
    modifies user
    ensures user.State() == old(user.State()).(Email := email, ConcurrencyStamp := Some(newStamp), UpdatedAt := Some(now))
    ensures GetEmail(user) == email
  {
    user.Email := email;
    var result := Update(user, newStamp, now);
  }

  method SetEmailConfirmed(user: User, confirmed: bool, newStamp: string, now: int)
    modifies user
    ensures user.State() == old(user.State()).(EmailConfirmed := confirmed, ConcurrencyStamp := Some(newStamp), UpdatedAt := Some(now))
    ensures GetEmailConfirmed(user) == confirmed
  {
    user.EmailConfirmed := confirmed;
    var result := Update(user, newStamp, now);
  }

  method SetNormalizedEmail(user: User, normalizedEmail: Option<string>, newStamp: string, now: int)
    modifies user
    ensures user.State() == old(user.State()).(NormalizedEmail := normalizedEmail, ConcurrencyStamp := Some(newStamp), UpdatedAt := Some(now))
    ensures GetNormalizedEmail(user) == normalizedEmail
  {
    user.NormalizedEmail := normalizedEmail;
    var result := Update(user, newStamp, now);
  }

  /** `GetClaimsAsync`: the same two claims for every user, each granting `All` on its
      category. */
  function GetClaims(user: User): (claims: seq<Claim>)
    ensures claims == [Claim("permissions.playlist", "15"), Claim("permissions.medias", "15")]
  {
    assert GetPermissionStringValue(All) == "15" by {
      assert DigitChar(1) == '1' && DigitChar(5) == '5';
      assert NatToDecimal(15) == NatToDecimal(1) + [DigitChar(5)] == "15";
    }
    assert PlaylistPermissionsClaim == "permissions.playlist";
    assert MediaPermissionsClaim == "permissions.medias";
    [Claim(PlaylistPermissionsClaim, GetPermissionStringValue(All)),
     Claim(MediaPermissionsClaim, GetPermissionStringValue(All))]
  }

  /** `AddClaimsAsync`: does nothing. */
  method AddClaims(user: User, claims: seq<Claim>)
    ensures user.State() == old(user.State())
  {
  }

  /** `ReplaceClaimAsync`: does nothing. */
  method ReplaceClaim(user: User, claim: Claim, newClaim: Claim)
    ensures user.State() == old(user.State())
  {
  }

  /** `RemoveClaimsAsync`: does nothing. */
  method RemoveClaims(user: User, claims: seq<Claim>)
    ensures user.State() == old(user.State())
  {
  }

  /** `GetUsersForClaimAsync`: no user, whatever the claim. */
  function GetUsersForClaim(claim: Claim): (users: seq<User>)
    ensures |users| == 0
  {
    []
  }
}
