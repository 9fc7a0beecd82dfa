/** The playlist and media endpoints of `PlaylistsController`, marked with `HasPlaylistPermission`
    and `HasMediaPermission`, checked end to end against the claims `CustomUserStore` issues:
    marker → policy name → `GetPolicy` → `RequireClaim` and `PermissionHandler`. */
module Endpoints {
  import opened Errors
  import opened Integers
  import opened DecimalText
  import opened PermissionTypes
  import opened AppPermissions
  import opened PermissionTypeExtensions
  import opened PermissionRequirements
  import opened HasPermissionAttributes
  import opened AuthorizationPolicyProvider
  import opened PermissionHandler
  import CustomUserStore

  /** An endpoint marker: the category attribute and the permission it names. */
  datatype Endpoint = PlaylistEndpoint(permission: PermissionType) | MediaEndpoint(permission: PermissionType)

  /** The policy name the marker composes. */
  function Marker(e: Endpoint): string
  {
    match e
    case PlaylistEndpoint(p) => HasPlaylistPermission(p)
    case MediaEndpoint(p) => HasMediaPermission(p)
  }

  /** The markers in `PlaylistsController` and `PlaylistsController.Medias`, in declaration order. */
  function DeclaredEndpoints(): (endpoints: seq<Endpoint>)
    ensures forall e :: e in endpoints ==> e.permission in Operations && 1 <= e.permission <= 15
  {
    [PlaylistEndpoint(Read), PlaylistEndpoint(Create), PlaylistEndpoint(Update), PlaylistEndpoint(Delete),
     MediaEndpoint(Read), MediaEndpoint(Create), MediaEndpoint(Delete), MediaEndpoint(Read)]
  }

  /** The framework's verdict on a policy for a principal carrying `claims`: every required
      claim type is carried, and the handler succeeds every permission requirement without
      an exception. */
  predicate Authorizes(claims: seq<Claim>, policy: AuthorizationPolicy)
  {
    && (forall t :: t in policy.requiredClaimTypes ==> exists c :: c in claims && c.Type == t)
    && (forall q :: q in policy.requirements ==> Evaluate(MatchingValues(claims, q.ClaimType), q) == Evaluation(true, None))
  }

  /** Every value 1 through 15 lies inside `All` and has a bit set. */
  lemma WithinAll(p: Int64)
    requires 1 <= p <= 15
    ensures LongBits(p) & LongBits(All) == LongBits(p) != 0
  {
    AllPattern();
    var bits := LongBits(p);
    assert 0 < bits < 16;
  }

  /** A single claim value granting `All` makes the handler succeed any requirement 1..15
      on a supported claim type. */
  lemma FullGrantSucceeds(claimType: string, p: PermissionType)
    requires claimType in SupportedClaims
    requires 1 <= p <= 15
    ensures Evaluate(["15"], PermissionRequirement(claimType, ToDecimal(p))) == Evaluation(true, None)
  {
    assert ToDecimal(All) == "15" by {
      assert DigitChar(1) == '1' && DigitChar(5) == '5';
      assert NatToDecimal(15) == NatToDecimal(1) + [DigitChar(5)];
    }
    ParseOfToDecimal(All);
    ParseOfToDecimal(p);
    AllowedIff(All, p);
    WithinAll(p);
    assert ["15"][..0] == [];
  }

  /** The issued claims carry exactly one value, `"15"`, for each supported claim type. */
  lemma IssuedValues(user: CustomUserStore.User, claimType: string)
    requires claimType in SupportedClaims
    ensures MatchingValues(CustomUserStore.GetClaims(user), claimType) == ["15"]
  {
    var claims := CustomUserStore.GetClaims(user);
    assert claims[1..][1..] == [];
  }

  /** The issued claims satisfy the policy built for a supported claim type and a value 1..15. */
  lemma IssuedClaimsSatisfy(user: CustomUserStore.User, claimType: string, p: PermissionType)
    requires claimType in SupportedClaims
    requires 1 <= p <= 15
    ensures Authorizes(CustomUserStore.GetClaims(user), PermissionPolicy(claimType, ToDecimal(p)))
  {
    var claims := CustomUserStore.GetClaims(user);
    IssuedValues(user, claimType);
    FullGrantSucceeds(claimType, p);
    assert Claim(claimType, "15") in claims;
  }

  /** Claims of types no permission policy asks for, placed before a principal's claims, do
      not change whether a permission policy admits it. */
  lemma OtherClaimsKeepAuthorization(other: seq<Claim>, claims: seq<Claim>, claimType: string, value: string)
    requires forall i :: 0 <= i < |other| ==> other[i].Type !in SupportedClaims
    requires claimType in SupportedClaims
    requires Authorizes(claims, PermissionPolicy(claimType, value))
    ensures Authorizes(other + claims, PermissionPolicy(claimType, value))
  {
    MatchingValuesAppend(other, claims, claimType);
    NoMatchingValues(other, claimType);
    assert MatchingValues(other + claims, claimType) == MatchingValues(claims, claimType);
    assert claimType in PermissionPolicy(claimType, value).requiredClaimTypes;
    var c :| c in claims && c.Type == claimType;
    assert c in other + claims;
  }

  /** The claims issued at sign-in pass every marker naming a permission 1..15 whose name
      is not registered as a static policy, whatever claims of other types the principal
      also carries. */
  lemma IssuedClaimsAuthorize(user: CustomUserStore.User, other: seq<Claim>, e: Endpoint, registered: map<string, AuthorizationPolicy>)
    requires forall i :: 0 <= i < |other| ==> other[i].Type !in SupportedClaims
    requires 1 <= e.permission <= 15
    requires Marker(e) !in registered
    ensures GetPolicy(Marker(e), registered).Ok?
    ensures Authorizes(other + CustomUserStore.GetClaims(user), GetPolicy(Marker(e), registered).value)
  {
    ResolveMarkerName(e.permission, registered);
    var claims := CustomUserStore.GetClaims(user);
    match e
    case PlaylistEndpoint(p) =>
      IssuedClaimsSatisfy(user, PlaylistPermissionsClaim, p);
      OtherClaimsKeepAuthorization(other, claims, PlaylistPermissionsClaim, ToDecimal(p));
    case MediaEndpoint(p) =>
      IssuedClaimsSatisfy(user, MediaPermissionsClaim, p);
      OtherClaimsKeepAuthorization(other, claims, MediaPermissionsClaim, ToDecimal(p));
  }

  /** Every declared endpoint is open to a signed-in user, unless a static policy of the
      same name overrides it. The principal carries the issued claims after any claims of
      other types (the name, the email and the other claims of the identity factory). */
  lemma DeclaredEndpointsAuthorize(user: CustomUserStore.User, other: seq<Claim>, registered: map<string, AuthorizationPolicy>)
    requires forall i :: 0 <= i < |other| ==> other[i].Type !in SupportedClaims
    ensures forall e :: e in DeclaredEndpoints() && Marker(e) !in registered ==>
              GetPolicy(Marker(e), registered).Ok?
              && Authorizes(other + CustomUserStore.GetClaims(user), GetPolicy(Marker(e), registered).value)
  {
    forall e | e in DeclaredEndpoints() && Marker(e) !in registered
      ensures GetPolicy(Marker(e), registered).Ok?
              && Authorizes(other + CustomUserStore.GetClaims(user), GetPolicy(Marker(e), registered).value)
    {
      IssuedClaimsAuthorize(user, other, e, registered);
    }
  }

  /** A marker naming `None` admits nobody, whatever claims they carry. */
  lemma NoneMarkerAuthorizesNobody(e: Endpoint, claims: seq<Claim>, registered: map<string, AuthorizationPolicy>)
    requires e.permission == PermissionTypes.None
    requires Marker(e) !in registered
    ensures GetPolicy(Marker(e), registered).Ok?
    ensures !Authorizes(claims, GetPolicy(Marker(e), registered).value)
  {
    ResolveMarkerName(e.permission, registered);
    assert ToDecimal(PermissionTypes.None) == "0" by {
      assert DigitChar(0) == '0';
    }
    var policy := GetPolicy(Marker(e), registered).value;
    var q := policy.requirements[0];
    NoneRequirementNeverSucceeds(MatchingValues(claims, q.ClaimType), q.ClaimType);
    assert q in policy.requirements;
  }
}
