/** `PermissionHandler.HandleRequirementAsync`: succeeds the requirement when a claim of its
    type grants the required value. The framework's `AuthorizationHandlerContext` is reduced
    to the principal's claims and the set of requirements marked as succeeded. */
module PermissionHandler {
  import opened Errors
  import opened Integers
  import opened DecimalText
  import opened PermissionTypes
  import opened AppPermissions
  import opened PermissionTypeExtensions
  import opened PermissionRequirements

  class AuthorizationHandlerContext {
    /** The claims of `context.User`. */
    const User: seq<Claim>
    /** The requirements on which `Succeed` has been called. */
    var SucceededRequirements: set<PermissionRequirement>

    constructor (user: seq<Claim>)
      ensures User == user && SucceededRequirements == {}
    {
      User := user;
      SucceededRequirements := {};
    }

    /** `context.Succeed(requirement)`. */
    method Succeed(requirement: PermissionRequirement)
      modifies this
      ensures SucceededRequirements == old(SucceededRequirements) + {requirement}
    {
      SucceededRequirements := SucceededRequirements + {requirement};
    }
  }

  /** `Claims.Where(c => c.Type == claimType).ToList()`, keeping only the values. */
  function MatchingValues(claims: seq<Claim>, claimType: string): (values: seq<string>)
    ensures |values| <= |claims|
    ensures forall v :: v in values <==> Claim(claimType, v) in claims
  {
    if claims == [] then []
    else
      var rest := MatchingValues(claims[1..], claimType);
      assert claims == [claims[0]] + claims[1..];
      if claims[0].Type == claimType then [claims[0].Value] + rest else rest
  }

  /** What the loop has done after visiting some claim values: whether it succeeded the
      requirement, and the exception that ended it, if any. */
  datatype Evaluation = Evaluation(succeeded: bool, thrown: Option<Exception>)

  /** The loop of `HandleRequirementAsync` over `values`, in order: each value is tested with
      `IsThisPermissionAllowed`, and the first exception stops it. */
  function Evaluate(values: seq<string>, requirement: PermissionRequirement): Evaluation
    decreases |values|
  {
    if values == [] then Evaluation(false, None)
    else
      Step(Evaluate(values[..|values| - 1], requirement),
           IsThisPermissionAllowed(values[|values| - 1], requirement.ClaimType, requirement.ClaimValue))
  }

  /** One iteration: nothing more happens after an exception; otherwise the value's check
      either throws or may succeed the requirement. */
  function Step(before: Evaluation, check: Result<bool>): Evaluation
  {
    if before.thrown.Some? then before
    else
      match check
      case Throw(e) => Evaluation(before.succeeded, Some(e))
      case Ok(allowed) => Evaluation(before.succeeded || allowed, None)
  }

  /** `HandleRequirementAsync`: the context ends up with the requirement succeeded exactly
      when the loop succeeds it, and the exception, if any, is propagated. */
  method HandleRequirement(context: AuthorizationHandlerContext, requirement: PermissionRequirement)
    returns (thrown: Option<Exception>)
    modifies context
    ensures var e := Evaluate(MatchingValues(context.User, requirement.ClaimType), requirement);
            && thrown == e.thrown
            && context.SucceededRequirements
               == old(context.SucceededRequirements) + (if e.succeeded then {requirement} else {})
  {
    var permissions := MatchingValues(context.User, requirement.ClaimType);
    ghost var initial := context.SucceededRequirements;
    ghost var succeeded := false;
    var i := 0;
    while i < |permissions|
      invariant 0 <= i <= |permissions|
      invariant Evaluate(permissions[..i], requirement) == Evaluation(succeeded, None)
      invariant context.SucceededRequirements == initial + (if succeeded then {requirement} else {})
    {
      var allowed := IsThisPermissionAllowed(permissions[i], requirement.ClaimType, requirement.ClaimValue);
      Advance(permissions, i, requirement, succeeded);
      if allowed.Throw? {
        return Some(allowed.error);
      }
      SucceedIf(context, requirement, allowed.value);
      succeeded := succeeded || allowed.value;
      i := i + 1;
    }
    assert permissions[..i] == permissions;
    return None;
  }

  /** The loop's `if (allowed) context.Succeed(requirement);`. */
  method SucceedIf(context: AuthorizationHandlerContext, requirement: PermissionRequirement, allowed: bool)
    modifies context
    ensures context.SucceededRequirements == old(context.SucceededRequirements) + (if allowed then {requirement} else {})
  {
    if allowed {
      context.Succeed(requirement);
    }
  }

  /** One iteration of the loop, seen from `Evaluate`: an exception at value `i` is the
      outcome of the whole loop, and a returned check extends the prefix's outcome. */
  lemma Advance(values: seq<string>, i: nat, requirement: PermissionRequirement, succeeded: bool)
    requires i < |values|
    requires Evaluate(values[..i], requirement) == Evaluation(succeeded, None)
    ensures var check := IsThisPermissionAllowed(values[i], requirement.ClaimType, requirement.ClaimValue);
            && (check.Throw? ==> Evaluate(values, requirement) == Evaluation(succeeded, Some(check.error)))
            && (check.Ok? ==> Evaluate(values[..i + 1], requirement) == Evaluation(succeeded || check.value, None))
  {
    EvaluateStep(values, i, requirement);
    if Evaluate(values[..i + 1], requirement).thrown.Some? {
      ThrownIsFinal(values, i + 1, requirement);
    }
  }

  /** One more value: the step `Evaluate` takes at the end of a prefix. */
  lemma EvaluateStep(values: seq<string>, i: nat, requirement: PermissionRequirement)
    requires i < |values|
    ensures Evaluate(values[..i + 1], requirement)
            == Step(Evaluate(values[..i], requirement),
                    IsThisPermissionAllowed(values[i], requirement.ClaimType, requirement.ClaimValue))
  {
    assert values[..i + 1][..i] == values[..i];
    assert values[..i + 1][i] == values[i];
  }

  /** The loop throws exactly when some visited value makes `IsThisPermissionAllowed` throw;
      when it does not throw, it succeeds exactly when some value is allowed. */
  lemma EvaluateCharacterization(values: seq<string>, requirement: PermissionRequirement)
    ensures Evaluate(values, requirement).thrown.None? <==>
              forall i :: 0 <= i < |values| ==>
                IsThisPermissionAllowed(values[i], requirement.ClaimType, requirement.ClaimValue).Ok?
    ensures Evaluate(values, requirement).thrown.None? ==>
              (Evaluate(values, requirement).succeeded <==>
                 exists i :: 0 <= i < |values| &&
                   IsThisPermissionAllowed(values[i], requirement.ClaimType, requirement.ClaimValue) == Ok(true))
    ensures Evaluate(values, requirement).succeeded ==>
              exists i :: 0 <= i < |values| &&
                IsThisPermissionAllowed(values[i], requirement.ClaimType, requirement.ClaimValue) == Ok(true)
  {
    EvaluateThrowsIff(values, requirement);
    EvaluateSucceedsIff(values, requirement);
  }

  /** The loop throws exactly when some value makes the check throw. */
  lemma {:induction false} EvaluateThrowsIff(values: seq<string>, requirement: PermissionRequirement)
    ensures Evaluate(values, requirement).thrown.None? <==>
              forall i :: 0 <= i < |values| ==>
                IsThisPermissionAllowed(values[i], requirement.ClaimType, requirement.ClaimValue).Ok?
    decreases |values|
  {
    if values != [] {
      var n := |values| - 1;
      var prefix := values[..n];
      EvaluateThrowsIff(prefix, requirement);
      assert forall i :: 0 <= i < n ==> prefix[i] == values[i];
    }
  }

  /** The loop succeeds only through an allowed value, and, when it does not throw, through
      any allowed value. */
  lemma {:induction false} EvaluateSucceedsIff(values: seq<string>, requirement: PermissionRequirement)
    ensures Evaluate(values, requirement).thrown.None? ==>
              (Evaluate(values, requirement).succeeded <==>
                 exists i :: 0 <= i < |values| &&
                   IsThisPermissionAllowed(values[i], requirement.ClaimType, requirement.ClaimValue) == Ok(true))
    ensures Evaluate(values, requirement).succeeded ==>
              exists i :: 0 <= i < |values| &&
                IsThisPermissionAllowed(values[i], requirement.ClaimType, requirement.ClaimValue) == Ok(true)
  {
    if Evaluate(values, requirement).succeeded {
      SucceededOnlyByAllowed(values, requirement);
    }
    if Evaluate(values, requirement).thrown.None? &&
       exists i :: 0 <= i < |values| &&
         IsThisPermissionAllowed(values[i], requirement.ClaimType, requirement.ClaimValue) == Ok(true)
    {
      var i :| 0 <= i < |values| &&
               IsThisPermissionAllowed(values[i], requirement.ClaimType, requirement.ClaimValue) == Ok(true);
      AllowedSucceeds(values, requirement, i);
    }
  }

  /** A succeeded requirement was succeeded by some allowed value. */
  lemma {:induction false} SucceededOnlyByAllowed(values: seq<string>, requirement: PermissionRequirement)
    requires Evaluate(values, requirement).succeeded
    ensures exists i :: 0 <= i < |values| &&
              IsThisPermissionAllowed(values[i], requirement.ClaimType, requirement.ClaimValue) == Ok(true)
    decreases |values|
  {
    var n := |values| - 1;
    var prefix := values[..n];
    var before := Evaluate(prefix, requirement);
    var check := IsThisPermissionAllowed(values[n], requirement.ClaimType, requirement.ClaimValue);
    assert Evaluate(values, requirement) == Step(before, check);
    if before.succeeded {
      SucceededOnlyByAllowed(prefix, requirement);
      var i :| 0 <= i < n && IsThisPermissionAllowed(prefix[i], requirement.ClaimType, requirement.ClaimValue) == Ok(true);
      assert prefix[i] == values[i];
    } else {
      assert check == Ok(true);
    }
  }

  /** An allowed value succeeds the requirement unless the loop throws. */
  lemma {:induction false} AllowedSucceeds(values: seq<string>, requirement: PermissionRequirement, i: nat)
    requires i < |values|
    requires IsThisPermissionAllowed(values[i], requirement.ClaimType, requirement.ClaimValue) == Ok(true)
    requires Evaluate(values, requirement).thrown.None?
    ensures Evaluate(values, requirement).succeeded
    decreases |values|
  {
    var n := |values| - 1;
    var prefix := values[..n];
    var before := Evaluate(prefix, requirement);
    var check := IsThisPermissionAllowed(values[n], requirement.ClaimType, requirement.ClaimValue);
    assert Evaluate(values, requirement) == Step(before, check);
    if i < n {
      assert prefix[i] == values[i];
      AllowedSucceeds(prefix, requirement, i);
    }
  }

  /** Once the loop has thrown, later values change nothing. */
  lemma {:induction false} ThrownIsFinal(values: seq<string>, k: nat, requirement: PermissionRequirement)
    requires k <= |values|
    requires Evaluate(values[..k], requirement).thrown.Some?
    ensures Evaluate(values, requirement) == Evaluate(values[..k], requirement)
    decreases |values| - k
  {
    if k < |values| {
      assert values[..k + 1][..k] == values[..k];
      assert Evaluate(values[..k + 1], requirement) == Evaluate(values[..k], requirement);
      ThrownIsFinal(values, k + 1, requirement);
    } else {
      assert values[..k] == values;
    }
  }

  /** Filtering distributes over concatenation of claim lists. */
  lemma {:induction false} MatchingValuesAppend(a: seq<Claim>, b: seq<Claim>, claimType: string)
    ensures MatchingValues(a + b, claimType) == MatchingValues(a, claimType) + MatchingValues(b, claimType)
    decreases |a|
  {
    if a != [] {
      MatchingValuesAppend(a[1..], b, claimType);
      assert (a + b)[1..] == a[1..] + b;
      assert (a + b)[0] == a[0];
      assert a + b != [];
    } else {
      assert a + b == b;
    }
  }

  /** A claim of another type, wherever it stands, never affects the handler. */
  lemma OtherClaimTypesIgnored(a: seq<Claim>, c: Claim, b: seq<Claim>, requirement: PermissionRequirement)
    requires c.Type != requirement.ClaimType
    ensures MatchingValues(a + [c] + b, requirement.ClaimType) == MatchingValues(a + b, requirement.ClaimType)
  {
    MatchingValuesAppend(a + [c], b, requirement.ClaimType);
    MatchingValuesAppend(a, [c], requirement.ClaimType);
    MatchingValuesAppend(a, b, requirement.ClaimType);
    assert MatchingValues([c], requirement.ClaimType) == [] by {
      assert [c][1..] == [];
    }
  }

  /** Without a claim of the required type the handler neither succeeds nor throws. */
  lemma NoMatchingClaimNoSuccess(claims: seq<Claim>, requirement: PermissionRequirement)
    requires forall i :: 0 <= i < |claims| ==> claims[i].Type != requirement.ClaimType
    ensures Evaluate(MatchingValues(claims, requirement.ClaimType), requirement) == Evaluation(false, None)
  {
    NoMatchingValues(claims, requirement.ClaimType);
  }

  /** Claims none of which has the type yield no values. */
  lemma {:induction false} NoMatchingValues(claims: seq<Claim>, claimType: string)
    requires forall i :: 0 <= i < |claims| ==> claims[i].Type != claimType
    ensures MatchingValues(claims, claimType) == []
    decreases |claims|
  {
    if claims != [] {
      assert forall i :: 0 <= i < |claims[1..]| ==> claims[1..][i] == claims[i + 1];
      NoMatchingValues(claims[1..], claimType);
      assert claims[0].Type != claimType;
    }
  }

  /** A value that is not a `long`, in a claim of the required type, makes the handler throw;
      so does a required value that is not a `long` once a claim of the type exists. */
  lemma MalformedValueThrows(values: seq<string>, requirement: PermissionRequirement)
    requires |values| > 0
    requires (exists i :: 0 <= i < |values| && ParseInt64(values[i]).None?) || ParseInt64(requirement.ClaimValue).None?
    ensures Evaluate(values, requirement).thrown.Some?
  {
    EvaluateCharacterization(values, requirement);
    if ParseInt64(requirement.ClaimValue).None? {
      assert IsThisPermissionAllowed(values[0], requirement.ClaimType, requirement.ClaimValue).Throw?;
    } else {
      var i :| 0 <= i < |values| && ParseInt64(values[i]).None?;
      assert IsThisPermissionAllowed(values[i], requirement.ClaimType, requirement.ClaimValue).Throw?;
    }
  }

  /** A requirement of `None` ("0") is never succeeded, whatever the claims. */
  lemma NoneRequirementNeverSucceeds(values: seq<string>, claimType: string)
    ensures !Evaluate(values, PermissionRequirement(claimType, "0")).succeeded
  {
    var requirement := PermissionRequirement(claimType, "0");
    EvaluateCharacterization(values, requirement);
    assert ParseInt64("0") == Some(0) by { assert DigitsValue("0") == 0 by { assert "0"[..0] == ""; } }
  }

  /** A principal granted Read|Create on playlists passes a Read requirement and not a Delete
      requirement. */
  lemma HandlerScenario()
    ensures Evaluate(MatchingValues([Claim(PlaylistPermissionsClaim, "3")], PlaylistPermissionsClaim),
                     PermissionRequirement(PlaylistPermissionsClaim, "1")) == Evaluation(true, None)
    ensures Evaluate(MatchingValues([Claim(PlaylistPermissionsClaim, "3")], PlaylistPermissionsClaim),
                     PermissionRequirement(PlaylistPermissionsClaim, "4")) == Evaluation(false, None)
  {
    var claims := [Claim(PlaylistPermissionsClaim, "3")];
    assert MatchingValues(claims, PlaylistPermissionsClaim) == ["3"] by { assert claims[1..] == []; }
    assert ["3"][..0] == [];
    IsThisPermissionAllowedExamples();
  }
}
