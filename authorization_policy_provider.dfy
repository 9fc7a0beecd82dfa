/** `AuthorizationPolicyProvider.GetPolicyAsync`: turns a policy name `"{category}_{value}"`
    into a policy that requires the category's claim and a `PermissionRequirement`. The
    framework's own lookup of statically registered policies is the map `registered`. */
module AuthorizationPolicyProvider {
  import opened Errors
  import opened Text
  import opened DecimalText
  import opened PermissionTypes
  import opened AppPermissions
  import opened PermissionRequirements
  import opened HasPermissionAttributes

  /** An authorization policy: the claim types a principal must carry and the permission
      requirements that must succeed. */
  datatype AuthorizationPolicy = AuthorizationPolicy(requiredClaimTypes: seq<string>, requirements: seq<PermissionRequirement>)

  /** The parameter name the source passes when the name does not split into two parts. */
  const InvalidPolicyNameMessage: string := "The provided policy name is not valid"

  /** The policy built for a claim type and a required value. */
  function PermissionPolicy(claimType: string, claimValue: string): AuthorizationPolicy
  {
    AuthorizationPolicy([claimType], [PermissionRequirement(claimType, claimValue)])
  }

  /** The `switch` on the category: the claim type of a known category. */
  function ClaimTypeFor(category: string): (claimType: Option<string>)
    ensures claimType.Some? <==> category == MediaCategory || category == PlaylistCategory
    ensures claimType.Some? ==> claimType.value == "permissions." + category && claimType.value in SupportedClaims
  {
    if category == MediaCategory then Some(MediaPermissionsClaim)
    else if category == PlaylistCategory then Some(PlaylistPermissionsClaim)
    else None
  }

  /** `name` is `category`, one separator, and a value free of separators. */
  predicate NamesCategory(name: string, category: string)
  {
    && |name| > |category|
    && name[..|category|] == category
    && name[|category|] == '_'
    && '_' !in name[|category| + 1..]
  }

  /** A name the provider accepts: one separator, a known category before it. */
  predicate IsPermissionPolicyName(name: string)
  {
    NamesCategory(name, MediaCategory) || NamesCategory(name, PlaylistCategory)
  }

  /** `GetPolicyAsync`. The split and the category are checked before the registered
      policies are consulted; the value after the separator is passed on unparsed. */
  function GetPolicy(policyName: string, registered: map<string, AuthorizationPolicy>): (r: Result<AuthorizationPolicy>)
    ensures r.Throw? <==> !IsPermissionPolicyName(policyName)
    ensures multiset(policyName)['_'] != 1 ==> r == Throw(ArgumentOutOfRange(InvalidPolicyNameMessage))
    ensures multiset(policyName)['_'] == 1 && r.Throw? ==> r == Throw(ArgumentOutOfRange("policyName"))
    ensures r.Ok? && policyName in registered ==> r.value == registered[policyName]
    ensures NamesCategory(policyName, MediaCategory) && policyName !in registered ==>
              r == Ok(PermissionPolicy(MediaPermissionsClaim, policyName[|MediaCategory| + 1..]))
    ensures NamesCategory(policyName, PlaylistCategory) && policyName !in registered ==>
              r == Ok(PermissionPolicy(PlaylistPermissionsClaim, policyName[|PlaylistCategory| + 1..]))
  {
    SplitNamesCategory(policyName, MediaCategory);
    SplitNamesCategory(policyName, PlaylistCategory);
    var split := Split(policyName, '_');
    if |split| != 2 then
      Throw(ArgumentOutOfRange(InvalidPolicyNameMessage))
    else
      var category := split[0];
      var enumValue := split[1];
      match ClaimTypeFor(category)
      case None => Throw(ArgumentOutOfRange("policyName"))
      case Some(claimType) =>
        if policyName in registered then Ok(registered[policyName])
        else Ok(PermissionPolicy(claimType, enumValue))
  }

  /** Splitting a name gives a category and one more part exactly when the name is that
      category, a separator and a separator-free rest. */
  lemma SplitNamesCategory(name: string, category: string)
    requires '_' !in category
    ensures NamesCategory(name, category) <==> |Split(name, '_')| == 2 && Split(name, '_')[0] == category
    ensures NamesCategory(name, category) ==> Split(name, '_')[1] == name[|category| + 1..]
  {
    if NamesCategory(name, category) {
      SplitOfCategoryName(name, category);
    }
    var parts := Split(name, '_');
    if |parts| == 2 && parts[0] == category {
      CategoryNameOfSplit(name, category);
    }
  }

  /** A category, a separator and a separator-free rest split into exactly those parts. */
  lemma SplitOfCategoryName(name: string, category: string)
    requires '_' !in category
    requires NamesCategory(name, category)
    ensures Split(name, '_') == [category, name[|category| + 1..]]
  {
    var rest := name[|category| + 1..];
    assert name == category + "_" + rest;
    SplitAtOnlySeparator(category, rest, '_');
  }

  /** A name that splits into the category and one more part is the category, a separator
      and that part. */
  lemma CategoryNameOfSplit(name: string, category: string)
    requires '_' !in category
    requires |Split(name, '_')| == 2 && Split(name, '_')[0] == category
    ensures NamesCategory(name, category)
  {
    var parts := Split(name, '_');
    assert Join(parts[1..], '_') == parts[1];
    assert name == category + "_" + parts[1];
    assert name[|category| + 1..] == parts[1];
  }

  /** Compose then resolve: every name an endpoint marker builds is accepted, and unless a
      policy is registered under it, it resolves to the category's claim type and the
      permission's decimal value. */
  lemma ResolveMarkerName(permission: PermissionType, registered: map<string, AuthorizationPolicy>)
    ensures var name := HasMediaPermission(permission);
            && GetPolicy(name, registered).Ok?
            && (name !in registered ==>
                  GetPolicy(name, registered).value == PermissionPolicy(MediaPermissionsClaim, ToDecimal(permission)))
    ensures var name := HasPlaylistPermission(permission);
            && GetPolicy(name, registered).Ok?
            && (name !in registered ==>
                  GetPolicy(name, registered).value == PermissionPolicy(PlaylistPermissionsClaim, ToDecimal(permission)))
  {
    CategoriesHaveNoSeparator();
    var media := HasMediaPermission(permission);
    SplitNamesCategory(media, MediaCategory);
    assert NamesCategory(media, MediaCategory);
    var playlist := HasPlaylistPermission(permission);
    SplitNamesCategory(playlist, PlaylistCategory);
    assert NamesCategory(playlist, PlaylistCategory);
  }

  /** A name without a separator is refused. */
  lemma GetPolicyRejectsNoSeparator(registered: map<string, AuthorizationPolicy>)
    ensures GetPolicy("playlist", registered) == Throw(ArgumentOutOfRange(InvalidPolicyNameMessage))
  {
    assert multiset("playlist")['_'] == 0 by { assert '_' !in "playlist"; }
  }

  /** A name with two separators is refused. */
  lemma GetPolicyRejectsTwoSeparators(registered: map<string, AuthorizationPolicy>)
    ensures GetPolicy("a_b_1", registered) == Throw(ArgumentOutOfRange(InvalidPolicyNameMessage))
  {
    assert multiset("a_b_1")['_'] == 2 by { assert "a_b_1" == "a" + "_" + "b" + "_" + "1"; }
  }

  /** A name with an unknown category is refused, whatever its value. */
  lemma GetPolicyRejectsUnknownCategory(registered: map<string, AuthorizationPolicy>)
    ensures GetPolicy("unknown_1", registered) == Throw(ArgumentOutOfRange("policyName"))
  {
    assert "unknown_1" == "unknown" + "_" + "1";
    RejectsUnknownCategory("unknown", "1", registered);
  }

  /** A name with one separator and an unknown category before it throws naming `policyName`. */
  lemma RejectsUnknownCategory(category: string, value: string, registered: map<string, AuthorizationPolicy>)
    requires '_' !in category && '_' !in value
    requires category != MediaCategory && category != PlaylistCategory
    ensures GetPolicy(category + "_" + value, registered) == Throw(ArgumentOutOfRange("policyName"))
  {
    SplitAtOnlySeparator(category, value, '_');
  }

  /** The value after the separator is not validated: a non-numeric or empty value resolves. */
  lemma GetPolicyKeepsValue(registered: map<string, AuthorizationPolicy>)
    ensures "playlist_abc" !in registered ==>
              GetPolicy("playlist_abc", registered) == Ok(PermissionPolicy(PlaylistPermissionsClaim, "abc"))
    ensures "playlist_" !in registered ==>
              GetPolicy("playlist_", registered) == Ok(PermissionPolicy(PlaylistPermissionsClaim, ""))
  {
    assert NamesCategory("playlist_abc", PlaylistCategory);
    assert NamesCategory("playlist_", PlaylistCategory);
  }
}
