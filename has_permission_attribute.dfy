/** `HasMediaPermissionAttribute` and `HasPlaylistPermissionAttribute`: the endpoint markers.
    Each composes the policy name of its category through `BaseHasPermissionAttribute`. */
module HasPermissionAttributes {
  import opened Errors
  import opened Text
  import opened DecimalText
  import opened PermissionTypes
  import opened AppPermissions

  /** `BaseHasPermissionAttribute`: the policy name `"{category}_{permission}"`; when neither
      part holds the separator, splitting the name gives the two parts back. */
  function BaseHasPermissionPolicy(category: string, permission: string): (policy: string)
    ensures |policy| == |category| + 1 + |permission|
    ensures '_' !in category && '_' !in permission ==> Split(policy, '_') == [category, permission]
  {
    if '_' !in category && '_' !in permission then
      SplitAtOnlySeparator(category, permission, '_');
      category + "_" + permission
    else
      category + "_" + permission
  }

  /** `HasMediaPermission(permission)`: `"medias_"` and the decimal value of the permission,
      which parses back to the permission. */
  function HasMediaPermission(permission: PermissionType): (policy: string)
    ensures Split(policy, '_') == [MediaCategory, ToDecimal(permission)]
    ensures ParseInt64(Split(policy, '_')[1]) == Some(permission as int)
  {
    var value := ToDecimal(permission);
    NoUnderscoreInDecimal(permission);
    ParseOfToDecimal(permission);
    CategoriesHaveNoSeparator();
    BaseHasPermissionPolicy(MediaCategory, value)
  }

  /** `HasPlaylistPermission(permission)`: `"playlist_"` and the decimal value of the
      permission, which parses back to the permission. */
  function HasPlaylistPermission(permission: PermissionType): (policy: string)
    ensures Split(policy, '_') == [PlaylistCategory, ToDecimal(permission)]
    ensures ParseInt64(Split(policy, '_')[1]) == Some(permission as int)
  {
    var value := ToDecimal(permission);
    NoUnderscoreInDecimal(permission);
    ParseOfToDecimal(permission);
    CategoriesHaveNoSeparator();
    BaseHasPermissionPolicy(PlaylistCategory, value)
  }

  /** The attribute examples: Read on media and Update on playlists. */
  lemma AttributeExamples()
    ensures HasMediaPermission(Read) == "medias_1"
    ensures HasPlaylistPermission(Update) == "playlist_8"
  {
    assert ToDecimal(Read) == "1" by { assert DigitChar(1) == '1'; }
    assert BaseHasPermissionPolicy(MediaCategory, "1") == "medias_1";
    assert ToDecimal(Update) == "8" by { assert DigitChar(8) == '8'; }
    assert BaseHasPermissionPolicy(PlaylistCategory, "8") == "playlist_8";
  }
}
