/** The .NET string operations the core relies on: `Split` on one separator, `Trim`,
    and `char.IsWhiteSpace`. */
module Text {
  import opened Errors

  /** `string.Split(sep)`: the pieces between the separators, empty pieces included. */
  function Split(s: string, sep: char): (parts: seq<string>)
    ensures |parts| == multiset(s)[sep] + 1
    ensures forall i :: 0 <= i < |parts| ==> sep !in parts[i]
    ensures Join(parts, sep) == s
    decreases |s|
  {
    if s == [] then [""]
    else
      var rest := Split(s[1..], sep);
      assert s == [s[0]] + s[1..];
      if s[0] == sep then
        JoinAfterEmpty(rest, sep);
        PiecesAfterEmpty(rest, sep);
        [""] + rest
      else
        JoinExtendFirst(s[0], rest, sep);
        PiecesExtendFirst(s[0], rest, sep);
        [[s[0]] + rest[0]] + rest[1..]
  }

  lemma PiecesAfterEmpty(rest: seq<string>, sep: char)
    requires forall i :: 0 <= i < |rest| ==> sep !in rest[i]
    ensures forall i :: 0 <= i < |[""] + rest| ==> sep !in ([""] + rest)[i]
  {
    var parts := [""] + rest;
    forall i | 0 <= i < |parts|
      ensures sep !in parts[i]
    {
      if i > 0 {
        assert parts[i] == rest[i - 1];
      }
    }
  }

  lemma PiecesExtendFirst(c: char, rest: seq<string>, sep: char)
    requires |rest| > 0 && c != sep
    requires forall i :: 0 <= i < |rest| ==> sep !in rest[i]
    ensures forall i :: 0 <= i < |[[c] + rest[0]] + rest[1..]| ==> sep !in ([[c] + rest[0]] + rest[1..])[i]
  {
    var parts := [[c] + rest[0]] + rest[1..];
    forall i | 0 <= i < |parts|
      ensures sep !in parts[i]
    {
      if i > 0 {
        assert parts[i] == rest[i];
      } else {
        assert sep !in rest[0];
      }
    }
  }

  lemma JoinAfterEmpty(rest: seq<string>, sep: char)
    requires |rest| > 0
    ensures Join([""] + rest, sep) == [sep] + Join(rest, sep)
  {
    assert ([""] + rest)[1..] == rest;
  }

  lemma JoinExtendFirst(c: char, rest: seq<string>, sep: char)
    requires |rest| > 0
    ensures Join([[c] + rest[0]] + rest[1..], sep) == [c] + Join(rest, sep)
  {
    var parts := [[c] + rest[0]] + rest[1..];
    if |rest| > 1 {
      assert parts[1..] == rest[1..];
    }
  }

  /** The pieces glued back together with the separator between them. */
  function Join(parts: seq<string>, sep: char): string
    requires |parts| > 0
  {
    if |parts| == 1 then parts[0] else parts[0] + [sep] + Join(parts[1..], sep)
  }

  /** A string with exactly one separator splits into the text before it and the text after it. */
  lemma SplitAtOnlySeparator(a: string, b: string, sep: char)
    requires sep !in a && sep !in b
    ensures Split(a + [sep] + b, sep) == [a, b]
  {
    var s := a + [sep] + b;
    assert multiset(s) == multiset(a) + multiset([sep]) + multiset(b);
    assert multiset(s)[sep] == 1;
    var parts := Split(s, sep);
    assert Join(parts[1..], sep) == parts[1];
    assert s == parts[0] + [sep] + parts[1];
    assert parts[0] == s[..|a|] == a;
    assert parts[1] == s[|a| + 1..] == b;
  }

  /** `char.IsWhiteSpace`: the Unicode space, line and paragraph separators, the controls
      U+0009 to U+000D, and U+0085. */
  predicate IsWhiteSpace(c: char)
  {
    || '\t' <= c <= '\r'
    || c == ' ' || c == '\U{0085}' || c == '\U{00A0}' || c == '\U{1680}'
    || '\U{2000}' <= c <= '\U{200A}'
    || c == '\U{2028}' || c == '\U{2029}' || c == '\U{202F}' || c == '\U{205F}' || c == '\U{3000}'
  }

  predicate AllWhiteSpace(s: string)
  {
    forall i :: 0 <= i < |s| ==> IsWhiteSpace(s[i])
  }

  /** `string.IsNullOrWhiteSpace`. */
  predicate IsNullOrWhiteSpace(s: Option<string>)
  {
    s.None? || AllWhiteSpace(s.value)
  }

  /** `TrimStart()`: drops the leading white space and nothing else. */
  function TrimStart(s: string): (r: string)
    ensures |r| <= |s| && r == s[|s| - |r|..]
    ensures AllWhiteSpace(s[..|s| - |r|])
    ensures r != [] ==> !IsWhiteSpace(r[0])
  {
    if s != [] && IsWhiteSpace(s[0]) then
      var r := TrimStart(s[1..]);
      assert s[..|s| - |r|] == [s[0]] + s[1..][..|s| - 1 - |r|];
      r
    else s
  }

  /** `TrimEnd()`: drops the trailing white space and nothing else. */
  function TrimEnd(s: string): (r: string)
    ensures |r| <= |s| && r == s[..|r|]
    ensures AllWhiteSpace(s[|r|..])
    ensures r != [] ==> !IsWhiteSpace(r[|r| - 1])
  {
    if s != [] && IsWhiteSpace(s[|s| - 1]) then
      var r := TrimEnd(s[..|s| - 1]);
      assert s[|r|..] == s[..|s| - 1][|r|..] + [s[|s| - 1]];
      r
    else s
  }

  /** `Trim()`: drops the white space at both ends. */
  function Trim(s: string): (r: string)
    ensures r == [] <==> AllWhiteSpace(s)
  {
    var t := TrimStart(s);
    var r := TrimEnd(t);
    assert s == s[..|s| - |t|] + t;
    assert r == [] ==> t == t[|r|..];
    r
  }
}
