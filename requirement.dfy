/** Version-qualifier stripping of requirement strings (`numpy>=1.2` -> `numpy`), as done by
    `re.sub("[!~=<>].*$", "", req)` in package_create.py. */
module Requirement {
  import opened Values

  /** The characters that start a version qualifier. */
  predicate IsQualifier(c: char)
  {
    c == '!' || c == '~' || c == '=' || c == '<' || c == '>'
  }

  predicate HasQualifier(s: string)
  {
    exists k :: 0 <= k < |s| && IsQualifier(s[k])
  }

  /** The pattern `[!~=<>].*$` matches starting at position i. In Python's `re` without
      MULTILINE, `.` matches any character but '\n', and `$` matches at the end of the string
      or just before a newline that ends it; so no '\n' may occur after i except as the
      string's last character. */
  predicate MatchesAt(s: string, i: nat)
  {
    i < |s| && IsQualifier(s[i]) && forall k :: i < k < |s| - 1 ==> s[k] != '\n'
  }

  /** The leftmost position at or after `from` where the pattern matches. */
  function LeftmostMatch(s: string, from: nat): (r: Option<nat>)
    decreases |s| - from
    ensures r.Some? ==> from <= r.value && MatchesAt(s, r.value)
    ensures forall j :: from <= j && (r.None? || j < r.value) ==> !MatchesAt(s, j)
  {
    if from >= |s| then None
    else if MatchesAt(s, from) then Some(from)
    else LeftmostMatch(s, from + 1)
  }

  /** `re.sub("[!~=<>].*$", "", s)`: the leftmost match runs to the end of the string, or to
      just before its final newline, which is kept. */
  function StripVersion(s: string): (r: string)
    ensures |r| <= |s|
    ensures !HasQualifier(s) ==> r == s
    ensures '\n' !in s ==> r <= s
  {
    match LeftmostMatch(s, 0)
    case None => s
    case Some(i) => s[..i] + (if s[|s| - 1] == '\n' then "\n" else "")
  }

  /** Reference definition: the prefix of s before its first version qualifier. */
  function BareName(s: string): (r: string)
    ensures r <= s
    ensures !HasQualifier(r)
    ensures |r| < |s| ==> IsQualifier(s[|r|])
  {
    if s == [] || IsQualifier(s[0]) then [] else [s[0]] + BareName(s[1..])
  }

  /** A string without qualifier characters is returned unchanged, newlines or not. */
  lemma StripWithoutQualifier(s: string)
    requires !HasQualifier(s)
    ensures StripVersion(s) == s
  {
  }

  /** On a newline-free string, stripping keeps exactly the prefix before the first of `!~=<>`. */
  lemma StripIsBareName(s: string)
    requires '\n' !in s
    ensures StripVersion(s) == BareName(s)
  {
    var b := BareName(s);
    if |b| == |s| {
      assert b == s;
      StripWithoutQualifier(s);
    } else {
      var i := |b|;
      assert MatchesAt(s, i);
      var m := LeftmostMatch(s, 0);
      assert m.Some?;
      assert m.value == i;
      assert s[|s| - 1] != '\n' by {
        assert s[|s| - 1] in s;
      }
      assert s[..i] == b;
    }
  }

  /** The stripped name of a newline-free string carries no qualifier. */
  lemma StripLeavesNoQualifier(s: string)
    requires '\n' !in s
    ensures !HasQualifier(StripVersion(s))
    ensures StripVersion(s) <= s
  {
    StripIsBareName(s);
  }

  /** Stripping a newline-free requirement twice is the same as stripping it once. */
  lemma StripIdempotent(s: string)
    requires '\n' !in s
    ensures StripVersion(StripVersion(s)) == StripVersion(s)
  {
    StripLeavesNoQualifier(s);
    StripWithoutQualifier(StripVersion(s));
  }

  /** Stripping cuts at the first qualifier, whatever follows it. */
  lemma StripRangeExample()
    ensures StripVersion("foo>=1.2,<2") == "foo"
  {
    var s := "foo>=1.2,<2";
    assert s[0] == 'f' && s[1] == 'o' && s[2] == 'o' && s[3] == '>';
    assert '\n' !in s;
    assert !MatchesAt(s, 0) && !MatchesAt(s, 1) && !MatchesAt(s, 2) && MatchesAt(s, 3);
    assert LeftmostMatch(s, 0) == Some(3);
  }

  /** Stripping trims no whitespace. */
  lemma StripKeepsSpaceExample()
    ensures StripVersion("foo >=1") == "foo "
  {
    var s := "foo >=1";
    assert s[0] == 'f' && s[1] == 'o' && s[2] == 'o' && s[3] == ' ' && s[4] == '>';
    assert '\n' !in s;
    assert !MatchesAt(s, 0) && !MatchesAt(s, 1) && !MatchesAt(s, 2) && !MatchesAt(s, 3) && MatchesAt(s, 4);
    assert LeftmostMatch(s, 0) == Some(4);
  }

  /** With an inner newline the pattern can only match after it, so stripping is not idempotent:
      "a=\n<" strips to "a=\n", which strips further to "a\n". */
  lemma StripNotIdempotentAcrossNewline()
    ensures StripVersion("a=\n<") == "a=\n"
    ensures StripVersion("a=\n") == "a\n"
  {
    var s := "a=\n<";
    assert |s| == 4 && s[0] == 'a' && s[1] == '=' && s[2] == '\n' && s[3] == '<';
    assert !IsQualifier(s[0]) && !IsQualifier(s[2]);
    assert !MatchesAt(s, 0);
    assert 1 < 2 < |s| - 1 && s[2] == '\n';
    assert !MatchesAt(s, 1);
    assert !MatchesAt(s, 2);
    assert MatchesAt(s, 3);
    assert LeftmostMatch(s, 0) == Some(3);
    var t := "a=\n";
    assert |t| == 3 && t[0] == 'a' && t[1] == '=' && t[2] == '\n';
    assert !MatchesAt(t, 0);
    assert MatchesAt(t, 1);
    assert LeftmostMatch(t, 0) == Some(1);
  }
}
