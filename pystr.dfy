/**
 * The few Python string and pathlib operations the scripts rely on, with the
 * semantics CPython gives them: str.endswith, str.replace (left to right,
 * non-overlapping, every occurrence), str.strip() without arguments, and
 * PurePath.stem of a file name.
 */
module PyStr {

  predicate StartsWith(s: string, prefix: string)
  {
    |prefix| <= |s| && s[..|prefix|] == prefix
  }

  /** `s.endswith(suffix)` */
  predicate EndsWith(s: string, suffix: string)
  {
    |suffix| <= |s| && s[|s| - |suffix|..] == suffix
  }

  /** `s.endswith(suffix)` holds exactly when `s` is some string followed by `suffix`. */
  lemma EndsWithMeansSuffix(s: string, suffix: string)
    ensures EndsWith(s, suffix) <==> exists p :: s == p + suffix
  {
    assert forall p :: s == p + suffix ==> s[|p|..] == suffix;
    if EndsWith(s, suffix) {
      assert s == s[..|s| - |suffix|] + suffix;
    }
  }

  predicate OccursAt(s: string, pat: string, i: int)
  {
    0 <= i && i + |pat| <= |s| && s[i..i + |pat|] == pat
  }

  /** Python's `pat in s`. */
  ghost predicate Contains(s: string, pat: string)
  {
    exists i :: OccursAt(s, pat, i)
  }

  /**
   * No proper prefix of `pat` is also a suffix of it, so two occurrences of
   * `pat` can never overlap, and an occurrence cannot start in a string `id`
   * and end inside a copy of `pat` appended to it.
   */
  ghost predicate BorderFree(pat: string)
  {
    forall k :: 0 < k < |pat| ==> pat[..k] != pat[|pat| - k..]
  }

  /**
   * A pattern is border free when every later occurrence of its first
   * character is followed by something other than its second character.
   */
  lemma BorderFreeByFirstTwo(pat: string)
    requires |pat| >= 2
    requires forall i :: 0 < i < |pat| && pat[i] == pat[0] ==> i + 1 < |pat| && pat[i + 1] != pat[1]
    ensures BorderFree(pat)
  {
    forall k | 0 < k < |pat| ensures pat[..k] != pat[|pat| - k..] {
      var i := |pat| - k;
      if pat[i] == pat[0] {
        assert pat[..k][1] != pat[i..][1];
      } else {
        assert pat[..k][0] != pat[i..][0];
      }
    }
  }

  /** `s.replace(pat, repl)`: every non-overlapping occurrence of `pat`, scanning from the left. */
  function Replace(s: string, pat: string, repl: string): (r: string)
    ensures |pat| > 0 && !Contains(s, pat) ==> r == s
    ensures |pat| > 0 && repl == "" ==> |r| <= |s|
    decreases |s|
  {
    if |pat| == 0 then
      // Python inserts `repl` before every character and once at the end
      if s == [] then repl else repl + [s[0]] + Replace(s[1..], pat, repl)
    else if |s| < |pat| then
      s
    else if s[..|pat|] == pat then
      assert OccursAt(s, pat, 0);
      repl + Replace(s[|pat|..], pat, repl)
    else
      ContainsTail(s, pat);
      [s[0]] + Replace(s[1..], pat, repl)
  }

  /** An occurrence in the tail of `s` is an occurrence in `s`. */
  lemma ContainsTail(s: string, pat: string)
    requires s != []
    ensures Contains(s[1..], pat) ==> Contains(s, pat)
  {
    forall i | OccursAt(s[1..], pat, i) ensures OccursAt(s, pat, i + 1) {
      assert s[1..][i..i + |pat|] == s[i + 1..i + 1 + |pat|];
    }
  }

  /** The marker does not start `id + pat` when `id` is non-empty and free of it. */
  lemma MarkerNotAtStart(id: string, pat: string)
    requires |pat| > 0 && BorderFree(pat)
    requires id != [] && !Contains(id, pat)
    ensures (id + pat)[..|pat|] != pat
  {
    var s := id + pat;
    if |id| >= |pat| {
      assert s[..|pat|] == id[..|pat|];
      assert !OccursAt(id, pat, 0);
    } else {
      var k := |pat| - |id|;
      assert s[..|pat|][|id|..] == pat[..k];
      assert pat[..k] != pat[|id|..];
    }
  }

  /** Removing a border-free marker from `id + pat` gives `id` back when `id` does not contain it. */
  lemma {:induction false} RemoveAppendedMarker(id: string, pat: string)
    requires |pat| > 0 && BorderFree(pat)
    requires !Contains(id, pat)
    ensures Replace(id + pat, pat, "") == id
    decreases |id|
  {
    var s := id + pat;
    if |id| == 0 {
      assert s == pat && s[..|pat|] == pat;
      assert s[|pat|..] == [];
    } else {
      MarkerNotAtStart(id, pat);
      var rest := id[1..];
      ContainsTail(id, pat);
      assert s[1..] == rest + pat;
      RemoveAppendedMarker(rest, pat);
      assert [id[0]] + rest == id;
    }
  }

  /** Deleting every occurrence of a pattern that occurs shortens the string by at least its length. */
  lemma {:induction false} ReplaceRemovesOccurrence(s: string, pat: string)
    requires |pat| > 0 && Contains(s, pat)
    ensures |Replace(s, pat, "")| <= |s| - |pat|
    decreases |s|
  {
    var i :| OccursAt(s, pat, i);
    if s[..|pat|] != pat {
      assert i != 0;
      assert s[1..][i - 1..i - 1 + |pat|] == s[i..i + |pat|];
      assert OccursAt(s[1..], pat, i - 1);
      ReplaceRemovesOccurrence(s[1..], pat);
    }
  }

  /**
   * When `id` already contains the pattern, deleting it from `id + pat` removes
   * that occurrence as well as the appended one.
   */
  lemma {:induction false} MarkerInsideIsLost(id: string, pat: string)
    requires |pat| > 0 && Contains(id, pat)
    ensures |Replace(id + pat, pat, "")| <= |id| - |pat|
    decreases |id|
  {
    var s := id + pat;
    var i :| OccursAt(id, pat, i);
    if s[..|pat|] == pat {
      var rest := s[|pat|..];
      assert rest[|id| - |pat|..] == pat;
      assert OccursAt(rest, pat, |id| - |pat|);
      ReplaceRemovesOccurrence(rest, pat);
    } else {
      assert i != 0;
      assert id[1..][i - 1..i - 1 + |pat|] == id[i..i + |pat|];
      assert OccursAt(id[1..], pat, i - 1);
      assert s[1..] == id[1..] + pat;
      MarkerInsideIsLost(id[1..], pat);
    }
  }

  /**
   * Removing a border-free marker from `id + pat` gives `id` back exactly when
   * `id` does not itself contain the marker.
   */
  lemma AppendedMarkerRoundTrip(id: string, pat: string)
    requires |pat| > 0 && BorderFree(pat)
    ensures Replace(id + pat, pat, "") == id <==> !Contains(id, pat)
  {
    if Contains(id, pat) {
      MarkerInsideIsLost(id, pat);
    } else {
      RemoveAppendedMarker(id, pat);
    }
  }

  /** The characters for which Python's str.isspace() holds. */
  predicate IsSpace(c: char)
  {
    c == ' ' || ('\t' <= c <= '\r') || ('\U{1c}' <= c <= '\U{1f}') || c == '\U{85}' || c == '\U{a0}'
    || c == '\U{1680}' || ('\U{2000}' <= c <= '\U{200a}') || c == '\U{2028}' || c == '\U{2029}'
    || c == '\U{202f}' || c == '\U{205f}' || c == '\U{3000}'
  }

  /** Neither end of `s` is whitespace. */
  predicate Trimmed(s: string)
  {
    s == [] || (!IsSpace(s[0]) && !IsSpace(s[|s| - 1]))
  }

  /** The index of the first character of `s` that is not whitespace, or |s|. */
  function StripStart(s: string, a: nat): (i: nat)
    requires a <= |s|
    requires forall k :: 0 <= k < a ==> IsSpace(s[k])
    ensures i <= |s|
    ensures forall k :: 0 <= k < i ==> IsSpace(s[k])
    ensures i == |s| || !IsSpace(s[i])
    decreases |s| - a
  {
    if a < |s| && IsSpace(s[a]) then StripStart(s, a + 1) else a
  }

  /** The end of `s[a..]` once trailing whitespace is dropped. */
  function StripEnd(s: string, a: nat, b: nat): (j: nat)
    requires a <= b <= |s|
    requires forall k :: b <= k < |s| ==> IsSpace(s[k])
    ensures a <= j <= b
    ensures forall k :: j <= k < |s| ==> IsSpace(s[k])
    ensures j == a || !IsSpace(s[j - 1])
    decreases b
  {
    if a < b && IsSpace(s[b - 1]) then StripEnd(s, a, b - 1) else b
  }

  /** `s[a..b]` has only whitespace around it in `s`. */
  ghost predicate SpaceAround(s: string, a: int, b: int)
  {
    && 0 <= a <= b <= |s|
    && (forall i :: 0 <= i < a ==> IsSpace(s[i]))
    && (forall i :: b <= i < |s| ==> IsSpace(s[i]))
  }

  /** `s.strip()`: whitespace removed from both ends, nothing else touched. */
  function Strip(s: string): (r: string)
    ensures Trimmed(r)
    ensures Trimmed(s) ==> r == s
    ensures exists a, b :: SpaceAround(s, a, b) && r == s[a..b]
  {
    var a := StripStart(s, 0);
    var b := StripEnd(s, a, |s|);
    assert SpaceAround(s, a, b);
    assert Trimmed(s) ==> a == 0 && b == |s|;
    assert a < b ==> s[a..b][0] == s[a] && s[a..b][b - a - 1] == s[b - 1];
    s[a..b]
  }

  /** `s.rfind(c)`: the last index holding `c`, or -1. */
  function RFind(s: string, c: char): (i: int)
    ensures -1 <= i < |s|
    ensures 0 <= i ==> s[i] == c
    ensures forall j :: i < j < |s| ==> s[j] != c
  {
    if s == [] then -1
    else if s[|s| - 1] == c then |s| - 1
    else RFind(s[..|s| - 1], c)
  }

  /**
   * `PurePath(name).stem` for a bare file name: the name without its final
   * suffix, where a suffix starts at the last '.' unless that dot is the first
   * or the last character.
   */
  function Stem(name: string): (r: string)
    ensures |r| <= |name| && r == name[..|r|]
    ensures |r| < |name| ==>
      0 < |r| < |name| - 1 && name[|r|] == '.' && forall j :: |r| < j < |name| ==> name[j] != '.'
  {
    var i := RFind(name, '.');
    if 0 < i < |name| - 1 then name[..i] else name
  }

  /** The stem of `base + ext`, where `ext` is a dot followed by dot-free text. */
  lemma StemOfExtension(base: string, ext: string)
    requires |base| > 0 && |ext| >= 2 && ext[0] == '.'
    requires forall j :: 0 < j < |ext| ==> ext[j] != '.'
    ensures Stem(base + ext) == base
  {
    var name := base + ext;
    assert name[|base|] == '.';
    assert forall j :: |base| < j < |name| ==> name[j] == ext[j - |base|];
    assert RFind(name, '.') == |base|;
  }

  /** `p + a + s` determines `a` once `p` and `s` are fixed. */
  lemma AffixCancel(p: string, a: string, b: string, s: string)
    requires p + a + s == p + b + s
    ensures a == b
  {
    var x := p + a + s;
    assert |a| == |b|;
    assert a == x[|p|..|p| + |a|];
    assert b == (p + b + s)[|p|..|p| + |b|];
  }
}
