/** The string operations of Python's `str` that the core relies on, over `seq<char>`. */
module Text {
  import opened Wrappers

  /** `s.replace(c, "")`: s with every occurrence of the character c removed. */
  function RemoveChar(s: string, c: char): (r: string)
    ensures forall i :: 0 <= i < |r| ==> r[i] != c
    ensures |r| <= |s|
    ensures c !in s ==> r == s
    ensures multiset(r) == multiset(s)[c := 0]
  {
    if s == [] then []
    else
      assert s == [s[0]] + s[1..];
      if s[0] == c then RemoveChar(s[1..], c)
      else [s[0]] + RemoveChar(s[1..], c)
  }

  /** Removing a character distributes over concatenation. */
  lemma {:induction false} RemoveCharAppend(a: string, b: string, c: char)
    ensures RemoveChar(a + b, c) == RemoveChar(a, c) + RemoveChar(b, c)
  {
    if a == [] {
      assert a + b == b;
    } else {
      assert (a + b)[0] == a[0];
      assert (a + b)[1..] == a[1..] + b;
      RemoveCharAppend(a[1..], b, c);
    }
  }

  /** `s.replace(from, to)` for one-character strings: every `from` becomes `to`. */
  function ReplaceChar(s: string, from: char, to: char): (r: string)
    ensures |r| == |s|
    ensures forall i :: 0 <= i < |s| ==> r[i] == (if s[i] == from then to else s[i])
  {
    if s == [] then []
    else [if s[0] == from then to else s[0]] + ReplaceChar(s[1..], from, to)
  }

  /** `str.lower()` restricted to ASCII: A-Z become a-z, every other character is kept. */
  function LowerAscii(s: string): (r: string)
    ensures |r| == |s|
    ensures forall i :: 0 <= i < |s| ==> r[i] == (if 'A' <= s[i] <= 'Z' then s[i] - 'A' + 'a' else s[i])
  {
    if s == [] then []
    else [if 'A' <= s[0] <= 'Z' then s[0] - 'A' + 'a' else s[0]] + LowerAscii(s[1..])
  }

  /** t occurs in s starting at index i. */
  predicate OccursAt(s: string, t: string, i: nat) {
    i + |t| <= |s| && s[i..i + |t|] == t
  }

  /** Python's `t in s` (equivalently, `re.search` for a pattern without metacharacters). */
  predicate Contains(s: string, t: string) {
    exists i: nat :: i <= |s| && OccursAt(s, t, i)
  }

  /** The first index at or after `from` where t occurs in s, scanning left to right. */
  function FindFrom(s: string, t: string, from: nat): (r: Option<nat>)
    requires from <= |s|
    decreases |s| - from
    ensures r.Some? ==> from <= r.value && OccursAt(s, t, r.value)
    ensures r.Some? ==> forall j: nat :: from <= j < r.value ==> !OccursAt(s, t, j)
    ensures r.None? ==> forall j: nat :: from <= j <= |s| ==> !OccursAt(s, t, j)
  {
    if OccursAt(s, t, from) then Some(from)
    else if from == |s| then None
    else FindFrom(s, t, from + 1)
  }

  /** `s.split(sep)[0]`: the text of s before the first occurrence of sep, or all of s.
      Python refuses an empty separator, hence the requires. */
  function BeforeFirst(s: string, sep: string): (r: string)
    requires sep != []
    ensures |r| <= |s| && r == s[..|r|]
    ensures !Contains(r, sep)
    ensures |r| < |s| ==> OccursAt(s, sep, |r|)
    ensures forall j: nat :: j < |r| ==> !OccursAt(s, sep, j)
  {
    match FindFrom(s, sep, 0)
    case None => s
    case Some(i) =>
      var r := s[..i];
      assert !Contains(r, sep) by {
        forall j: nat | j <= |r| ensures !OccursAt(r, sep, j) {
          if j + |sep| <= |r| {
            assert r[j..j + |sep|] == s[j..j + |sep|];
          }
          assert OccursAt(r, sep, j) ==> OccursAt(s, sep, j);
        }
      }
      r
  }

  /** A separator whose first character does not reappear in it cannot overlap itself, so the text
      before the first separator of `a + sep + b` is `a` whenever `a` holds no separator. */
  lemma SplitAtFirstSeparator(a: string, sep: string, b: string)
    requires sep != [] && sep[0] !in sep[1..]
    requires !Contains(a, sep)
    ensures BeforeFirst(a + sep + b, sep) == a
  {
    var s := a + sep + b;
    assert s[|a|..|a| + |sep|] == sep;
    assert OccursAt(s, sep, |a|);
    forall j: nat | j < |a| ensures !OccursAt(s, sep, j) {
      if j + |sep| <= |a| {
        // an occurrence wholly inside a
        assert a[j..j + |sep|] == s[j..j + |sep|];
        assert OccursAt(s, sep, j) ==> OccursAt(a, sep, j);
      } else {
        // an occurrence straddling the end of a would put sep[0] at position k of sep
        var k := |a| - j;
        assert 0 < k < |sep|;
        assert s[|a|] == sep[0];
        assert sep[1..][k - 1] == sep[k];
      }
    }
    var found := FindFrom(s, sep, 0);
    assert found.Some?;
    assert found.value == |a|;
    assert s[..|a|] == a;
  }

  /** For a separator that cannot overlap itself, the text before its first occurrence in s is p
      exactly when p begins s, holds no separator, and is followed by a separator or by nothing. */
  lemma BeforeFirstIs(s: string, sep: string, p: string)
    requires sep != [] && sep[0] !in sep[1..]
    ensures BeforeFirst(s, sep) == p <==>
      (|p| <= |s| && s[..|p|] == p && !Contains(p, sep) && (|p| == |s| || OccursAt(s, sep, |p|)))
  {
    if |p| <= |s| && s[..|p|] == p && !Contains(p, sep) {
      if |p| == |s| {
        assert s == p;
      } else if OccursAt(s, sep, |p|) {
        var rest := s[|p| + |sep|..];
        assert s == p + sep + rest;
        SplitAtFirstSeparator(p, sep, rest);
      }
    }
  }
}
