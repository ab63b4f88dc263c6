/** The fragment of Python's `re` the session-id validator uses: bracketed character classes,
    `*` and concatenation, matched against a whole string as `re.fullmatch` does. */
module Regex {

  /** A character class is the list of its ranges: `[a-zA-A0-9]` is [('a','z'), ('A','A'), ('0','9')];
      a literal character x inside the brackets is the range (x, x). */
  datatype Regex =
    | Class(ranges: seq<(char, char)>)
    | Star(body: Regex)
    | Concat(left: Regex, right: Regex)

  predicate InClass(ranges: seq<(char, char)>, c: char) {
    exists i :: 0 <= i < |ranges| && ranges[i].0 <= c <= ranges[i].1
  }

  /** `re.fullmatch(r, s)` succeeds: the whole of s is in the language of r. */
  predicate FullMatch(r: Regex, s: string)
    decreases r, |s|
  {
    match r
    case Class(ranges) => |s| == 1 && InClass(ranges, s[0])
    case Concat(a, b) => exists k :: 0 <= k <= |s| && FullMatch(a, s[..k]) && FullMatch(b, s[k..])
    case Star(a) => s == [] || exists k :: 1 <= k <= |s| && FullMatch(a, s[..k]) && FullMatch(Star(a), s[k..])
  }

  /** `[...]*` matches exactly the strings made only of characters of the class. */
  lemma {:induction false} StarOfClass(ranges: seq<(char, char)>, s: string)
    ensures FullMatch(Star(Class(ranges)), s) <==> forall i :: 0 <= i < |s| ==> InClass(ranges, s[i])
    decreases |s|
  {
    if s != [] {
      StarOfClass(ranges, s[1..]);
      if FullMatch(Star(Class(ranges)), s) {
        var k :| 1 <= k <= |s| && FullMatch(Class(ranges), s[..k]) && FullMatch(Star(Class(ranges)), s[k..]);
        assert k == 1;
        assert s[..k][0] == s[0];
        forall i | 0 <= i < |s| ensures InClass(ranges, s[i]) {
          if i > 0 { assert s[i] == s[1..][i - 1]; }
        }
      }
      if forall i :: 0 <= i < |s| ==> InClass(ranges, s[i]) {
        forall i | 0 <= i < |s[1..]| ensures InClass(ranges, s[1..][i]) {
          assert s[1..][i] == s[i + 1];
        }
        assert s[..1][0] == s[0];
        assert FullMatch(Class(ranges), s[..1]);
      }
    }
  }

  /** The edge-star-edge shape as a character-by-character condition. */
  predicate EdgeStarEdgeShape(e: seq<(char, char)>, m: seq<(char, char)>, s: string) {
    && |s| >= 2 && InClass(e, s[0]) && InClass(e, s[|s| - 1])
    && forall i :: 0 < i < |s| - 1 ==> InClass(m, s[i])
  }

  /** `[E][M]*[E]` matches exactly the strings of at least two characters whose first and last
      characters are in E and whose characters in between are all in M. */
  lemma EdgeStarEdge(e: seq<(char, char)>, m: seq<(char, char)>, s: string)
    ensures FullMatch(Concat(Class(e), Concat(Star(Class(m)), Class(e))), s) <==> EdgeStarEdgeShape(e, m, s)
  {
    if FullMatch(Concat(Class(e), Concat(Star(Class(m)), Class(e))), s) {
      EdgeStarEdgeSound(e, m, s);
    }
    if EdgeStarEdgeShape(e, m, s) {
      EdgeStarEdgeComplete(e, m, s);
    }
  }

  /** Every string the edge-star-edge regex matches has the shape. */
  lemma EdgeStarEdgeSound(e: seq<(char, char)>, m: seq<(char, char)>, s: string)
    requires FullMatch(Concat(Class(e), Concat(Star(Class(m)), Class(e))), s)
    ensures EdgeStarEdgeShape(e, m, s)
  {
    var tail := Concat(Star(Class(m)), Class(e));
    var k :| 0 <= k <= |s| && FullMatch(Class(e), s[..k]) && FullMatch(tail, s[k..]);
    assert k == 1 && s[..k][0] == s[0];
    var rest := s[1..];
    var j :| 0 <= j <= |rest| && FullMatch(Star(Class(m)), rest[..j]) && FullMatch(Class(e), rest[j..]);
    assert j == |rest| - 1;
    assert rest[j..][0] == s[|s| - 1];
    StarOfClass(m, rest[..j]);
    forall i | 0 < i < |s| - 1 ensures InClass(m, s[i]) {
      assert s[i] == rest[..j][i - 1];
    }
  }

  /** Every string of the shape is matched by the edge-star-edge regex. */
  lemma EdgeStarEdgeComplete(e: seq<(char, char)>, m: seq<(char, char)>, s: string)
    requires EdgeStarEdgeShape(e, m, s)
    ensures FullMatch(Concat(Class(e), Concat(Star(Class(m)), Class(e))), s)
  {
    var tail := Concat(Star(Class(m)), Class(e));
    var rest := s[1..];
    var middle := rest[..|rest| - 1];
    forall i | 0 <= i < |middle| ensures InClass(m, middle[i]) {
      assert middle[i] == s[i + 1];
    }
    StarOfClass(m, middle);
    var last := rest[|rest| - 1..];
    assert |rest| == |s| - 1 && |last| == 1;
    assert last[0] == rest[|rest| - 1] == s[|s| - 1];
    assert FullMatch(Class(e), last);
    assert rest[..|rest| - 1] == middle && rest[|rest| - 1..] == last;
    assert FullMatch(Star(Class(m)), rest[..|rest| - 1]) && FullMatch(Class(e), rest[|rest| - 1..]);
    assert FullMatch(tail, rest);
    assert s[..1][0] == s[0];
    assert FullMatch(Class(e), s[..1]) && FullMatch(tail, s[1..]);
  }
}
