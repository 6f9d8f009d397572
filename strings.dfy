/** The java.lang.String operations the core relies on, over Dafny strings. */
module Strings {

  /** s.startsWith(p) */
  predicate StartsWith(s: string, p: string) {
    |p| <= |s| && s[..|p|] == p
  }

  /** s.endsWith(p) */
  predicate EndsWith(s: string, p: string) {
    |p| <= |s| && s[|s| - |p|..] == p
  }

  /** p occurs in s starting at index i. */
  predicate OccursAt(s: string, p: string, i: nat) {
    i + |p| <= |s| && s[i..i + |p|] == p
  }

  /** s.contains(p) */
  predicate Contains(s: string, p: string) {
    exists i: nat | i <= |s| :: OccursAt(s, p, i)
  }

  /** s.replace(p, ""): scanning from the left, every occurrence of p that does not
      overlap an earlier one is removed. Replacing the empty string by the empty string
      leaves s unchanged. */
  function RemoveAll(s: string, p: string): (r: string)
    ensures |r| <= |s|
    ensures p == [] ==> r == s
  {
    if p == [] then s else RemoveOccurrences(s, p)
  }

  /** The left-to-right scan behind RemoveAll for a non-empty p. Each step either drops
      one whole occurrence of p or keeps one character. */
  function RemoveOccurrences(s: string, p: string): (r: string)
    requires p != []
    ensures |r| <= |s|
    decreases |s|
  {
    if |s| < |p| then s
    else if s[..|p|] == p then RemoveOccurrences(s[|p|..], p)
    else [s[0]] + RemoveOccurrences(s[1..], p)
  }

  /** A string in which p never occurs comes back from RemoveAll untouched. */
  lemma {:induction false} RemoveAllWithoutOccurrence(s: string, p: string)
    requires p != [] && !Contains(s, p)
    ensures RemoveAll(s, p) == s
  {
    if |s| >= |p| {
      assert !OccursAt(s, p, 0);
      assert !Contains(s[1..], p) by {
        forall i: nat | OccursAt(s[1..], p, i) ensures OccursAt(s, p, i + 1) {
          assert s[1..][i..i + |p|] == s[i + 1..i + 1 + |p|];
        }
      }
      RemoveAllWithoutOccurrence(s[1..], p);
      assert s == [s[0]] + s[1..];
    }
  }

  /** A header that starts with p loses that leading occurrence, and the scan carries on
      over the rest, so later occurrences are removed as well. */
  lemma LeadingOccurrenceRemoved(s: string, p: string)
    requires p != [] && StartsWith(s, p)
    ensures RemoveAll(s, p) == RemoveAll(s[|p|..], p)
  {
  }

  /** Stripping p from p + t yields t exactly when t does not itself contain p. */
  lemma {:induction false} RemoveAllOfPrefixed(p: string, t: string)
    requires p != [] && !Contains(t, p)
    ensures RemoveAll(p + t, p) == t
  {
    assert (p + t)[..|p|] == p;
    assert (p + t)[|p|..] == t;
    RemoveAllWithoutOccurrence(t, p);
  }

  /** Occurrences after the leading one are removed too: "Bearer a" followed by
      "Bearer b" loses both prefixes. */
  lemma InnerOccurrenceRemoved()
    ensures RemoveAll("Bearer aBearer b", "Bearer ") == "ab"
  {
    var p := "Bearer ";
    assert "Bearer aBearer b"[..7] == p;
    assert "Bearer aBearer b"[7..] == "aBearer b";
    assert "aBearer b"[..7][0] != p[0];
    assert "aBearer b"[1..] == "Bearer b";
    assert "Bearer b"[..7] == p;
    assert "Bearer b"[7..] == "b";
    assert RemoveOccurrences("b", p) == "b";
  }

  /** The result of RemoveAll can still contain p: removing "ab" from "aabb" takes out
      the inner occurrence and leaves a fresh one behind. */
  lemma RemovalCanLeaveAnOccurrence()
    ensures RemoveAll("aabb", "ab") == "ab"
  {
    var p := "ab";
    assert "aabb"[..2][1] != p[1];
    assert "aabb"[1..] == "abb";
    assert "abb"[..2] == p;
    assert "abb"[2..] == "b";
    assert RemoveOccurrences("b", p) == "b";
  }

  /** Appending p to a string makes it end with p. */
  lemma EndsWithAppended(s: string, p: string)
    ensures EndsWith(s + p, p)
  {
    assert (s + p)[|s + p| - |p|..] == p;
  }
}
