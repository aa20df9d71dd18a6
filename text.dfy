/** The two string operations of the cleaning step: rewriting the decimal comma
    of a coordinate (`str.replace(',', '.')`) and the substring test `sub in s`
    used to pick column names. */
module Text {

  /** `s` with every occurrence of the character `target` replaced by `replacement`. */
  function ReplaceChar(s: string, target: char, replacement: char): (r: string)
    ensures |r| == |s|
    ensures forall i :: 0 <= i < |s| ==> r[i] == (if s[i] == target then replacement else s[i])
    ensures target != replacement ==> target !in r
  {
    if s == [] then []
    else [if s[0] == target then replacement else s[0]] + ReplaceChar(s[1..], target, replacement)
  }

  /** The comma-to-point rewrite of a decimal-comma number: no comma is left,
      the length is kept, each comma becomes a point and every other character
      stays where it was. */
  function DecimalPoint(s: string): (r: string)
    ensures ',' !in r
    ensures |r| == |s|
    ensures forall i :: 0 <= i < |s| && s[i] == ',' ==> r[i] == '.'
    ensures forall i :: 0 <= i < |s| && s[i] != ',' ==> r[i] == s[i]
  {
    ReplaceChar(s, ',', '.')
  }

  /** Rewriting twice is the same as rewriting once, and a text without a comma
      is left as it is. */
  lemma DecimalPointIdempotent(s: string)
    ensures DecimalPoint(DecimalPoint(s)) == DecimalPoint(s)
    ensures ',' !in s ==> DecimalPoint(s) == s
  {
  }

  /** `sub` occurs in `s` starting at index `i`. */
  ghost predicate OccursAt(s: string, sub: string, i: nat)
  {
    i + |sub| <= |s| && s[i..i + |sub|] == sub
  }

  /** Python's `sub in s`: `sub` is a contiguous part of `s` (the empty text is
      part of every text). */
  function Contains(s: string, sub: string): (b: bool)
    ensures b <==> exists i: nat :: OccursAt(s, sub, i)
  {
    if |sub| > |s| then
      assert forall i: nat :: !OccursAt(s, sub, i);
      false
    else if s[..|sub|] == sub then
      assert OccursAt(s, sub, 0);
      true
    else
      var rest := Contains(s[1..], sub);
      assert forall i: nat :: OccursAt(s[1..], sub, i) <==> OccursAt(s, sub, i + 1) by {
        forall i: nat ensures OccursAt(s[1..], sub, i) <==> OccursAt(s, sub, i + 1) {
          if i + 1 + |sub| <= |s| {
            assert s[1..][i..i + |sub|] == s[i + 1..i + 1 + |sub|];
          }
        }
      }
      assert !OccursAt(s, sub, 0);
      assert (exists i: nat :: OccursAt(s, sub, i)) ==> exists i: nat :: OccursAt(s[1..], sub, i) by {
        if exists i: nat :: OccursAt(s, sub, i) {
          var i: nat :| OccursAt(s, sub, i);
          assert i > 0;
          assert OccursAt(s[1..], sub, i - 1);
        }
      }
      rest
  }
}
