/** String helpers: Python's `sub in s` and the case-insensitive match that
    pandas' `str.contains(pattern, case=False)` performs on a literal pattern. */
module Text {

  /** ASCII case folding of one character. */
  function LowerChar(c: char): char {
    if 'A' <= c <= 'Z' then (c as int + 32) as char else c
  }

  function Lower(s: string): string {
    seq(|s|, i requires 0 <= i < |s| => LowerChar(s[i]))
  }

  /** `sub` appears in `s` starting at position `i`. */
  ghost predicate OccursAt(s: string, sub: string, i: int) {
    0 <= i && i + |sub| <= |s| && s[i..i + |sub|] == sub
  }

  lemma OccursShift(s: string, sub: string, i: int)
    requires |s| > 0 && 0 <= i
    ensures OccursAt(s[1..], sub, i) <==> OccursAt(s, sub, i + 1)
  {
    if 0 <= i && i + |sub| <= |s| - 1 {
      assert s[1..][i..i + |sub|] == s[i + 1..i + 1 + |sub|];
    }
  }

  /** Python's `sub in s` for strings: a literal substring search. */
  function Contains(s: string, sub: string): (found: bool)
    ensures found <==> exists i :: OccursAt(s, sub, i)
    decreases |s|
  {
    if |sub| > |s| then
      false
    else if s[..|sub|] == sub then
      assert OccursAt(s, sub, 0);
      true
    else
      var rest := Contains(s[1..], sub);
      assert rest <==> exists i :: OccursAt(s, sub, i) by {
        forall i | OccursAt(s, sub, i) ensures exists j :: OccursAt(s[1..], sub, j) {
          assert i != 0;
          OccursShift(s, sub, i - 1);
        }
        forall j | OccursAt(s[1..], sub, j) ensures OccursAt(s, sub, j + 1) {
          OccursShift(s, sub, j);
        }
      }
      rest
  }

  /** Case-insensitive literal substring test (ASCII case folding). */
  function ContainsIgnoringCase(s: string, sub: string): (found: bool)
    ensures found <==> exists i :: OccursAt(Lower(s), Lower(sub), i)
  {
    Contains(Lower(s), Lower(sub))
  }
}
