/** The two Python string operations the geometry tool relies on: repetition
    `w * n` and the non-overlapping occurrence count `s.count(w)`. */
module Strings {

  /** `w * n`. */
  function Repeat(w: string, n: nat): (r: string)
    ensures |r| == n * |w|
  {
    if n == 0 then "" else w + Repeat(w, n - 1)
  }

  /** `s.count(needle)`: occurrences found scanning left to right, each match
      resuming after its last character; an empty needle matches at every one
      of the `|s| + 1` positions. */
  function Count(needle: string, s: string): (r: nat)
    decreases |s|
    ensures |needle| > 0 ==> r <= |s|
    ensures |needle| > |s| ==> r == 0
  {
    if |needle| == 0 then |s| + 1
    else if |s| < |needle| then 0
    else if s[..|needle|] == needle then 1 + Count(needle, s[|needle|..])
    else Count(needle, s[1..])
  }

  /** Every character of `w * n` is a character of `w`. */
  lemma {:induction false} RepeatChars(w: string, n: nat, c: char)
    requires c in Repeat(w, n)
    ensures c in w
  {
    if n > 0 {
      var r := Repeat(w, n - 1);
      assert Repeat(w, n) == w + r;
      if c !in w {
        assert c in r;
        RepeatChars(w, n - 1, c);
      }
    }
  }

  /** `(w * n).count(w) == n` for a non-empty `w`. */
  lemma {:induction false} CountRepeat(w: string, n: nat)
    requires |w| > 0
    ensures Count(w, Repeat(w, n)) == n
  {
    if n > 0 {
      var s := Repeat(w, n);
      assert s == w + Repeat(w, n - 1);
      assert s[..|w|] == w;
      assert s[|w|..] == Repeat(w, n - 1);
      CountRepeat(w, n - 1);
    }
  }

  /** A non-empty needle holding a character the text lacks never occurs in it. */
  lemma {:induction false} CountAbsent(needle: string, s: string, c: char)
    requires c in needle && c !in s
    ensures Count(needle, s) == 0
  {
    if |s| >= |needle| {
      assert s[..|needle|] != needle;
      assert forall x :: x in s[1..] ==> x in s;
      CountAbsent(needle, s[1..], c);
    }
  }

  /** The same for a repeated word that lacks the character. */
  lemma CountAbsentRepeat(needle: string, w: string, n: nat, c: char)
    requires c in needle && c !in w
    ensures Count(needle, Repeat(w, n)) == 0
  {
    if c in Repeat(w, n) {
      RepeatChars(w, n, c);
    }
    CountAbsent(needle, Repeat(w, n), c);
  }
}
