/** The chunk size shared by the image and text mappers, and small facts about integer
    multiplication and division used for chunk bounds. */
module Arith {

  /** shift = i * per_note, where chunk i of a mapper's data starts. */
  function Shift(i: nat, perNote: nat): nat {
    i * perNote
  }

  /** per_note = int(len / notes_limit): the largest count of notes_limit equal chunks
      that fit in len items. */
  function PerNote(len: nat, notesLimit: nat): (per: nat)
    requires notesLimit >= 1
    ensures notesLimit * per <= len < notesLimit * per + notesLimit
  {
    len / notesLimit
  }

  lemma {:induction false} MulMonotone(a: nat, b: nat, c: nat)
    requires a <= b
    ensures a * c <= b * c
  {
    if c > 0 {
      MulMonotone(a, b, c - 1);
      assert a * c == a * (c - 1) + a;
      assert b * c == b * (c - 1) + b;
    }
  }

  /** len == d * (len / d) + len % d, with the remainder below d. */
  lemma DivMod(len: nat, d: nat)
    requires d >= 1
    ensures d * (len / d) + len % d == len && 0 <= len % d < d
    ensures d * (len / d) <= len
  {
  }

  /** s / d lies in [0,1] when s <= d, and below 1 when s < d. */
  lemma RatioInUnit(s: nat, d: nat)
    requires 0 < d
    ensures 0.0 <= s as real / d as real
    ensures s <= d ==> s as real / d as real <= 1.0
    ensures s < d ==> s as real / d as real < 1.0
  {
    var x := s as real / d as real;
    assert x * d as real == s as real;
  }
}
