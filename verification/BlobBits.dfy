/**
 The pieces of lead bytes are specified by arithmetic on numbers. Here they are the masks, shifts and
 disjunctions on bytes that the program computes with.
 */
module BlobBits {
  import opened BlobFormat

  // A byte as a number.
  function Num(b: bv8): Byte { b as int }

  lemma {:induction false} Low6IsMask(b: bv8)
    ensures Low6(Num(b)) == Num(b & 0x3f)
  {}

  lemma {:induction false} Low4IsMask(b: bv8)
    ensures Low4(Num(b)) == Num(b & 0x0f)
  {}

  lemma {:induction false} Top2Down2IsShift(b: bv8)
    ensures Top2Down2(Num(b)) == Num((b & 0xc0) >> 2)
  {}

  lemma {:induction false} Top4Down4IsShift(b: bv8)
    ensures Top4Down4(Num(b)) == Num((b & 0xf0) >> 4)
  {}

  // Arithmetic on bytes is arithmetic on numbers where nothing overflows.
  lemma {:induction false} DividedBy16(b: bv8)
    ensures Num(b / 0x10) == Num(b) / 0x10
  {}

  lemma {:induction false} RestBy4(b: bv8)
    ensures Num(b % 4) == Num(b) % 4
  {}

  lemma {:induction false} RestBy16(b: bv8)
    ensures Num(b % 0x10) == Num(b) % 0x10
  {}

  lemma {:induction false} Times64(b: bv8)
    requires b < 4
    ensures Num(b * 0x40) == Num(b) * 0x40
  {}

  lemma {:induction false} Times16(b: bv8)
    requires b < 0x10
    ensures Num(b * 0x10) == Num(b) * 0x10
  {}

  lemma {:induction false} ShiftsAreProducts(b: bv8)
    ensures (b & 0x30) << 2 == b / 0x10 % 4 * 0x40 && b / 0x10 % 4 < 4
    ensures (b & 0x0f) << 4 == b % 0x10 * 0x10 && b % 0x10 < 0x10
  {}

  lemma {:induction false} Bits45Up2IsShift(b: bv8)
    ensures Bits45Up2(Num(b)) == Num((b & 0x30) << 2)
  {
    ShiftsAreProducts(b);
    Times64(b / 0x10 % 4);
    RestBy4(b / 0x10);
    DividedBy16(b);
  }

  lemma {:induction false} Low4Up4IsShift(b: bv8)
    ensures Low4Up4(Num(b)) == Num((b & 0x0f) << 4)
  {
    ShiftsAreProducts(b);
    Times16(b % 0x10);
    RestBy16(b);
  }

  lemma {:induction false} TopClearIsMask(b: bv8)
    ensures TopClear(Num(b)) <==> b & 0xc0 == 0
  {}

  /** On bits, these are the masks and shifts of the program. */
  lemma {:induction false} MasksAndShifts(b: bv8)
    ensures Low6(Num(b)) == Num(b & 0x3f) && Low4(Num(b)) == Num(b & 0x0f)
    ensures Top2Down2(Num(b)) == Num((b & 0xc0) >> 2) && Top4Down4(Num(b)) == Num((b & 0xf0) >> 4)
    ensures Bits45Up2(Num(b)) == Num((b & 0x30) << 2) && Low4Up4(Num(b)) == Num((b & 0x0f) << 4)
    ensures TopClear(Num(b)) <==> b & 0xc0 == 0
  {
    hide *;
    Low6IsMask(b);
    Low4IsMask(b);
    Top2Down2IsShift(b);
    Top4Down4IsShift(b);
    Bits45Up2IsShift(b);
    Low4Up4IsShift(b);
    TopClearIsMask(b);
  }

  lemma {:induction false} High4IsMask(b: bv8)
    ensures Num(b) / 0x10 * 0x10 == Num(b & 0xf0)
  {}

  lemma {:induction false} High2IsMask(b: bv8)
    ensures Num(b) / 0x40 * 0x40 == Num(b & 0xc0)
  {}

  lemma {:induction false} PiecesAddUp(v: Byte)
    ensures Low4(v) + v / 0x10 * 0x10 == v && Low6(v) + v / 0x40 * 0x40 == v
  {}

  lemma {:induction false} MasksAddUp(v: bv8)
    ensures Num(v & 0x0f) + Num(v & 0xf0) == Num(v)
    ensures Num(v & 0x3f) + Num(v & 0xc0) == Num(v)
  {
    hide *;
    Low4IsMask(v);
    High4IsMask(v);
    Low6IsMask(v);
    High2IsMask(v);
    PiecesAddUp(Num(v));
  }

  lemma {:induction false} FourAndFour(v: bv8, a: bv8, b: bv8)
    requires a == v & 0x0f && b == v & 0xf0
    ensures Num(v) == Num(a) + Num(b)
  {
    MasksAddUp(v);
  }

  lemma {:induction false} SixAndTwo(v: bv8, a: bv8, b: bv8)
    requires a == v & 0x3f && b == v & 0xc0
    ensures Num(v) == Num(a) + Num(b)
  {
    MasksAddUp(v);
  }

  // The two operands of an `|` are pieces of four and four bits, or of six and two.
  predicate Pieces(a: bv8, b: bv8) {
    (a & 0xf0 == 0 && b & 0x0f == 0) || (a & 0xc0 == 0 && b & 0x3f == 0)
  }

  predicate PiecesOf(v: bv8, a: bv8, b: bv8) {
    (a == v & 0x0f && b == v & 0xf0) || (a == v & 0x3f && b == v & 0xc0)
  }

  lemma {:induction false} PiecesStay(a: bv8, b: bv8)
    requires Pieces(a, b)
    ensures PiecesOf(a | b, a, b)
  {}

  lemma {:induction false} PiecesSum(v: bv8, a: bv8, b: bv8)
    requires PiecesOf(v, a, b)
    ensures Num(v) == Num(a) + Num(b)
  {
    if a == v & 0x0f && b == v & 0xf0 {
      FourAndFour(v, a, b);
    } else {
      SixAndTwo(v, a, b);
    }
  }

  /** Such pieces are put together by adding, so that Lead0 to Lead3 and JoinX to JoinZ are the program's. */
  lemma {:induction false} JoinedBits(a: bv8, b: bv8)
    requires Pieces(a, b)
    ensures Num(a | b) == Num(a) + Num(b)
  {
    hide *;
    PiecesStay(a, b);
    PiecesSum(a | b, a, b);
  }

  /** The operands of every disjunction in the program are such pieces, in one order or the other. */
  lemma {:induction false} OperandsArePieces(p: bv8, q: bv8)
    ensures Pieces(p & 0x0f, (q & 0xc0) >> 2) && Pieces((p & 0xf0) >> 4, (q & 0xc0) >> 2)
    ensures Pieces(p & 0x3f, (q & 0x30) << 2) && Pieces(p & 0x0f, (q & 0x0f) << 4)
  {}
}
