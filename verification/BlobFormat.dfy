/**
 The blob format as a specification: a payload of 1024 groups of 127 bytes, and
 what one group looks like as four 32-byte field elements. Nothing here mentions
 offsets, rounds that stop early or holes filled afterwards; those belong to the
 codec in BlobEncoder.dfy and BlobDecoder.dfy, which is proved against this file.
 */
module BlobFormat {

  type Byte = b: int | 0 <= b < 0x100

  const ROUNDS: nat := 1024
  const GROUP_SIZE: nat := 127
  const BYTES_PER_BLOB: nat := 131072
  const MAX_BLOB_DATA_SIZE: nat := (4 * 31 + 3) * 1024 - 4
  const ENCODING_VERSION: Byte := 0

  /** The order of the scalar field of BLS12-381 (Parameters section of EIP-4844). */
  const BLS_MODULUS: nat := 0x73eda753299d7d483339d80809a1d80553bda402fffe5bfeffffffff00000001

  datatype BlobError =
    | InputTooLarge(size: nat)
    | DataDidNotFit(readOffset: nat, dataLen: nat)
    | InvalidVersion(want: Byte, got: Byte)
    | InvalidLength(size: nat, maximum: nat)
    | ExtraneousOutput(position: nat)
    | ExtraneousInput(position: nat)
    | InvalidFieldElement

  // ---------- bytes ----------

  function Zeros(n: nat): seq<Byte> {
    seq(n, _ => 0)
  }

  predicate AllZero(s: seq<Byte>) {
    forall i :: 0 <= i < |s| ==> s[i] == 0
  }

  /** The 24-bit big-endian length prefix of a blob. */
  function LengthBytes(n: nat): seq<Byte>
    requires n < 0x1000000
  {
    [n / 0x10000, n / 0x100 % 0x100, n % 0x100]
  }

  function LengthOf(b2: Byte, b1: Byte, b0: Byte): nat {
    b2 * 0x10000 + b1 * 0x100 + b0
  }

  // Quotient and remainder by a power of two, read off a sum.
  lemma {:induction false} Split16(a: nat, q: nat, r: nat)
    requires a == q * 0x10 + r && r < 0x10
    ensures a / 0x10 == q && a % 0x10 == r
  {}

  lemma {:induction false} Split64(a: nat, q: nat, r: nat)
    requires a == q * 0x40 + r && r < 0x40
    ensures a / 0x40 == q && a % 0x40 == r
  {}

  lemma {:induction false} Split256(a: nat, q: nat, r: nat)
    requires a == q * 0x100 + r && r < 0x100
    ensures a / 0x100 == q && a % 0x100 == r
  {}

  lemma {:induction false} Split65536(a: nat, q: nat, r: nat)
    requires a == q * 0x10000 + r && r < 0x10000
    ensures a / 0x10000 == q && a % 0x10000 == r
  {}

  /** The length prefix is a bijection between 24-bit lengths and byte triples. */
  lemma {:induction false} LengthOfLengthBytes(n: nat)
    requires n < 0x1000000
    ensures var h := LengthBytes(n); LengthOf(h[0], h[1], h[2]) == n
  {
    var high, middle := n / 0x10000, n / 0x100;
    Split256(middle, high, middle % 0x100);
  }

  lemma {:induction false} LengthBytesOfLengthOf(b2: Byte, b1: Byte, b0: Byte)
    ensures var n := LengthOf(b2, b1, b0); n < 0x1000000 && LengthBytes(n) == [b2, b1, b0]
  {
    var n := LengthOf(b2, b1, b0);
    Split65536(n, b2, b1 * 0x100 + b0);
    Split256(n, b2 * 0x100 + b1, b0);
    Split256(b2 * 0x100 + b1, b2, b1);
  }

  // ---------- the three spare bytes of a group ----------

  // The masks and shifts of the program, on bytes as numbers: `b & 0x3f`, `b & 0x0f`,
  // `(b & 0xc0) >> 2`, `(b & 0xf0) >> 4`, `(b & 0x30) << 2` and `(b & 0x0f) << 4`. The two
  // operands of every `|` have no bit in common, so `|` is `+`;
  // BlobBits.dfy proves both.
  function Low6(b: Byte): Byte { b % 0x40 }
  function Low4(b: Byte): Byte { b % 0x10 }
  function Top2Down2(b: Byte): Byte { b / 0x40 * 0x10 }
  function Top4Down4(b: Byte): Byte { b / 0x10 }
  function Bits45Up2(b: Byte): Byte { b / 0x10 % 4 * 0x40 }
  function Low4Up4(b: Byte): Byte { b % 0x10 * 0x10 }

  /** A lead byte is acceptable when its two highest bits are clear: `b & 0xc0 == 0`. */
  predicate TopClear(b: Byte) { b < 0x40 }

  // The bytes x, y and z of a group are cut into the four lead bytes of its field elements.
  function Lead0(x: Byte): Byte { Low6(x) }
  function Lead1(x: Byte, y: Byte): Byte { Low4(y) + Top2Down2(x) }
  function Lead2(z: Byte): Byte { Low6(z) }
  function Lead3(y: Byte, z: Byte): Byte { Top2Down2(z) + Top4Down4(y) }

  function JoinX(lead0: Byte, lead1: Byte): Byte { Low6(lead0) + Bits45Up2(lead1) }
  function JoinY(lead1: Byte, lead3: Byte): Byte { Low4(lead1) + Low4Up4(lead3) }
  function JoinZ(lead2: Byte, lead3: Byte): Byte { Low6(lead2) + Bits45Up2(lead3) }

  // What the second and the fourth lead byte are made of.
  lemma {:induction false} LeadParts(x: Byte, y: Byte, z: Byte)
    ensures Lead1(x, y) / 0x10 == x / 0x40 && Lead1(x, y) % 0x10 == y % 0x10
    ensures Lead3(y, z) / 0x10 == z / 0x40 && Lead3(y, z) % 0x10 == y / 0x10
  {
    Split16(Lead1(x, y), x / 0x40, y % 0x10);
    Split16(Lead3(y, z), z / 0x40, y / 0x10);
  }

  lemma {:induction false} JoinedSix(b: Byte, lead: Byte)
    requires lead / 0x10 == b / 0x40
    ensures Low6(Low6(b)) + Bits45Up2(lead) == b
  {
    var q := b / 0x40;
    assert q < 4 && b == q * 0x40 + b % 0x40;
  }

  lemma {:induction false} JoinedFour(b: Byte, low: Byte, high: Byte)
    requires low % 0x10 == b % 0x10 && high % 0x10 == b / 0x10
    ensures Low4(low) + Low4Up4(high) == b
  {}

  lemma {:induction false} LeadsTopClear(x: Byte, y: Byte, z: Byte)
    ensures TopClear(Lead0(x)) && TopClear(Lead1(x, y)) && TopClear(Lead2(z)) && TopClear(Lead3(y, z))
  {}

  lemma {:induction false} JoinSplit(x: Byte, y: Byte, z: Byte)
    ensures JoinX(Lead0(x), Lead1(x, y)) == x
    ensures JoinY(Lead1(x, y), Lead3(y, z)) == y
    ensures JoinZ(Lead2(z), Lead3(y, z)) == z
    ensures TopClear(Lead0(x)) && TopClear(Lead1(x, y)) && TopClear(Lead2(z)) && TopClear(Lead3(y, z))
  {
    hide Lead1, Lead3, Low6, Low4, Bits45Up2, Low4Up4, TopClear;
    LeadParts(x, y, z);
    JoinedSix(x, Lead1(x, y));
    JoinedSix(z, Lead3(y, z));
    JoinedFour(y, Lead1(x, y), Lead3(y, z));
    LeadsTopClear(x, y, z);
  }

  lemma {:induction false} SplitJoin(e0: Byte, e1: Byte, e2: Byte, e3: Byte)
    requires TopClear(e0) && TopClear(e1) && TopClear(e2) && TopClear(e3)
    ensures var x, y, z := JoinX(e0, e1), JoinY(e1, e3), JoinZ(e2, e3);
            Lead0(x) == e0 && Lead1(x, y) == e1 && Lead2(z) == e2 && Lead3(y, z) == e3
  {
    Split64(JoinX(e0, e1), e1 / 0x10, e0);
    Split64(JoinZ(e2, e3), e3 / 0x10, e2);
    Split16(JoinY(e1, e3), e3 % 0x10, e1 % 0x10);
  }

  // ---------- groups ----------

  // Four field elements: a lead byte each, and the rest of the group one position later.
  function EncodedByte(g: seq<Byte>, k: nat): Byte
    requires |g| == GROUP_SIZE && k < 128
  {
    if k == 0 then Lead0(g[31])
    else if k == 32 then Lead1(g[31], g[63])
    else if k == 64 then Lead2(g[95])
    else if k == 96 then Lead3(g[63], g[95])
    else g[k - 1]
  }

  function EncodeGroup(g: seq<Byte>): (r: seq<Byte>)
    requires |g| == GROUP_SIZE
    ensures |r| == 128
  {
    seq<Byte>(128, k requires 0 <= k < 128 => EncodedByte(g, k))
  }

  function DecodedByte(b: seq<Byte>, k: nat): Byte
    requires |b| == 128 && k < GROUP_SIZE
  {
    if k == 31 then JoinX(b[0], b[32])
    else if k == 63 then JoinY(b[32], b[96])
    else if k == 95 then JoinZ(b[64], b[96])
    else b[k + 1]
  }

  function DecodeGroup(b: seq<Byte>): (r: seq<Byte>)
    requires |b| == 128
    ensures |r| == GROUP_SIZE
  {
    seq<Byte>(GROUP_SIZE, k requires 0 <= k < GROUP_SIZE => DecodedByte(b, k))
  }

  predicate LeadsClear(b: seq<Byte>)
    requires |b| == 128
  {
    TopClear(b[0]) && TopClear(b[32]) && TopClear(b[64]) && TopClear(b[96])
  }

  lemma {:induction false} DecodeEncodeGroup(g: seq<Byte>)
    requires |g| == GROUP_SIZE
    ensures DecodeGroup(EncodeGroup(g)) == g && LeadsClear(EncodeGroup(g))
  {
    hide Lead0, Lead1, Lead2, Lead3, JoinX, JoinY, JoinZ, TopClear;
    JoinSplit(g[31], g[63], g[95]);
  }

  lemma {:induction false} EncodeDecodeGroup(b: seq<Byte>)
    requires |b| == 128 && LeadsClear(b)
    ensures EncodeGroup(DecodeGroup(b)) == b
  {
    hide Lead0, Lead1, Lead2, Lead3, JoinX, JoinY, JoinZ, TopClear;
    SplitJoin(b[0], b[32], b[64], b[96]);
  }

  lemma {:induction false} EncodeZeroGroup(g: seq<Byte>)
    requires |g| == GROUP_SIZE && AllZero(g)
    ensures AllZero(EncodeGroup(g))
  {}

  // The i-th group of a payload, and the i-th 128-byte block of a blob.
  function Group(p: seq<Byte>, i: nat): (g: seq<Byte>)
    requires GROUP_SIZE * (i + 1) <= |p|
    ensures |g| == GROUP_SIZE
  {
    p[GROUP_SIZE * i..GROUP_SIZE * (i + 1)]
  }

  function Block(b: seq<Byte>, i: nat): (r: seq<Byte>)
    requires 128 * (i + 1) <= |b|
    ensures |r| == 128
  {
    b[128 * i..128 * (i + 1)]
  }

  function EncodeGroups(p: seq<Byte>, n: nat): (r: seq<Byte>)
    requires GROUP_SIZE * n <= |p|
    ensures |r| == 128 * n
  {
    if n == 0 then [] else EncodeGroups(p, n - 1) + EncodeGroup(Group(p, n - 1))
  }

  function DecodeGroups(b: seq<Byte>, n: nat): (r: seq<Byte>)
    requires 128 * n <= |b|
    ensures |r| == GROUP_SIZE * n
  {
    if n == 0 then [] else DecodeGroups(b, n - 1) + DecodeGroup(Block(b, n - 1))
  }

  predicate AllLeadsClear(b: seq<Byte>, n: nat)
    requires 128 * n <= |b|
  {
    forall i :: 0 <= i < n ==> LeadsClear(Block(b, i))
  }

  lemma {:induction false} EncodeGroupsAt(p: seq<Byte>, n: nat, i: nat, k: nat)
    requires GROUP_SIZE * n <= |p| && i < n && k < 128
    ensures EncodeGroups(p, n)[128 * i + k] == EncodeGroup(Group(p, i))[k]
  {
    hide EncodeGroup;
    if i < n - 1 {
      EncodeGroupsAt(p, n - 1, i, k);
    }
  }

  lemma {:induction false} DecodeGroupsAt(b: seq<Byte>, n: nat, i: nat, k: nat)
    requires 128 * n <= |b| && i < n && k < GROUP_SIZE
    ensures DecodeGroups(b, n)[GROUP_SIZE * i + k] == DecodeGroup(Block(b, i))[k]
  {
    hide DecodeGroup;
    if i < n - 1 {
      DecodeGroupsAt(b, n - 1, i, k);
    }
  }

  lemma {:induction false} DecodeEncodeGroups(p: seq<Byte>, b: seq<Byte>, n: nat)
    requires GROUP_SIZE * n <= |p| && 128 * n <= |b|
    requires EncodeGroups(p, n) == b[..128 * n]
    ensures DecodeGroups(b, n) == p[..GROUP_SIZE * n] && AllLeadsClear(b, n)
  {
    hide EncodeGroup, DecodeGroup, LeadsClear;
    if n > 0 {
      var shorter := EncodeGroups(p, n - 1);
      assert b[..128 * (n - 1)] == b[..128 * n][..128 * (n - 1)] == shorter;
      assert Block(b, n - 1) == b[..128 * n][128 * (n - 1)..] == EncodeGroup(Group(p, n - 1));
      DecodeEncodeGroups(p, b, n - 1);
      DecodeEncodeGroup(Group(p, n - 1));
    }
  }

  lemma {:induction false} EncodeDecodeGroups(b: seq<Byte>, n: nat)
    requires 128 * n <= |b| && AllLeadsClear(b, n)
    ensures EncodeGroups(DecodeGroups(b, n), n) == b[..128 * n]
  {
    hide EncodeGroup, DecodeGroup, LeadsClear;
    if n > 0 {
      var shorter := DecodeGroups(b, n - 1);
      var p := DecodeGroups(b, n);
      EncodeDecodeGroups(b, n - 1);
      EncodeGroupsPrefix(p, shorter, n - 1);
      assert Group(p, n - 1) == DecodeGroup(Block(b, n - 1));
      EncodeDecodeGroup(Block(b, n - 1));
    }
  }

  /** Encoding the first n groups only looks at the first 127 * n bytes. */
  lemma {:induction false} EncodeGroupsPrefix(p: seq<Byte>, q: seq<Byte>, n: nat)
    requires GROUP_SIZE * n <= |p| && GROUP_SIZE * n <= |q|
    requires p[..GROUP_SIZE * n] == q[..GROUP_SIZE * n]
    ensures EncodeGroups(p, n) == EncodeGroups(q, n)
  {
    if n > 0 {
      assert Group(p, n - 1) == p[..GROUP_SIZE * n][GROUP_SIZE * (n - 1)..];
      assert Group(q, n - 1) == q[..GROUP_SIZE * n][GROUP_SIZE * (n - 1)..];
      assert p[..GROUP_SIZE * (n - 1)] == p[..GROUP_SIZE * n][..GROUP_SIZE * (n - 1)];
      assert q[..GROUP_SIZE * (n - 1)] == q[..GROUP_SIZE * n][..GROUP_SIZE * (n - 1)];
      EncodeGroupsPrefix(p, q, n - 1);
    }
  }

  /** Groups of zeros encode to zeros, which is why the encoder may stop early. */
  lemma {:induction false} EncodeZeroTail(p: seq<Byte>, k: nat, n: nat)
    requires k <= n && GROUP_SIZE * n <= |p| && AllZero(p[GROUP_SIZE * k..])
    ensures EncodeGroups(p, n) == EncodeGroups(p, k) + Zeros(128 * (n - k))
  {
    hide EncodeGroup;
    if n > k {
      EncodeZeroTail(p, k, n - 1);
      var g := Group(p, n - 1);
      forall i | 0 <= i < GROUP_SIZE ensures g[i] == 0 {
        assert g[i] == p[GROUP_SIZE * k..][GROUP_SIZE * (n - 1) + i - GROUP_SIZE * k];
      }
      EncodeZeroGroup(g);
    }
  }

  // ---------- whole blobs ----------

  function Header(n: nat): (h: seq<Byte>)
    requires n < 0x1000000
    ensures |h| == 4
  {
    [ENCODING_VERSION] + LengthBytes(n)
  }

  /** Version, length, data and zero padding: exactly 1024 groups of 127 bytes. */
  function Payload(data: seq<Byte>): (p: seq<Byte>)
    requires |data| <= MAX_BLOB_DATA_SIZE
    ensures |p| == GROUP_SIZE * ROUNDS
  {
    Header(|data|) + data + Zeros(MAX_BLOB_DATA_SIZE - |data|)
  }

  /** The one blob that represents `data`. */
  function Encoded(data: seq<Byte>): (b: seq<Byte>)
    requires |data| <= MAX_BLOB_DATA_SIZE
    ensures |b| == BYTES_PER_BLOB
  {
    EncodeGroups(Payload(data), ROUNDS)
  }
}
