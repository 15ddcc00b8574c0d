/**
 The blob encoder as the program runs it: an output buffer written in place, read and write
 offsets, a first round that also carries the header, and an early exit. It is proved to
 compute `Encoded`.
 */
module BlobEncoder {
  import opened Integers
  import opened Wrappers
  import opened BlobFormat

  // ---------- reading ----------

  // The read offset `ro` is where payload position `i` lies in the data, or the end of the data.
  predicate ReadsAt(data: seq<Byte>, ro: nat, i: nat) {
    4 <= i && ro == Min(i - 4, |data|)
  }

  // `buf` is what the payload holds from position `i` on.
  ghost predicate InPayload(data: seq<Byte>, i: nat, buf: seq<Byte>)
    requires |data| <= MAX_BLOB_DATA_SIZE && i + |buf| <= GROUP_SIZE * ROUNDS
  {
    forall t :: 0 <= t < |buf| ==> buf[t] == Payload(data)[i + t]
  }

  method ReadOneByte(data: seq<Byte>, readOffset: nat, ghost i: nat) returns (b: Byte, next: nat)
    requires |data| <= MAX_BLOB_DATA_SIZE && i < GROUP_SIZE * ROUNDS && ReadsAt(data, readOffset, i)
    ensures b == Payload(data)[i]
    ensures ReadsAt(data, next, i + 1)
  {
    if readOffset < |data| {
      b, next := data[readOffset], readOffset + 1;
    } else {
      b, next := 0, readOffset;
    }
  }

  method Read31Bytes(data: seq<Byte>, readOffset: nat, ghost i: nat)
    returns (buf: seq<Byte>, next: nat)
    requires |data| <= MAX_BLOB_DATA_SIZE && i + 31 <= GROUP_SIZE * ROUNDS && ReadsAt(data, readOffset, i)
    ensures |buf| == 31 && InPayload(data, i, buf)
    ensures ReadsAt(data, next, i + 31)
  {
    buf, next := Zeros(31), readOffset;
    if readOffset < |data| {
      var n := Min(31, |data| - readOffset);
      buf := data[readOffset..readOffset + n] + buf[n..];
      next := readOffset + n;
    }
  }

  // How much of the data `round` full rounds have consumed.
  function Consumed(data: seq<Byte>, round: nat): nat {
    if round == 0 then 0 else Min(GROUP_SIZE * round - 4, |data|)
  }

  /** The first 31 bytes of a round. In round 0 they start with the version and the length. */
  method ReadFirstBody(data: seq<Byte>, readOffset: nat, round: nat)
    returns (buf: seq<Byte>, next: nat)
    requires |data| <= MAX_BLOB_DATA_SIZE && round < ROUNDS
    requires readOffset == Consumed(data, round)
    ensures |buf| == 31 && InPayload(data, GROUP_SIZE * round, buf)
    ensures ReadsAt(data, next, GROUP_SIZE * round + 31)
  {
    if round == 0 {
      var header := LengthBytes(|data|);
      buf := Zeros(31)[0 := ENCODING_VERSION];
      buf := buf[1 := header[0]][2 := header[1]][3 := header[2]];
      var n := Min(31 - 4, |data| - readOffset);
      buf := buf[..4] + data[readOffset..readOffset + n] + buf[4 + n..];
      next := readOffset + n;
    } else {
      buf, next := Read31Bytes(data, readOffset, GROUP_SIZE * round);
    }
  }

  // ---------- writing ----------

  // The first `w` bytes are those of the finished blob `e`; the rest is still zero.
  ghost predicate Written(out: array<Byte>, w: nat, e: seq<Byte>)
    reads out
  {
    && out.Length == |e| == BYTES_PER_BLOB && w <= BYTES_PER_BLOB
    && (forall k :: 0 <= k < w ==> out[k] == e[k])
    && (forall k :: w <= k < BYTES_PER_BLOB ==> out[k] == 0)
  }

  // `buf` is what belongs at the 31 positions from `pos` on.
  ghost predicate BodyAt(e: seq<Byte>, pos: nat, buf: seq<Byte>) {
    |buf| == 31 && pos + 31 <= |e| && forall t :: 0 <= t < 31 ==> buf[t] == e[pos + t]
  }

  // Where a field element starts.
  predicate ElementStart(pos: nat) {
    pos % 32 == 0
  }

  lemma {:induction false} ElementsOfRound(round: nat)
    ensures ElementStart(128 * round) && ElementStart(128 * round + 32)
    ensures ElementStart(128 * round + 64) && ElementStart(128 * round + 96)
  {}

  // The two assertions of the program are preconditions here.
  method WriteOneByte(out: array<Byte>, writeOffset: nat, v: Byte, ghost e: seq<Byte>)
    returns (next: nat)
    requires writeOffset % 32 == 0
    requires TopClear(v)
    requires Written(out, writeOffset, e) && writeOffset < BYTES_PER_BLOB && v == e[writeOffset]
    modifies out
    ensures next == writeOffset + 1 && Written(out, next, e)
  {
    out[writeOffset] := v;
    next := writeOffset + 1;
  }

  method Write31Bytes(out: array<Byte>, writeOffset: nat, buf: seq<Byte>, ghost e: seq<Byte>)
    returns (next: nat)
    requires writeOffset % 32 == 1
    requires Written(out, writeOffset, e) && writeOffset + 31 <= BYTES_PER_BLOB
    requires BodyAt(e, writeOffset, buf)
    modifies out
    ensures next == writeOffset + 31 && Written(out, next, e)
  {
    forall t | 0 <= t < 31 {
      out[writeOffset + t] := buf[t];
    }
    assert forall k :: writeOffset <= k < writeOffset + 31 ==> out[k] == buf[k - writeOffset];
    next := writeOffset + 31;
  }

  method WriteFieldElement(out: array<Byte>, writeOffset: nat, lead: Byte, buf: seq<Byte>,
                           ghost e: seq<Byte>)
    returns (next: nat)
    requires ElementStart(writeOffset) && TopClear(lead)
    requires Written(out, writeOffset, e) && writeOffset + 32 <= BYTES_PER_BLOB && |e| == BYTES_PER_BLOB
    requires lead == e[writeOffset] && BodyAt(e, writeOffset + 1, buf)
    modifies out
    ensures next == writeOffset + 32 && Written(out, next, e)
  {
    hide TopClear, Written, BodyAt;
    next := WriteOneByte(out, writeOffset, lead, e);
    next := Write31Bytes(out, next, buf, e);
  }

  // ---------- one round writes one group ----------

  lemma {:induction false} EncodedLeads(data: seq<Byte>, round: nat)
    requires |data| <= MAX_BLOB_DATA_SIZE && round < ROUNDS
    ensures var e, p, w, at := Encoded(data), Payload(data), 128 * round, GROUP_SIZE * round;
            && e[w] == Lead0(p[at + 31])
            && e[w + 32] == Lead1(p[at + 31], p[at + 63])
            && e[w + 64] == Lead2(p[at + 95])
            && e[w + 96] == Lead3(p[at + 63], p[at + 95])
            && TopClear(e[w]) && TopClear(e[w + 32]) && TopClear(e[w + 64]) && TopClear(e[w + 96])
  {
    hide EncodeGroups, Payload, Lead0, Lead1, Lead2, Lead3, TopClear;
    var p := Payload(data);
    var g := Group(p, round);
    EncodeGroupsAt(p, ROUNDS, round, 0);
    EncodeGroupsAt(p, ROUNDS, round, 32);
    EncodeGroupsAt(p, ROUNDS, round, 64);
    EncodeGroupsAt(p, ROUNDS, round, 96);
    JoinSplit(g[31], g[63], g[95]);
  }

  // The body of field element `j` of a round, found in the payload.
  lemma {:induction false} EncodedBody(data: seq<Byte>, round: nat, j: nat, buf: seq<Byte>)
    requires |data| <= MAX_BLOB_DATA_SIZE && round < ROUNDS && j < 4 && |buf| == 31
    requires InPayload(data, GROUP_SIZE * round + 32 * j, buf)
    ensures BodyAt(Encoded(data), 128 * round + 32 * j + 1, buf)
  {
    hide EncodeGroups, Payload, Lead0, Lead1, Lead2, Lead3;
    var p := Payload(data);
    forall t | 0 <= t < 31 ensures buf[t] == Encoded(data)[128 * round + 32 * j + 1 + t] {
      EncodeGroupsAt(p, ROUNDS, round, 32 * j + 1 + t);
    }
  }

  method WriteRound(out: array<Byte>, writeOffset: nat, data: seq<Byte>, readOffset: nat, round: nat)
    returns (nextWrite: nat, nextRead: nat)
    requires |data| <= MAX_BLOB_DATA_SIZE && round < ROUNDS
    requires writeOffset == 128 * round && readOffset == Consumed(data, round)
    requires Written(out, writeOffset, Encoded(data))
    modifies out
    ensures nextWrite == 128 * (round + 1) && nextRead == Consumed(data, round + 1)
    ensures Written(out, nextWrite, Encoded(data))
  {
    hide Encoded, Payload, InPayload, Written, BodyAt, ElementStart, Lead0, Lead1, Lead2, Lead3, TopClear, Min;
    ElementsOfRound(round);
    ghost var at, e := GROUP_SIZE * round, Encoded(data);
    EncodedLeads(data, round);
    nextWrite, nextRead := writeOffset, readOffset;
    var buf, x, y, z;

    // First field element: 31 bytes and six bits of x.
    buf, nextRead := ReadFirstBody(data, nextRead, round);
    x, nextRead := ReadOneByte(data, nextRead, at + 31);
    EncodedBody(data, round, 0, buf);
    assert Lead0(x) == e[128 * round];
    nextWrite := WriteFieldElement(out, nextWrite, Lead0(x), buf, e);

    // Second field element: the rest of x and half of y.
    buf, nextRead := Read31Bytes(data, nextRead, at + 32);
    y, nextRead := ReadOneByte(data, nextRead, at + 63);
    EncodedBody(data, round, 1, buf);
    assert Lead1(x, y) == e[128 * round + 32];
    nextWrite := WriteFieldElement(out, nextWrite, Lead1(x, y), buf, e);

    // Third field element: six bits of z.
    buf, nextRead := Read31Bytes(data, nextRead, at + 64);
    z, nextRead := ReadOneByte(data, nextRead, at + 95);
    EncodedBody(data, round, 2, buf);
    assert Lead2(z) == e[128 * round + 64];
    nextWrite := WriteFieldElement(out, nextWrite, Lead2(z), buf, e);

    // Fourth field element: the rest of y and z.
    buf, nextRead := Read31Bytes(data, nextRead, at + 96);
    EncodedBody(data, round, 3, buf);
    assert Lead3(y, z) == e[128 * round + 96];
    nextWrite := WriteFieldElement(out, nextWrite, Lead3(y, z), buf, e);
  }

  /**
   Encodes `data` into one blob. Data that is not too large always fits, so the check after the
   loop never reports `DataDidNotFit`.
   */
  method CreateBlobFromData(data: seq<Byte>) returns (r: Result<seq<Byte>, BlobError>)
    ensures |data| > MAX_BLOB_DATA_SIZE ==> r == Err(InputTooLarge(|data|))
    ensures |data| <= MAX_BLOB_DATA_SIZE ==> r == Ok(Encoded(data))
  {
    var out := new Byte[BYTES_PER_BLOB](_ => 0);
    if |data| > MAX_BLOB_DATA_SIZE {
      return Err(InputTooLarge(|data|));
    }
    hide Encoded;
    var readOffset, writeOffset, round := 0, 0, 0;
    while round < ROUNDS && readOffset < |data|
      invariant round <= ROUNDS
      invariant writeOffset == 128 * round && readOffset == Consumed(data, round)
      invariant Written(out, writeOffset, Encoded(data))
    {
      writeOffset, readOffset := WriteRound(out, writeOffset, data, readOffset, round);
      round := round + 1;
    }
    if readOffset < |data| {
      assert false;
    }
    RestIsZero(data, round);
    assert out[..] == Encoded(data);
    r := Ok(out[..]);
  }

  /** Once the data is used up, the rounds that are skipped would only have written zeros. */
  lemma {:induction false} RestIsZero(data: seq<Byte>, round: nat)
    requires |data| <= MAX_BLOB_DATA_SIZE && round <= ROUNDS
    requires Consumed(data, round) == |data|
    ensures forall k :: 128 * round <= k < BYTES_PER_BLOB ==> Encoded(data)[k] == 0
  {
    hide EncodeGroups;
    assert AllZero(Payload(data)[GROUP_SIZE * round..]);
    EncodeZeroTail(Payload(data), round, ROUNDS);
  }
}
