/**
 The blob decoder as the program runs it, proved to compute `Decoded`. Each round copies up to
 four 31-byte bodies to positions 32 apart, which leaves one-byte holes, and then fills the
 holes from the four lead bytes.
 */
module BlobDecoder {
  import opened Wrappers
  import opened BlobFormat
  import opened BlobDecoding

  // Where round `m` starts to write; the output lacks the four header bytes.
  function Base(m: nat): int {
    GROUP_SIZE * m - 4
  }

  // Every group of the blob, decoded.
  function AllGroups(blob: seq<Byte>): (q: seq<Byte>)
    requires |blob| == BYTES_PER_BLOB
    ensures |q| == GROUP_SIZE * ROUNDS
  {
    DecodeGroups(blob, ROUNDS)
  }

  // `m` rounds are complete: their groups are in place, and the rest is still zero.
  ghost predicate RoundsDone(output: array<Byte>, blob: seq<Byte>, m: nat)
    reads output
  {
    && output.Length == MAX_BLOB_DATA_SIZE && |blob| == BYTES_PER_BLOB && 1 <= m <= ROUNDS
    && (forall k :: 0 <= k < Base(m) ==> output[k] == AllGroups(blob)[k + 4])
    && (forall k :: Base(m) <= k < MAX_BLOB_DATA_SIZE ==> output[k] == 0)
  }

  // In round `m` the field elements before `j` have been copied, holes not yet filled.
  ghost predicate ElementsCopied(output: array<Byte>, blob: seq<Byte>, m: nat, j: nat)
    reads output
  {
    && output.Length == MAX_BLOB_DATA_SIZE && |blob| == BYTES_PER_BLOB && m < ROUNDS && j <= 4
    && (forall k :: 0 <= k < Base(m) + 32 * j && !Hole(m, k) ==> output[k] == AllGroups(blob)[k + 4])
    && (forall k :: Base(m + 1) <= k < MAX_BLOB_DATA_SIZE ==> output[k] == 0)
  }

  predicate Hole(m: nat, k: int) {
    k - Base(m) == 31 || k - Base(m) == 63 || k - Base(m) == 95 || k - Base(m) == 127
  }

  // The lead byte of field element `j` of round `m`.
  function LeadAt(blob: seq<Byte>, m: nat, j: nat): Byte
    requires |blob| == BYTES_PER_BLOB && m < ROUNDS && j < 4
  {
    blob[128 * m + 32 * j]
  }

  // The lead bytes that round `m` checks are clear; byte 0 of the blob is not checked.
  predicate RoundClear(blob: seq<Byte>, m: nat)
    requires |blob| == BYTES_PER_BLOB && m < ROUNDS
  {
    forall j :: FirstElement(m) <= j < 4 ==> TopClear(LeadAt(blob, m, j))
  }

  function FirstElement(m: nat): nat {
    if m == 0 then 1 else 0
  }

  lemma {:induction false} BodyInGroups(blob: seq<Byte>, m: nat, k: nat)
    requires |blob| == BYTES_PER_BLOB && m < ROUNDS && k < GROUP_SIZE
    requires k != 31 && k != 63 && k != 95
    ensures AllGroups(blob)[GROUP_SIZE * m + k] == blob[128 * m + k + 1]
  {
    hide DecodeGroups, JoinX, JoinY, JoinZ;
    DecodeGroupsAt(blob, ROUNDS, m, k);
  }

  method DecodeFieldElement(blob: seq<Byte>, output: array<Byte>, outputPos: nat, inputPos: nat,
                            ghost m: nat, ghost j: nat)
    returns (r: Result<Byte, BlobError>, nextOutput: nat, nextInput: nat)
    requires ElementsCopied(output, blob, m, j) && FirstElement(m) <= j < 4
    requires outputPos == Base(m) + 32 * j && inputPos == 128 * m + 32 * j
    modifies output
    ensures r == if TopClear(LeadAt(blob, m, j)) then Ok(LeadAt(blob, m, j)) else Err(InvalidFieldElement)
    ensures r.Ok? ==> nextOutput == outputPos + 32 && nextInput == inputPos + 32
    ensures r.Ok? ==> ElementsCopied(output, blob, m, j + 1)
  {
    nextOutput, nextInput := outputPos, inputPos;
    var result := blob[inputPos];
    if !TopClear(result) {
      return Err(InvalidFieldElement), nextOutput, nextInput;
    }
    hide AllGroups;
    forall t | 0 <= t < 31 {
      output[outputPos + t] := blob[inputPos + 1 + t];
    }
    forall k | outputPos <= k < outputPos + 31 ensures output[k] == AllGroups(blob)[k + 4] {
      BodyInGroups(blob, m, k - Base(m));
      assert output[outputPos + (k - outputPos)] == blob[inputPos + 1 + (k - outputPos)];
    }
    return Ok(result), outputPos + 32, inputPos + 32;
  }

  ghost predicate LeadsRead(blob: seq<Byte>, m: nat, first: nat, j: nat, leads: seq<Byte>)
    requires |blob| == BYTES_PER_BLOB && m < ROUNDS && j <= 4 && |leads| == 4
  {
    forall i :: first <= i < j ==> leads[i] == LeadAt(blob, m, i)
  }

  /** Reads the field elements of one round, all but the very first one of the blob. */
  method DecodeFieldElements(blob: seq<Byte>, output: array<Byte>, outputPos: nat, inputPos: nat,
                             encodedByte: seq<Byte>, ghost m: nat, skip: nat)
    returns (r: Result<seq<Byte>, BlobError>, nextOutput: nat, nextInput: nat)
    requires |encodedByte| == 4 && skip == FirstElement(m)
    requires ElementsCopied(output, blob, m, skip)
    requires outputPos == Base(m) + 32 * skip && inputPos == 128 * m + 32 * skip
    modifies output
    ensures r.Ok? <==> RoundClear(blob, m)
    ensures r.Err? ==> r.error == InvalidFieldElement
    ensures r.Ok? ==> nextOutput == Base(m) + 128 && nextInput == 128 * (m + 1)
    ensures r.Ok? ==> |r.value| == 4 && r.value[..skip] == encodedByte[..skip]
    ensures r.Ok? ==> LeadsRead(blob, m, skip, 4, r.value) && ElementsCopied(output, blob, m, 4)
  {
    hide TopClear;
    nextOutput, nextInput := outputPos, inputPos;
    var leads, j := encodedByte, skip;
    while j < 4
      invariant skip <= j <= 4 && |leads| == 4 && leads[..skip] == encodedByte[..skip]
      invariant nextOutput == Base(m) + 32 * j && nextInput == 128 * m + 32 * j
      invariant ElementsCopied(output, blob, m, j) && LeadsRead(blob, m, skip, j, leads)
      invariant forall i :: skip <= i < j ==> TopClear(LeadAt(blob, m, i))
    {
      var byte;
      byte, nextOutput, nextInput := DecodeFieldElement(blob, output, nextOutput, nextInput, m, j);
      if byte.Err? {
        return Err(byte.error), nextOutput, nextInput;
      }
      leads := leads[j := byte.value];
      j := j + 1;
    }
    r := Ok(leads);
  }

  lemma {:induction false} SparesInGroups(blob: seq<Byte>, m: nat, leads: seq<Byte>)
    requires |blob| == BYTES_PER_BLOB && m < ROUNDS && |leads| == 4 && LeadsRead(blob, m, 0, 4, leads)
    ensures var q, at := AllGroups(blob), GROUP_SIZE * m;
            && q[at + 31] == JoinX(leads[0], leads[1])
            && q[at + 63] == JoinY(leads[1], leads[3])
            && q[at + 95] == JoinZ(leads[2], leads[3])
  {
    hide DecodeGroups, JoinX, JoinY, JoinZ;
    DecodeGroupsAt(blob, ROUNDS, m, 31);
    DecodeGroupsAt(blob, ROUNDS, m, 63);
    DecodeGroupsAt(blob, ROUNDS, m, 95);
    assert leads[0] == LeadAt(blob, m, 0) && leads[1] == LeadAt(blob, m, 1);
    assert leads[2] == LeadAt(blob, m, 2) && leads[3] == LeadAt(blob, m, 3);
  }

  /** Fills the holes of a round from its lead bytes. */
  method ReassembleBytes(output: array<Byte>, outputPos: nat, encodedByte: seq<Byte>,
                         blob: seq<Byte>, ghost m: nat)
    returns (next: nat)
    requires |encodedByte| == 4 && ElementsCopied(output, blob, m, 4)
    requires LeadsRead(blob, m, 0, 4, encodedByte) && outputPos == Base(m) + 128
    modifies output
    ensures next == Base(m + 1) && RoundsDone(output, blob, m + 1)
  {
    hide AllGroups, JoinX, JoinY, JoinZ;
    SparesInGroups(blob, m, encodedByte);
    next := outputPos - 1;
    var x := JoinX(encodedByte[0], encodedByte[1]);
    var y := JoinY(encodedByte[1], encodedByte[3]);
    var z := JoinZ(encodedByte[2], encodedByte[3]);
    output[next - 32] := z;
    output[next - 32 * 2] := y;
    output[next - 32 * 3] := x;
  }

  /** The first round: its first field element has no lead check and a shorter body. */
  method DecodeFirstRound(blob: seq<Byte>, output: array<Byte>)
    returns (r: Result<seq<Byte>, BlobError>, outputPos: nat, inputPos: nat)
    requires |blob| == BYTES_PER_BLOB && output.Length == MAX_BLOB_DATA_SIZE
    requires forall k :: 0 <= k < MAX_BLOB_DATA_SIZE ==> output[k] == 0
    modifies output
    ensures r.Ok? <==> RoundClear(blob, 0)
    ensures r.Err? ==> r.error == InvalidFieldElement
    ensures r.Ok? ==> |r.value| == 4 && outputPos == Base(1) && inputPos == 128
    ensures r.Ok? ==> RoundsDone(output, blob, 1)
  {
    hide AllGroups, RoundClear;
    forall k | 0 <= k < 27 {
      output[k] := blob[5 + k];
    }
    forall k | 0 <= k < 27 ensures output[k] == AllGroups(blob)[k + 4] {
      BodyInGroups(blob, 0, k + 4);
    }
    outputPos, inputPos := 28, 32;
    r, outputPos, inputPos :=
      DecodeFieldElements(blob, output, outputPos, inputPos, [blob[0], 0, 0, 0], 0, 1);
    if r.Err? {
      return;
    }
    assert r.value[0] == r.value[..1][0] == blob[0] == LeadAt(blob, 0, 0);
    outputPos := ReassembleBytes(output, outputPos, r.value, blob, 0);
  }

  // ---------- what the rounds say about the result ----------

  ghost predicate Admissible(blob: seq<Byte>) {
    |blob| == BYTES_PER_BLOB && blob[1] == ENCODING_VERSION && DeclaredLength(blob) <= MAX_BLOB_DATA_SIZE
  }

  // The check of one round, seen on the normalized blob.
  lemma {:induction false} RoundClearNormalized(blob: seq<Byte>, m: nat)
    requires |blob| == BYTES_PER_BLOB && m < ROUNDS
    ensures LeadsClear(Block(Normalized(blob), m)) <==> RoundClear(blob, m)
  {
    var b := Block(Normalized(blob), m);
    assert b[32] == LeadAt(blob, m, 1) && b[64] == LeadAt(blob, m, 2) && b[96] == LeadAt(blob, m, 3);
    if m == 0 {
      assert b[0] == Low6(blob[0]);
    } else {
      assert b[0] == LeadAt(blob, m, 0);
    }
  }

  lemma {:induction false} RoundRejected(blob: seq<Byte>, m: nat)
    requires Admissible(blob) && m < Rounds(DeclaredLength(blob)) && !RoundClear(blob, m)
    ensures Decoded(blob) == Err(InvalidFieldElement)
  {
    hide DecodeGroups, RoundClear, LeadsClear;
    RoundClearNormalized(blob, m);
  }

  lemma {:induction false} GroupsPrefix(blob: seq<Byte>, k: nat, n: nat)
    requires k <= n && 128 * n <= |blob|
    ensures DecodeGroups(blob, n)[..GROUP_SIZE * k] == DecodeGroups(blob, k)
  {
    hide DecodeGroup;
    if k < n {
      GroupsPrefix(blob, k, n - 1);
    }
  }

  lemma {:induction false} RoundsFinished(output: array<Byte>, blob: seq<Byte>, n: nat)
    requires Admissible(blob) && n == DeclaredLength(blob) && RoundsDone(output, blob, Rounds(n))
    requires forall m :: 0 <= m < Rounds(n) ==> RoundClear(blob, m)
    ensures Decoded(blob) ==
            if !AllZero(output[n..]) then Err(ExtraneousOutput((GROUP_SIZE * Rounds(n) - 4) / 32))
            else if !AllZero(blob[128 * Rounds(n)..]) then Err(ExtraneousInput(128 * Rounds(n)))
            else Ok(output[..n])
  {
    hide DecodeGroups, RoundClear, LeadsClear;
    var k := Rounds(n);
    var p := DecodeGroups(blob, k);
    forall m | 0 <= m < k ensures LeadsClear(Block(Normalized(blob), m)) {
      RoundClearNormalized(blob, m);
    }
    GroupsPrefix(blob, k, ROUNDS);
    assert forall i :: 0 <= i < |p| ==> p[i] == AllGroups(blob)[i];
    assert output[..n] == p[4..4 + n];
    SameTail(output[..], p, n);
  }

  // The zero check on the whole buffer only sees the rounds that were decoded.
  lemma {:induction false} SameTail(output: seq<Byte>, p: seq<Byte>, n: nat)
    requires n + 4 <= |p| <= |output| + 4
    requires forall i :: 0 <= i < |p| - 4 ==> output[i] == p[i + 4]
    requires forall i :: |p| - 4 <= i < |output| ==> output[i] == 0
    ensures AllZero(output[n..]) <==> AllZero(p[4 + n..])
  {
    if AllZero(output[n..]) {
      var tail := p[4 + n..];
      forall i | 0 <= i < |tail| ensures tail[i] == 0 {
        assert output[n..][i] == 0 && output[n + i] == p[n + i + 4];
      }
    }
    if AllZero(p[4 + n..]) {
      var tail := output[n..];
      forall i | 0 <= i < |tail| ensures tail[i] == 0 {
        assert n + i < |p| - 4 ==> output[n + i] == p[n + i + 4] == p[4 + n..][i];
      }
    }
  }

  method IsZeroFrom(s: seq<Byte>, start: nat) returns (zero: bool)
    requires start <= |s|
    ensures zero == AllZero(s[start..])
  {
    var i := start;
    while i < |s|
      invariant start <= i <= |s|
      invariant forall j :: start <= j < i ==> s[j] == 0
    {
      if s[i] != 0 {
        assert s[start..][i - start] != 0;
        return false;
      }
      i := i + 1;
    }
    return true;
  }

  lemma {:induction false} StartRound(output: array<Byte>, blob: seq<Byte>, m: nat)
    requires RoundsDone(output, blob, m) && m < ROUNDS
    ensures ElementsCopied(output, blob, m, 0)
  {}

  /** The rounds after the first, up to the declared length. */
  method DecodeLaterRounds(blob: seq<Byte>, output: array<Byte>, outputLen: nat,
                           firstBytes: seq<Byte>, firstOutput: nat, firstInput: nat)
    returns (error: Option<BlobError>, outputPos: nat, inputPos: nat)
    requires Admissible(blob) && outputLen == DeclaredLength(blob)
    requires |firstBytes| == 4 && firstOutput == Base(1) && firstInput == 128
    requires RoundsDone(output, blob, 1) && RoundClear(blob, 0)
    modifies output
    ensures error.Some? ==> Decoded(blob) == Err(error.value)
    ensures error.None? ==> RoundsDone(output, blob, Rounds(outputLen))
    ensures error.None? ==> forall m :: 0 <= m < Rounds(outputLen) ==> RoundClear(blob, m)
    ensures error.None? ==> outputPos == Base(Rounds(outputLen)) && inputPos == 128 * Rounds(outputLen)
  {
    hide Decoded, RoundsDone, RoundClear, LeadsRead;
    outputPos, inputPos := firstOutput, firstInput;
    var encodedByte, round := firstBytes, 1;
    while round < ROUNDS && outputPos < outputLen
      invariant 1 <= round <= Rounds(outputLen) && |encodedByte| == 4
      invariant outputPos == Base(round) && inputPos == 128 * round
      invariant RoundsDone(output, blob, round)
      invariant forall m :: 0 <= m < round ==> RoundClear(blob, m)
    {
      StartRound(output, blob, round);
      var read;
      read, outputPos, inputPos :=
        DecodeFieldElements(blob, output, outputPos, inputPos, encodedByte, round, 0);
      if read.Err? {
        RoundRejected(blob, round);
        return Some(read.error), outputPos, inputPos;
      }
      encodedByte := read.value;
      outputPos := ReassembleBytes(output, outputPos, encodedByte, blob, round);
      round := round + 1;
    }
    error := None;
  }

  /** Decodes one blob; never reads or writes out of range, whatever the blob holds. */
  method DecodeBlobData(blob: seq<Byte>) returns (r: Result<seq<Byte>, BlobError>)
    requires |blob| == BYTES_PER_BLOB
    ensures r == Decoded(blob)
  {
    var output := new Byte[MAX_BLOB_DATA_SIZE](_ => 0);
    if blob[1] != ENCODING_VERSION {
      return Err(InvalidVersion(ENCODING_VERSION, blob[1]));
    }
    var outputLen := LengthOf(blob[2], blob[3], blob[4]);
    if outputLen > MAX_BLOB_DATA_SIZE {
      return Err(InvalidLength(outputLen, MAX_BLOB_DATA_SIZE));
    }
    hide Decoded, RoundsDone, RoundClear;
    var first, outputPos, inputPos := DecodeFirstRound(blob, output);
    if first.Err? {
      RoundRejected(blob, 0);
      return Err(first.error);
    }
    var error;
    error, outputPos, inputPos :=
      DecodeLaterRounds(blob, output, outputLen, first.value, outputPos, inputPos);
    if error.Some? {
      return Err(error.value);
    }
    RoundsFinished(output, blob, outputLen);

    var zero := IsZeroFrom(output[..], outputLen);
    if !zero {
      return Err(ExtraneousOutput(outputPos / 32));
    }
    zero := IsZeroFrom(blob, inputPos);
    if !zero {
      return Err(ExtraneousInput(inputPos));
    }
    r := Ok(output[..outputLen]);
  }
}
