/**
 What decoding a blob means, and the main theorem of the codec: decoding succeeds with
 `data` exactly on the encoding of `data`, up to the two bits of byte 0 that the decoder
 never looks at.
 */
module BlobDecoding {
  import opened Wrappers
  import opened BlobFormat

  /** How many groups the decoder visits for a payload of n bytes: at least one. */
  function Rounds(n: nat): (k: nat)
    requires n <= MAX_BLOB_DATA_SIZE
    ensures 1 <= k <= ROUNDS
    ensures n + 4 <= GROUP_SIZE * k
    ensures k == 1 || GROUP_SIZE * (k - 1) < n + 4
  {
    if n + 4 <= GROUP_SIZE then 1 else (n + 4 + GROUP_SIZE - 1) / GROUP_SIZE
  }

  /** The length a blob declares. */
  function DeclaredLength(blob: seq<Byte>): nat
    requires |blob| == BYTES_PER_BLOB
  {
    LengthOf(blob[2], blob[3], blob[4])
  }

  // Byte 0 with the two bits dropped that the decoder ignores.
  function Normalized(blob: seq<Byte>): (b: seq<Byte>)
    requires |blob| == BYTES_PER_BLOB
    ensures |b| == BYTES_PER_BLOB
  {
    blob[0 := Low6(blob[0])]
  }

  /** The result of decoding, with the error that is reported first. */
  function Decoded(blob: seq<Byte>): Result<seq<Byte>, BlobError>
    requires |blob| == BYTES_PER_BLOB
  {
    var n := DeclaredLength(blob);
    if blob[1] != ENCODING_VERSION then Err(InvalidVersion(ENCODING_VERSION, blob[1]))
    else if n > MAX_BLOB_DATA_SIZE then Err(InvalidLength(n, MAX_BLOB_DATA_SIZE))
    else
      var k := Rounds(n);
      if !AllLeadsClear(Normalized(blob), k) then Err(InvalidFieldElement)
      else
        var p := DecodeGroups(blob, k);
        if !AllZero(p[4 + n..]) then Err(ExtraneousOutput((GROUP_SIZE * k - 4) / 32))
        else if !AllZero(blob[128 * k..]) then Err(ExtraneousInput(128 * k))
        else Ok(p[4..4 + n])
  }

  // ---------- decoding an encoding ----------

  lemma {:induction false} PayloadParts(data: seq<Byte>)
    requires |data| <= MAX_BLOB_DATA_SIZE
    ensures var p := Payload(data);
            && p[0] == ENCODING_VERSION
            && LengthOf(p[1], p[2], p[3]) == |data|
            && p[4..4 + |data|] == data
            && AllZero(p[4 + |data|..])
  {
    LengthOfLengthBytes(|data|);
  }

  /** The head of an encoding carries the head of its payload, one position later. */
  lemma {:induction false} EncodedHead(data: seq<Byte>, k: nat)
    requires |data| <= MAX_BLOB_DATA_SIZE && k < 4
    ensures Encoded(data)[1 + k] == Payload(data)[k]
  {
    hide EncodeGroups, Payload, Lead0, Lead1, Lead2, Lead3;
    EncodeGroupsAt(Payload(data), ROUNDS, 0, 1 + k);
  }

  lemma {:induction false} EncodedParts(data: seq<Byte>, k: nat)
    requires |data| <= MAX_BLOB_DATA_SIZE && k == Rounds(|data|)
    ensures var e := Encoded(data);
            && e[..128 * k] == EncodeGroups(Payload(data), k)
            && DecodeGroups(e, k) == Payload(data)[..GROUP_SIZE * k]
            && AllLeadsClear(e, k)
            && AllZero(e[128 * k..])
  {
    hide EncodeGroups, DecodeGroups, Payload, AllLeadsClear;
    var e, p := Encoded(data), Payload(data);
    PayloadParts(data);
    assert p[GROUP_SIZE * k..] == p[4 + |data|..][GROUP_SIZE * k - (4 + |data|)..];
    EncodeZeroTail(p, k, ROUNDS);
    assert e[..128 * k] == EncodeGroups(p, k) && e[128 * k..] == Zeros(128 * (ROUNDS - k));
    DecodeEncodeGroups(p, e, k);
  }

  /** The two dropped bits of byte 0 do not reach the output. */
  lemma {:induction false} DecodeGroupsNormalized(blob: seq<Byte>, k: nat)
    requires |blob| == BYTES_PER_BLOB && k <= ROUNDS
    ensures DecodeGroups(Normalized(blob), k) == DecodeGroups(blob, k)
  {
    if k > 0 {
      DecodeGroupsNormalized(blob, k - 1);
      var a, b := Block(Normalized(blob), k - 1), Block(blob, k - 1);
      assert a[1..] == b[1..] by {
        assert forall i :: 1 <= i < 128 ==> a[i] == b[i];
      }
      assert a[0] == b[0] || a[0] == Low6(b[0]);
      DecodeGroupIgnoresTop(a, b);
    }
  }

  lemma {:induction false} DecodeGroupIgnoresTop(a: seq<Byte>, b: seq<Byte>)
    requires |a| == |b| == 128 && a[1..] == b[1..]
    requires a[0] == b[0] || a[0] == Low6(b[0])
    ensures DecodeGroup(a) == DecodeGroup(b)
  {
    assert Low6(Low6(b[0])) == Low6(b[0]);
    assert forall i :: 1 <= i < 128 ==> a[i] == a[1..][i - 1] == b[1..][i - 1] == b[i];
  }

  /** If byte 0 is normalized, decoding sees the same blob. */
  lemma {:induction false} DecodesEncoding(blob: seq<Byte>, data: seq<Byte>)
    requires |blob| == BYTES_PER_BLOB && |data| <= MAX_BLOB_DATA_SIZE
    requires Normalized(blob) == Encoded(data)
    ensures Decoded(blob) == Ok(data)
  {
    hide EncodeGroups, DecodeGroups, AllLeadsClear, Encoded, Payload, Low6;
    var e, p, n := Encoded(data), Payload(data), |data|;
    var k := Rounds(n);
    assert forall i :: 1 <= i < BYTES_PER_BLOB ==> blob[i] == e[i];
    assert blob[1] == p[0] && blob[2] == p[1] && blob[3] == p[2] && blob[4] == p[3] by {
      EncodedHead(data, 0);
      EncodedHead(data, 1);
      EncodedHead(data, 2);
      EncodedHead(data, 3);
    }
    PayloadParts(data);
    EncodedParts(data, k);
    DecodeGroupsNormalized(blob, k);
    var q := DecodeGroups(blob, k);
    assert q == p[..GROUP_SIZE * k];
    assert q[4 + n..] == p[4 + n..][..GROUP_SIZE * k - (4 + n)];
    assert q[4..4 + n] == p[4..4 + n];
    assert blob[128 * k..] == e[128 * k..];
  }

  // ---------- encoding what was decoded ----------

  /** Whatever the decoder accepts is the encoding of its output. */
  lemma {:induction false} EncodesDecoding(blob: seq<Byte>)
    requires |blob| == BYTES_PER_BLOB && Decoded(blob).Ok?
    ensures var data := Decoded(blob).value;
            |data| <= MAX_BLOB_DATA_SIZE && Encoded(data) == Normalized(blob)
  {
    hide EncodeGroups, DecodeGroups, AllLeadsClear, Low6;
    var n := DeclaredLength(blob);
    var k := Rounds(n);
    var b, data := Normalized(blob), Decoded(blob).value;
    var q, p := DecodeGroups(blob, k), Payload(data);
    DecodeGroupsNormalized(blob, k);
    assert q[..4] == Header(n) by {
      DecodedHead(blob, k);
      LengthBytesOfLengthOf(blob[2], blob[3], blob[4]);
    }
    assert q == p[..GROUP_SIZE * k] by {
      assert q == q[..4] + q[4..4 + n] + q[4 + n..];
    }
    EncodedParts(data, k);
    EncodeDecodeGroups(b, k);
    EncodeGroupsPrefix(q, p, k);
    assert b[128 * k..] == blob[128 * k..];
    assert Encoded(data)[128 * k..] == b[128 * k..];
    assert Encoded(data) == Encoded(data)[..128 * k] + Encoded(data)[128 * k..];
    assert b == b[..128 * k] + b[128 * k..];
  }

  lemma {:induction false} DecodedHead(blob: seq<Byte>, k: nat)
    requires |blob| == BYTES_PER_BLOB && 1 <= k <= ROUNDS
    ensures DecodeGroups(blob, k)[..4] == blob[1..5]
  {
    hide JoinX, JoinY, JoinZ, DecodeGroups;
    forall i | 0 <= i < 4 ensures DecodeGroups(blob, k)[i] == blob[1 + i] {
      DecodeGroupsAt(blob, k, 0, i);
    }
  }

  // ---------- main results ----------

  /**
   Decoding succeeds with `data` exactly when the blob is the encoding of `data`, byte 0
   taken without its two highest bits. Both the round trip and canonicity follow.
   */
  lemma {:induction false} DecodedIff(blob: seq<Byte>, data: seq<Byte>)
    requires |blob| == BYTES_PER_BLOB
    ensures Decoded(blob) == Ok(data) <==>
            |data| <= MAX_BLOB_DATA_SIZE && Encoded(data) == Normalized(blob)
  {
    if |data| <= MAX_BLOB_DATA_SIZE && Encoded(data) == Normalized(blob) {
      DecodesEncoding(blob, data);
    }
    if Decoded(blob) == Ok(data) {
      EncodesDecoding(blob);
    }
  }

  /** Decoding inverts encoding, for every length that fits in a blob. */
  lemma {:induction false} RoundTrip(data: seq<Byte>)
    requires |data| <= MAX_BLOB_DATA_SIZE
    ensures Decoded(Encoded(data)) == Ok(data)
  {
    hide Encoded, Decoded, DecodeGroups, EncodeGroups, Payload;
    var e, k := Encoded(data), Rounds(|data|);
    assert AllLeadsClear(e, k) by { EncodedParts(data, k); }
    assert LeadsClear(Block(e, 0)) && Block(e, 0)[0] == e[0];
    assert Normalized(e) == e;
    DecodesEncoding(e, data);
  }

  /**
   A blob that decodes is reproduced by encoding its data if and only if byte 0 has its two
   highest bits clear. The decoder loads that byte without the check every other lead byte gets.
   */
  lemma {:induction false} CanonicalIff(blob: seq<Byte>)
    requires |blob| == BYTES_PER_BLOB && Decoded(blob).Ok?
    ensures |Decoded(blob).value| <= MAX_BLOB_DATA_SIZE
    ensures Encoded(Decoded(blob).value) == blob <==> TopClear(blob[0])
  {
    hide Decoded, Encoded;
    EncodesDecoding(blob);
    assert Normalized(blob) == blob <==> Low6(blob[0]) == blob[0];
  }

  /** The missing check is reachable: an accepted blob that is not its own re-encoding. */
  lemma {:induction false} NotCanonical()
    ensures var blob := Zeros(BYTES_PER_BLOB)[0 := 0x40];
            Decoded(blob) == Ok([]) && Encoded([]) != blob
  {
    hide EncodeGroups;
    var zeros := Zeros(BYTES_PER_BLOB);
    var blob := zeros[0 := 0x40];
    var p := Payload([]);
    assert AllZero(p[GROUP_SIZE * 0..]);
    EncodeZeroTail(p, 0, ROUNDS);
    assert EncodeGroups(p, 0) == [];
    assert Normalized(blob) == zeros;
    DecodesEncoding(blob, []);
  }

  // ---------- where things are, and what is rejected ----------

  // The byte stands in the clear in its group, not cut into the lead bytes.
  predicate InTheClear(position: nat) {
    position % GROUP_SIZE != 31 && position % GROUP_SIZE != 63 && position % GROUP_SIZE != 95
  }

  /**
   An encoding starts with the version and the length after its first byte, and every byte of the data that is not one of
   the three spare ones of its group stands in the clear, one place further for each group.
   */
  lemma {:induction false} Layout(data: seq<Byte>, d: nat)
    requires |data| <= MAX_BLOB_DATA_SIZE
    ensures var e := Encoded(data);
            var high: nat, middle: nat, low: nat := e[2], e[3], e[4];
            && e[1] == 0 && high * 0x10000 + middle * 0x100 + low == |data|
            && (d < |data| && InTheClear(d + 4) ==>
                  128 * ((d + 4) / GROUP_SIZE) + (d + 4) % GROUP_SIZE + 1 < BYTES_PER_BLOB
                  && e[128 * ((d + 4) / GROUP_SIZE) + (d + 4) % GROUP_SIZE + 1] == data[d])
  {
    hide EncodeGroups, Payload, Lead0, Lead1, Lead2, Lead3;
    EncodedHead(data, 0);
    EncodedHead(data, 1);
    EncodedHead(data, 2);
    EncodedHead(data, 3);
    PayloadParts(data);
    if d < |data| && InTheClear(d + 4) {
      var p, i, r := Payload(data), (d + 4) / GROUP_SIZE, (d + 4) % GROUP_SIZE;
      assert p[d + 4] == p[4..4 + |data|][d];
      EncodeGroupsAt(p, ROUNDS, i, r + 1);
      assert Group(p, i)[r] == p[GROUP_SIZE * i + r];
    }
  }

  /** The three spare bytes of a group are in its four lead bytes: six bits, four and two, six, two and four. */
  lemma {:induction false} LeadLayout(data: seq<Byte>, i: nat)
    requires |data| <= MAX_BLOB_DATA_SIZE && i < ROUNDS
    ensures var e, g := Encoded(data), Group(Payload(data), i);
            var x: nat, y: nat, z: nat := g[31], g[63], g[95];
            && e[128 * i] == x % 0x40 && e[128 * i + 32] == x / 0x40 * 0x10 + y % 0x10
            && e[128 * i + 64] == z % 0x40 && e[128 * i + 96] == z / 0x40 * 0x10 + y / 0x10
  {
    hide EncodeGroups, Payload;
    var p := Payload(data);
    EncodeGroupsAt(p, ROUNDS, i, 0);
    EncodeGroupsAt(p, ROUNDS, i, 32);
    EncodeGroupsAt(p, ROUNDS, i, 64);
    EncodeGroupsAt(p, ROUNDS, i, 96);
  }

  // A lead byte that the decoder visits and checks has one of its two highest bits set.
  predicate LeadSet(blob: seq<Byte>, i: nat)
    requires |blob| == BYTES_PER_BLOB && i < 4 * ROUNDS
  {
    blob[32 * i] >= 0x40
  }

  /**
   Which error a blob is rejected with: its version first, then its length, then any lead byte but the first with one of
   its two highest bits set; what is left is data beyond the declared length.
   */
  lemma {:induction false} RejectedIff(blob: seq<Byte>)
    requires |blob| == BYTES_PER_BLOB
    ensures var r, n := Decoded(blob), DeclaredLength(blob);
            var versionOk, lengthOk := blob[1] == 0, n <= MAX_BLOB_DATA_SIZE;
            && (r == Err(InvalidVersion(0, blob[1])) <==> !versionOk)
            && (r == Err(InvalidLength(n, MAX_BLOB_DATA_SIZE)) <==> versionOk && !lengthOk)
            && (r == Err(InvalidFieldElement) <==>
                  versionOk && lengthOk && exists i: nat :: 0 < i < 4 * Rounds(n) && LeadSet(blob, i))
  {
    hide DecodeGroups;
    var n := DeclaredLength(blob);
    if n <= MAX_BLOB_DATA_SIZE {
      LeadsClearIff(blob, Rounds(n));
    }
    hide AllLeadsClear, LeadSet, Normalized;
  }

  lemma {:induction false} LeadsClearIff(blob: seq<Byte>, k: nat)
    requires |blob| == BYTES_PER_BLOB && k <= ROUNDS
    ensures AllLeadsClear(Normalized(blob), k) <==> !exists i: nat :: 0 < i < 4 * k && LeadSet(blob, i)
  {
    var b := Normalized(blob);
    hide Normalized, LeadsClear, LeadSet;
    if AllLeadsClear(b, k) {
      forall i: nat | 0 < i < 4 * k ensures !LeadSet(blob, i) {
        LeadsOfBlock(blob, i / 4);
        assert LeadsClear(Block(b, i / 4));
        assert i == 4 * (i / 4) + i % 4;
      }
    }
    if !exists i: nat :: 0 < i < 4 * k && LeadSet(blob, i) {
      forall j | 0 <= j < k ensures LeadsClear(Block(b, j)) {
        LeadsOfBlock(blob, j);
        assert j > 0 ==> !LeadSet(blob, 4 * j);
      }
    }
  }

  lemma {:induction false} LeadsOfBlock(blob: seq<Byte>, j: nat)
    requires |blob| == BYTES_PER_BLOB && j < ROUNDS
    ensures LeadsClear(Block(Normalized(blob), j)) <==>
            && (j > 0 ==> !LeadSet(blob, 4 * j))
            && !LeadSet(blob, 4 * j + 1) && !LeadSet(blob, 4 * j + 2) && !LeadSet(blob, 4 * j + 3)
  {
    var b := Block(Normalized(blob), j);
    assert b[32] == blob[128 * j + 32] && b[64] == blob[128 * j + 64] && b[96] == blob[128 * j + 96];
    assert j > 0 ==> b[0] == blob[128 * j];
  }
}
