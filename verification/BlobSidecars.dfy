/**
 Data of any length as a list of blobs, and back. Also: every 32-byte field element the
 encoder writes is a canonical scalar, below the order of the BLS12-381 scalar field.
 */
module BlobSidecars {
  import opened Integers
  import opened Wrappers
  import opened BlobFormat
  import opened BlobDecoding
  import BlobEncoder
  import BlobDecoder

  /** A blob as fetched, with the versioned hash of its commitment. */
  datatype Sidecar = Sidecar(versionedHash: nat, blob: seq<Byte>)

  function ChunkSize(data: seq<Byte>): (n: nat)
    ensures n <= |data| && n <= MAX_BLOB_DATA_SIZE && (data != [] ==> n > 0)
  {
    if |data| <= MAX_BLOB_DATA_SIZE then |data| else MAX_BLOB_DATA_SIZE
  }

  /** One encoded blob per chunk of the data. */
  function EncodedChunks(data: seq<Byte>): (r: seq<seq<Byte>>)
    ensures forall b :: b in r ==> |b| == BYTES_PER_BLOB
  {
    if data == [] then []
    else [Encoded(data[..ChunkSize(data)])] + EncodedChunks(data[ChunkSize(data)..])
  }

  // Of how many chunks the data is made up.
  lemma {:induction false} ChunkCount(data: seq<Byte>)
    ensures |EncodedChunks(data)| == (|data| + MAX_BLOB_DATA_SIZE - 1) / MAX_BLOB_DATA_SIZE
    decreases |data|
  {
    hide Encoded, EncodedChunks;
    if data == [] {
      NoChunksLeft([]);
    } else {
      var n := ChunkSize(data);
      ChunksCons(data);
      ChunkCount(data[n..]);
      if n < |data| {
        OneMore(|data|, |data[n..]|);
      }
    }
  }

  lemma {:induction false} OneMore(size: nat, rest: nat)
    requires size == MAX_BLOB_DATA_SIZE + rest
    ensures (size + MAX_BLOB_DATA_SIZE - 1) / MAX_BLOB_DATA_SIZE == (rest + MAX_BLOB_DATA_SIZE - 1) / MAX_BLOB_DATA_SIZE + 1
  {}

  // Chunk `k` starts at `k` times the maximum size and takes that much, or what is left.
  lemma {:induction false} ChunkAt(data: seq<Byte>, k: nat)
    requires k < |EncodedChunks(data)|
    ensures MAX_BLOB_DATA_SIZE * k < |data|
    ensures EncodedChunks(data)[k] == Encoded(data[MAX_BLOB_DATA_SIZE * k..Min(MAX_BLOB_DATA_SIZE * (k + 1), |data|)])
    decreases k
  {
    hide Encoded, EncodedChunks;
    if data == [] {
      NoChunksLeft([]);
      assert false;
    }
    var n := ChunkSize(data);
    ChunksCons(data);
    if k > 0 {
      var rest := data[n..];
      ChunkAt(rest, k - 1);
      assert n == MAX_BLOB_DATA_SIZE;
      Shifted(data, n, MAX_BLOB_DATA_SIZE * (k - 1), Min(MAX_BLOB_DATA_SIZE * k, |rest|));
    }
  }

  lemma {:induction false} Shifted<T>(s: seq<T>, n: nat, from: nat, to: nat)
    requires n <= |s| && from <= to <= |s[n..]|
    ensures s[n..][from..to] == s[n + from..n + to]
  {}

  /** Never fails: every chunk fits in a blob, and every one but the last fills it. */
  method CreateBlobsFromData(data: seq<Byte>) returns (r: Result<seq<seq<Byte>>, BlobError>)
    ensures r == Ok(EncodedChunks(data))
    ensures |r.value| == (|data| + MAX_BLOB_DATA_SIZE - 1) / MAX_BLOB_DATA_SIZE
    ensures forall k :: 0 <= k < |r.value| ==>
              && MAX_BLOB_DATA_SIZE * k < |data|
              && r.value[k] == Encoded(data[MAX_BLOB_DATA_SIZE * k..Min(MAX_BLOB_DATA_SIZE * (k + 1), |data|)])
  {
    hide Encoded, EncodedChunks, ChunkSize;
    ChunkCount(data);
    forall k | 0 <= k < |EncodedChunks(data)|
      ensures MAX_BLOB_DATA_SIZE * k < |data|
      ensures EncodedChunks(data)[k] == Encoded(data[MAX_BLOB_DATA_SIZE * k..Min(MAX_BLOB_DATA_SIZE * (k + 1), |data|)])
    {
      ChunkAt(data, k);
    }
    var blobs, rest := [], data;
    assert [] + EncodedChunks(data) == EncodedChunks(data);
    while rest != []
      invariant blobs + EncodedChunks(rest) == EncodedChunks(data)
      decreases |rest|
    {
      var n := ChunkSize(rest);
      ChunksCons(rest);
      var blob := BlobEncoder.CreateBlobFromData(rest[..n]);
      if blob.Err? {
        assert false;
      }
      ConcatOne(blobs, blob.value, EncodedChunks(rest[n..]));
      blobs := blobs + [blob.value];
      rest := rest[n..];
    }
    NoChunksLeft(blobs);
    r := Ok(blobs);
  }

  lemma {:induction false} ConcatOne<T>(a: seq<T>, x: T, b: seq<T>)
    ensures a + ([x] + b) == a + [x] + b
  {}

  lemma {:induction false} NoChunksLeft(blobs: seq<seq<Byte>>)
    ensures blobs + EncodedChunks([]) == blobs
  {}

  // The blobs whose hash is asked for, in the order they were fetched.
  function Selected(blobs: seq<Sidecar>, hashes: set<nat>): (s: seq<seq<Byte>>)
    ensures (forall b :: b in blobs ==> |b.blob| == BYTES_PER_BLOB) ==>
              forall b :: b in s ==> |b| == BYTES_PER_BLOB
  {
    if blobs == [] then []
    else
      var rest := Selected(blobs[1..], hashes);
      if blobs[0].versionedHash in hashes then [blobs[0].blob] + rest else rest
  }

  /** The concatenated data of a list of blobs, or the first error. */
  function DecodedAll(blobs: seq<seq<Byte>>): Result<seq<Byte>, BlobError>
    requires forall b :: b in blobs ==> |b| == BYTES_PER_BLOB
  {
    if blobs == [] then Ok([])
    else
      var first := Decoded(blobs[0]);
      if first.Err? then first else Prepended(first.value, DecodedAll(blobs[1..]))
  }

  function Prepended(data: seq<Byte>, r: Result<seq<Byte>, BlobError>): Result<seq<Byte>, BlobError> {
    if r.Err? then r else Ok(data + r.value)
  }

  /** Decoding fails with the error of the first blob that fails, and only if one does. */
  lemma {:induction false} FirstErrorIff(blobs: seq<seq<Byte>>) returns (k: nat)
    requires forall b :: b in blobs ==> |b| == BYTES_PER_BLOB
    ensures k <= |blobs| && forall i :: 0 <= i < k ==> Decoded(blobs[i]).Ok?
    ensures DecodedAll(blobs).Ok? <==> k == |blobs|
    ensures k < |blobs| ==> DecodedAll(blobs) == Decoded(blobs[k]) && Decoded(blobs[k]).Err?
    decreases |blobs|
  {
    hide Decoded;
    if blobs == [] || Decoded(blobs[0]).Err? {
      k := 0;
    } else {
      k := FirstErrorIff(blobs[1..]);
      k := k + 1;
    }
  }

  method DecodeBlobsIntoBytes(blobs: seq<Sidecar>, hashes: set<nat>)
    returns (r: Result<seq<Byte>, BlobError>)
    requires forall b :: b in blobs ==> |b.blob| == BYTES_PER_BLOB
    ensures r == DecodedAll(Selected(blobs, hashes))
  {
    hide Decoded;
    var decoded, i := [], 0;
    assert blobs[0..] == blobs;
    PrependedNothing(DecodedAll(Selected(blobs, hashes)));
    while i < |blobs|
      invariant 0 <= i <= |blobs|
      invariant DecodedAll(Selected(blobs, hashes)) == Prepended(decoded, DecodedAll(Selected(blobs[i..], hashes)))
    {
      assert blobs[i..][1..] == blobs[i + 1..];
      if blobs[i].versionedHash in hashes {
        assert Selected(blobs[i..], hashes)[1..] == Selected(blobs[i + 1..], hashes);
        var data := BlobDecoder.DecodeBlobData(blobs[i].blob);
        if data.Err? {
          return Err(data.error);
        }
        PrependedTwice(decoded, data.value, DecodedAll(Selected(blobs[i + 1..], hashes)));
        decoded := decoded + data.value;
      }
      i := i + 1;
    }
    assert decoded + [] == decoded;
    r := Ok(decoded);
  }

  lemma {:induction false} PrependedNothing(r: Result<seq<Byte>, BlobError>)
    ensures Prepended([], r) == r
  {
    if r.Ok? {
      assert [] + r.value == r.value;
    }
  }

  lemma {:induction false} PrependedTwice(a: seq<Byte>, b: seq<Byte>, r: Result<seq<Byte>, BlobError>)
    ensures Prepended(a, Prepended(b, r)) == Prepended(a + b, r)
  {
    if r.Ok? {
      assert a + (b + r.value) == (a + b) + r.value;
    }
  }

  lemma {:induction false} DecodedFirst(b: seq<Byte>, rest: seq<seq<Byte>>)
    requires |b| == BYTES_PER_BLOB && forall r :: r in rest ==> |r| == BYTES_PER_BLOB
    ensures Decoded(b).Ok? ==> DecodedAll([b] + rest) == Prepended(Decoded(b).value, DecodedAll(rest))
  {
    hide Decoded;
    assert ([b] + rest)[1..] == rest;
  }

  /** Decoding inverts encoding for data of any length, cut into as many blobs as it needs. */
  lemma {:induction false} ChunksRoundTrip(data: seq<Byte>)
    ensures DecodedAll(EncodedChunks(data)) == Ok(data)
    decreases |data|
  {
    hide *;
    if data == [] {
      NoChunks();
    } else {
      var first, rest := data[..ChunkSize(data)], data[ChunkSize(data)..];
      ChunksCons(data);
      ChunksRoundTrip(rest);
      RoundTrip(first);
      DecodedFirst(Encoded(first), EncodedChunks(rest));
      PrependedOk(first, rest);
      assert first + rest == data;
    }
  }

  lemma {:induction false} NoChunks()
    ensures DecodedAll(EncodedChunks([])) == Ok([])
  {}

  lemma {:induction false} ChunksCons(data: seq<Byte>)
    requires data != []
    ensures var n := ChunkSize(data);
            EncodedChunks(data) == [Encoded(data[..n])] + EncodedChunks(data[n..])
  {
    hide Encoded;
  }

  lemma {:induction false} PrependedOk(a: seq<Byte>, b: seq<Byte>)
    ensures Prepended(a, Ok(b)) == Ok(a + b)
  {}

  // The blobs are `own`, in order, with foreign ones in between whose hashes are not asked for.
  ghost predicate Mixed(blobs: seq<Sidecar>, own: seq<Sidecar>, hashes: set<nat>)
    decreases |blobs|
  {
    if blobs == [] then own == []
    else
      || (own != [] && blobs[0] == own[0] && Mixed(blobs[1..], own[1..], hashes))
      || (blobs[0].versionedHash !in hashes && Mixed(blobs[1..], own, hashes))
  }

  function BlobsOf(sidecars: seq<Sidecar>): (r: seq<seq<Byte>>)
    ensures |r| == |sidecars|
  {
    seq(|sidecars|, i requires 0 <= i < |sidecars| => sidecars[i].blob)
  }

  predicate AllAskedFor(own: seq<Sidecar>, hashes: set<nat>) {
    forall i :: 0 <= i < |own| ==> own[i].versionedHash in hashes
  }

  lemma {:induction false} SelectedIsOwn(blobs: seq<Sidecar>, own: seq<Sidecar>, hashes: set<nat>)
    requires Mixed(blobs, own, hashes) && AllAskedFor(own, hashes)
    ensures Selected(blobs, hashes) == BlobsOf(own)
    decreases |blobs|
  {
    if blobs != [] {
      if blobs[0].versionedHash in hashes {
        assert own[0] in own;
        SelectedIsOwn(blobs[1..], own[1..], hashes);
        assert BlobsOf(own) == [own[0].blob] + BlobsOf(own[1..]);
      } else {
        assert own != [] ==> own[0].versionedHash in hashes;
        SelectedIsOwn(blobs[1..], own, hashes);
      }
    }
  }

  /**
   Whatever other blobs are mixed in, even undecodable ones, the blobs of some data are picked out by
   their hashes and give the data back.
   */
  lemma {:induction false} SidecarsRoundTrip(data: seq<Byte>, blobs: seq<Sidecar>, own: seq<Sidecar>, hashes: set<nat>)
    requires forall b :: b in blobs ==> |b.blob| == BYTES_PER_BLOB
    requires BlobsOf(own) == EncodedChunks(data) && AllAskedFor(own, hashes)
    requires Mixed(blobs, own, hashes)
    ensures DecodedAll(Selected(blobs, hashes)) == Ok(data)
  {
    hide EncodedChunks, DecodedAll, Encoded, Decoded;
    SelectedIsOwn(blobs, own, hashes);
    ChunksRoundTrip(data);
  }

  // ---------- field elements are scalars ----------

  /** The big-endian value of some bytes. */
  function Value(s: seq<Byte>): nat {
    if s == [] then 0 else Value(s[..|s| - 1]) * 0x100 + s[|s| - 1]
  }

  function Pow256(n: nat): (p: nat)
    ensures p >= 1
  {
    if n == 0 then 1 else 0x100 * Pow256(n - 1)
  }

  lemma {:induction false} Pow256Sum(a: nat, b: nat)
    ensures Pow256(a + b) == Pow256(a) * Pow256(b)
  {
    if a > 0 {
      Pow256Sum(a - 1, b);
    }
  }

  lemma {:induction false} Pow256Of31()
    ensures Pow256(31) == 0x100000000000000000000000000000000000000000000000000000000000000
  {
    Pow256Sum(1, 1);
    Pow256Sum(2, 1);
    Pow256Sum(3, 4);
    Pow256Sum(2, 2);
    Pow256Sum(7, 8);
    Pow256Sum(4, 4);
    Pow256Sum(15, 16);
    Pow256Sum(8, 8);
  }

  lemma {:induction false} ValueBelow(s: seq<Byte>, lead: nat)
    requires |s| > 0 && s[0] < lead
    ensures Value(s) < lead * Pow256(|s| - 1)
  {
    if |s| > 1 {
      var t := s[..|s| - 1];
      ValueBelow(t, lead);
      assert Value(s) < (Value(t) + 1) * 0x100 <= lead * Pow256(|t| - 1) * 0x100;
      assert lead * Pow256(|t| - 1) * 0x100 == lead * Pow256(|s| - 1);
    } else {
      assert Value(s[..0]) == 0;
    }
  }

  lemma {:induction false} LeadIsClear(data: seq<Byte>, i: nat)
    requires |data| <= MAX_BLOB_DATA_SIZE && i < 4 * ROUNDS
    ensures TopClear(Encoded(data)[32 * i])
  {
    hide Encoded, TopClear;
    var round, j := i / 4, i % 4;
    assert 32 * i == 128 * round + 32 * j;
    BlobEncoder.EncodedLeads(data, round);
  }

  lemma {:induction false} ScalarBelow(fe: seq<Byte>)
    requires |fe| == 32 && TopClear(fe[0])
    ensures Value(fe) < BLS_MODULUS
  {
    hide Value, Pow256;
    ValueBelow(fe, 0x40);
    Pow256Of31();
  }

  /** Each of the 4096 field elements of an encoding is below BLS_MODULUS. */
  lemma {:induction false} FieldElementsAreScalars(data: seq<Byte>, i: nat)
    requires |data| <= MAX_BLOB_DATA_SIZE && i < 4 * ROUNDS
    ensures Value(Encoded(data)[32 * i..32 * i + 32]) < BLS_MODULUS
  {
    hide Encoded, Value, TopClear;
    LeadIsClear(data, i);
    ScalarBelow(Encoded(data)[32 * i..32 * i + 32]);
  }
}
