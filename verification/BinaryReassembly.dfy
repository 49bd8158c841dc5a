/** Chunk reassembly of edge_extension/service-worker.js (omaResolveBinarySet). */
module BinaryReassembly {
  import opened Basics
  import Base64

  const MAX_REFS: nat := 4
  const MAX_ASSET_BYTES: int := 20 * 1024 * 1024
  const MAX_CHUNK_BYTES: int := 65536

  /** The slice encoded at a time; a multiple of three. */
  const SLICE: nat := 32766

  /** An attachment descriptor of a job. */
  datatype Ref = Ref(assetId: string, bytes: int, digest: Digest, mime: string)

  /** What the relay answers to a chunk request: nothing when the request throws; otherwise
      the part number, the byte count and the digest it states, and what atob makes of the
      base64 it carries (None when atob throws). */
  datatype Reply = Unavailable | Chunk(part: int, bytes: int, raw: Option<Bytes>, digest: Digest)

  datatype Failure = OutsideQuota | BadDescriptor | BadChunk | ChunkChanged | ContentChanged | RelayFailed

  datatype Resolved = Resolved(ref: Ref, dataUrl: string)

  /** web-asset- followed by 32 lower-case hexadecimal digits. */
  predicate AssetId(id: string) {
    |id| == 42 && id[..10] == "web-asset-" && forall i :: 10 <= i < 42 ==> '0' <= id[i] <= '9' || 'a' <= id[i] <= 'f'
  }

  predicate GoodDescriptor(ref: Ref) {
    1 <= ref.bytes <= MAX_ASSET_BYTES && AssetId(ref.assetId)
  }

  /** A reply that may be used as part number `part`. */
  predicate GoodChunk(c: Reply, part: nat) {
    c.Chunk? && c.part == part && 1 <= c.bytes <= MAX_CHUNK_BYTES
    && c.raw.Some? && |c.raw.value| == c.bytes && c.digest == Sha256(c.raw.value)
  }

  /** The bytes of the first `n` parts, joined in order. */
  function Parts(fetch: nat -> Reply, n: nat): Bytes
    requires forall i :: 0 <= i < n ==> GoodChunk(fetch(i), i)
  {
    if n == 0 then [] else
      assert GoodChunk(fetch(n - 1), n - 1);
      Parts(fetch, n - 1) + fetch(n - 1).raw.value
  }

  /** `bytes` is the concatenation of contiguous parts 0, 1, 2, ... of the relay's replies. */
  ghost predicate Assembled(fetch: nat -> Reply, bytes: Bytes, n: nat) {
    (forall i :: 0 <= i < n ==> GoodChunk(fetch(i), i)) && bytes == Parts(fetch, n)
  }

  // ---------------------------------------------------------------- what the numbers say

  /** A descriptor that may be resolved: 1 byte to 20 MiB under an identifier of the relay. */
  predicate Admitted(ref: Ref) {
    && 1 <= ref.bytes <= 20971520 && |ref.assetId| == 42 && ref.assetId[..10] == "web-asset-"
    && forall i :: 10 <= i < 42 ==> ('0' <= ref.assetId[i] <= '9' || 'a' <= ref.assetId[i] <= 'f')
  }

  /** A reply to the request for a part that cannot be used, whatever came before it. */
  predicate Malformed(c: Reply, part: nat) {
    c.Chunk? && (c.part != part || c.bytes < 1 || c.bytes > 65536 || c.raw == None)
  }

  /** A reply whose bytes are not those it declares, or too many after `have` bytes. */
  predicate Changed(c: Reply, part: nat, have: nat, total: int) {
    && c.Chunk? && !Malformed(c, part)
    && (|c.raw.value| != c.bytes || have + |c.raw.value| > total || c.digest != Sha256(c.raw.value))
  }

  /** A reply that is used: neither malformed nor changed. */
  predicate Usable(c: Reply, part: nat) {
    c.Chunk? && !Malformed(c, part) && |c.raw.value| == c.bytes && c.digest == Sha256(c.raw.value)
  }

  lemma AdmittedIff(ref: Ref)
    ensures Admitted(ref) <==> GoodDescriptor(ref)
  {
  }

  /** The relay holds the asset: its first parts, for some number of them, are usable and join
      to bytes of the declared length and digest. */
  ghost predicate Held(ref: Ref, fetch: nat -> Reply) {
    exists n: nat, bytes: Bytes :: Assembled(fetch, bytes, n) && |bytes| == ref.bytes && Sha256(bytes) == ref.digest
  }

  /** Fewer parts join to fewer bytes. */
  lemma {:induction false} PartsGrow(fetch: nat -> Reply, n: nat, m: nat)
    requires n <= m && forall i :: 0 <= i < m ==> GoodChunk(fetch(i), i)
    ensures |Parts(fetch, n)| + (m - n) <= |Parts(fetch, m)|
    decreases m
  {
    if n < m {
      assert GoodChunk(fetch(m - 1), m - 1);
      PartsGrow(fetch, n, m - 1);
    }
  }

  /** The next part is not usable, or would bring too many bytes. */
  predicate Blocked(fetch: nat -> Reply, n: nat, total: int)
    requires forall i :: 0 <= i < n ==> GoodChunk(fetch(i), i)
  {
    |Parts(fetch, n)| < total && (GoodChunk(fetch(n), n) ==> total < |Parts(fetch, n + 1)|)
  }

  lemma NoOtherNumber(fetch: nat -> Reply, n: nat, m: nat, total: int)
    requires forall i :: 0 <= i < n ==> GoodChunk(fetch(i), i)
    requires forall i :: 0 <= i < m ==> GoodChunk(fetch(i), i)
    ensures Blocked(fetch, n, total) ==> |Parts(fetch, m)| != total
    ensures |Parts(fetch, n)| == total ==> |Parts(fetch, m)| != total || m == n
  {
    hide GoodChunk, Parts;
    if m <= n {
      PartsGrow(fetch, m, n);
    } else {
      PartsGrow(fetch, n, m);
      PartsGrow(fetch, n + 1, m);
    }
  }

  /** Where the loop stops without the asset, the relay does not hold it. */
  lemma NotHeld(ref: Ref, fetch: nat -> Reply, n: nat)
    requires forall i :: 0 <= i < n ==> GoodChunk(fetch(i), i)
    requires Blocked(fetch, n, ref.bytes) || (|Parts(fetch, n)| == ref.bytes && Sha256(Parts(fetch, n)) != ref.digest)
    ensures !Held(ref, fetch)
  {
    hide GoodChunk, Parts;
    if Held(ref, fetch) {
      var m: nat, bytes: Bytes :| Assembled(fetch, bytes, m) && |bytes| == ref.bytes && Sha256(bytes) == ref.digest;
      NoOtherNumber(fetch, n, m, ref.bytes);
    }
  }

  /** The inner loop: request parts until the declared size is reached. Every chunk brings at
      least one byte, so it stops after at most as many requests as there are bytes. */
  method Reassemble(ref: Ref, fetch: nat -> Reply) returns (r: Result<Bytes, Failure>, ghost n: nat)
    requires GoodDescriptor(ref)
    ensures r.Ok? <==> Held(ref, fetch)
    ensures r.Ok? ==> |r.value| == ref.bytes && Assembled(fetch, r.value, n) && Sha256(r.value) == ref.digest
    ensures n <= ref.bytes
    ensures forall i :: 0 <= i < n ==> GoodChunk(fetch(i), i) && Usable(fetch(i), i)
    ensures r.Err? ==> match r.error
      case RelayFailed => |Parts(fetch, n)| < ref.bytes && fetch(n) == Unavailable
      case BadChunk => |Parts(fetch, n)| < ref.bytes && Malformed(fetch(n), n)
      case ChunkChanged => |Parts(fetch, n)| < ref.bytes && Changed(fetch(n), n, |Parts(fetch, n)|, ref.bytes)
      case ContentChanged => |Parts(fetch, n)| == ref.bytes && Sha256(Parts(fetch, n)) != ref.digest
      case _ => false
  {
    var bytes := new Byte[ref.bytes](_ => 0);
    var offset, part: nat := 0, 0;
    while offset < ref.bytes
      invariant part <= offset <= ref.bytes
      invariant Assembled(fetch, bytes[..offset], part)
    {
      n := part;
      var chunk := fetch(part);
      if chunk.Unavailable? {
        NotHeld(ref, fetch, n);
        return Err(RelayFailed), n;
      }
      if chunk.part != part || chunk.bytes < 1 || chunk.bytes > MAX_CHUNK_BYTES || chunk.raw.None? {
        NotHeld(ref, fetch, n);
        return Err(BadChunk), n;
      }
      var raw := chunk.raw.value;
      if |raw| != chunk.bytes || offset + |raw| > ref.bytes || chunk.digest != Sha256(raw) {
        NotHeld(ref, fetch, n);
        return Err(ChunkChanged), n;
      }
      ghost var done := bytes[..offset];
      forall i | 0 <= i < |raw| {
        bytes[offset + i] := raw[i];
      }
      assert bytes[..offset + |raw|] == done + raw;
      offset := offset + |raw|;
      part := part + 1;
    }
    n := part;
    assert bytes[..] == bytes[..offset];
    if Sha256(bytes[..]) != ref.digest {
      NotHeld(ref, fetch, n);
      return Err(ContentChanged), n;
    }
    r := Ok(bytes[..]);
  }

  /** The second loop: encode slice by slice and join. The result is the encoding of the whole. */
  method EncodeBySlices(bytes: Bytes) returns (r: string)
    ensures r == Base64.Encode(bytes)
  {
    hide Base64.Encode;
    r := "";
    var offset := 0;
    assert Base64.Encode([]) == "" by {
      Base64.EncodeNothing();
    }
    while offset < |bytes|
      invariant 0 <= offset && (offset < |bytes| ==> offset % 3 == 0)
      invariant r == Base64.Encode(bytes[..if offset < |bytes| then offset else |bytes|])
    {
      var end := if offset + SLICE < |bytes| then offset + SLICE else |bytes|;
      NextSlice(bytes, offset, end);
      r := r + Base64.Encode(bytes[offset..end]);
      offset := offset + SLICE;
    }
    assert bytes[..|bytes|] == bytes;
  }

  lemma NextSlice(bytes: Bytes, offset: nat, end: nat)
    requires offset <= end <= |bytes| && offset % 3 == 0
    ensures Base64.Encode(bytes[..end]) == Base64.Encode(bytes[..offset]) + Base64.Encode(bytes[offset..end])
  {
    Base64.EncodeConcat(bytes[..offset], bytes[offset..end]);
    assert bytes[..offset] + bytes[offset..end] == bytes[..end];
  }

  /** The data URL of an asset. */
  function DataUrl(mime: string, bytes: Bytes): string {
    "data:" + mime + ";base64," + Base64.Encode(bytes)
  }

  /** Each descriptor before `k` is admitted, and the relay holds its asset. */
  ghost predicate Obtained(refs: seq<Ref>, fetch: (string, nat) -> Reply, k: nat)
    requires k <= |refs|
  {
    forall i :: 0 <= i < k ==> Admitted(refs[i]) && Held(refs[i], (part: nat) => fetch(refs[i].assetId, part))
  }

  /** The first descriptor in the way, and what is wrong with it. */
  ghost predicate StopsAt(refs: seq<Ref>, fetch: (string, nat) -> Reply, i: nat, why: Failure)
    requires i < |refs|
  {
    && Obtained(refs, fetch, i) && (why == BadDescriptor <==> !Admitted(refs[i]))
    && (Admitted(refs[i]) ==> !Held(refs[i], (part: nat) => fetch(refs[i].assetId, part)))
  }

  /** Every resolved asset stands for its descriptor: its data URL encodes bytes of the
      declared length and digest. */
  ghost predicate Faithful(ref: Ref, r: Resolved) {
    && r.ref == ref && GoodDescriptor(ref)
    && exists bytes :: |bytes| == ref.bytes && Sha256(bytes) == ref.digest && r.dataUrl == DataUrl(ref.mime, bytes)
  }

  /** omaResolveBinarySet. The relay's reply depends on the asset and the part. The set is
      resolved exactly when there are at most four descriptors, all admitted, and the relay
      holds every asset; otherwise the first one in the way says why. */
  method ResolveBinarySet(refs: seq<Ref>, fetch: (string, nat) -> Reply)
    returns (r: Result<seq<Resolved>, Failure>)
    ensures r.Ok? <==> |refs| <= 4 && Obtained(refs, fetch, |refs|)
    ensures r.Ok? ==> |r.value| == |refs| && forall i :: 0 <= i < |refs| ==> Faithful(refs[i], r.value[i])
    ensures r == Err(OutsideQuota) <==> |refs| > 4
    ensures r.Err? && |refs| <= 4 ==> exists i :: 0 <= i < |refs| && StopsAt(refs, fetch, i, r.error)
  {
    if |refs| > MAX_REFS {
      return Err(OutsideQuota);
    }
    var output: seq<Resolved> := [];
    for k := 0 to |refs|
      invariant |output| == k && forall i :: 0 <= i < k ==> Faithful(refs[i], output[i])
      invariant Obtained(refs, fetch, k)
    {
      var ref := refs[k];
      AdmittedIff(ref);
      if !GoodDescriptor(ref) {
        assert StopsAt(refs, fetch, k, BadDescriptor);
        return Err(BadDescriptor);
      }
      var assembled, n := Reassemble(ref, (part: nat) => fetch(ref.assetId, part));
      if assembled.Err? {
        assert StopsAt(refs, fetch, k, assembled.error);
        return Err(assembled.error);
      }
      var encoded := EncodeBySlices(assembled.value);
      output := output + [Resolved(ref, "data:" + ref.mime + ";base64," + encoded)];
    }
    r := Ok(output);
  }

  /** Reading the data URL of a resolved asset gives back its bytes, whatever the mime type. */
  lemma DataUrlGivesBytesBack(mime: string, bytes: Bytes)
    ensures var url := DataUrl(mime, bytes);
      var skip := |"data:" + mime + ";base64,"|;
      skip <= |url| && Base64.Decode(url[skip..]) == Some(bytes)
  {
    Base64.DecodeEncode(bytes);
    assert DataUrl(mime, bytes)[|"data:" + mime + ";base64,"|..] == Base64.Encode(bytes);
  }
}
