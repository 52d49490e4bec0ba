// Reading a request body under a hard cap: src/adapters/http/bounded-json-body.ts.
module BoundedBody {
  import opened Common
  import opened Text
  import opened Utf8
  import Json
  import Audio = AudioArtifact

  type Bytes = seq<Audio.Byte>

  /** A body as it arrives: its chunks, and whether the transfer breaks off after them. */
  datatype Body = Body(chunks: seq<Bytes>, breaks: bool)

  function Concat(chunks: seq<Bytes>): Bytes {
    if chunks == [] then [] else Concat(Init(chunks)) + Last(chunks)
  }

  /** The first chunks whose bytes together cross the cap: how many are taken from the stream. */
  function Taken(chunks: seq<Bytes>, maxBytes: nat): (k: nat)
    ensures k <= |chunks|
  {
    if chunks == [] then 0
    else if |Concat(Init(chunks))| > maxBytes then Taken(Init(chunks), maxBytes)
    else |chunks|
  }

  lemma {:induction false} ConcatGrows(chunks: seq<Bytes>, k: nat)
    requires k <= |chunks|
    ensures Concat(chunks[..k]) <= Concat(chunks)
  {
    if k == |chunks| {
      assert chunks[..k] == chunks;
    } else {
      assert Init(chunks)[..k] == chunks[..k];
      ConcatGrows(Init(chunks), k);
    }
  }

  /** Nothing is taken after the chunk that crosses the cap, and nothing before it is missed. */
  lemma {:induction false} TakenIs(chunks: seq<Bytes>, k: nat, maxBytes: nat)
    requires k < |chunks| && |Concat(chunks[..k])| <= maxBytes < |Concat(chunks[..k + 1])|
    ensures Taken(chunks, maxBytes) == k + 1
  {
    if k + 1 == |chunks| {
      assert Init(chunks) == chunks[..k];
    } else {
      ConcatGrows(Init(chunks), k + 1);
      assert Init(chunks)[..k + 1] == chunks[..k + 1] && Init(chunks)[..k] == chunks[..k];
      TakenIs(Init(chunks), k, maxBytes);
    }
  }

  lemma AllTaken(chunks: seq<Bytes>, maxBytes: nat)
    requires |Concat(chunks)| <= maxBytes
    ensures Taken(chunks, maxBytes) == |chunks|
  {
  }

  /** `merged.set(chunk, offset)`. */
  method SetAt(merged: array<Audio.Byte>, chunk: Bytes, offset: nat)
    requires offset + |chunk| <= merged.Length
    modifies merged
    ensures merged[..offset] == old(merged[..offset])
    ensures merged[offset..offset + |chunk|] == chunk
    ensures merged[offset + |chunk|..] == old(merged[offset + |chunk|..])
  {
    for i := 0 to |chunk|
      invariant merged[..offset] == old(merged[..offset])
      invariant forall k :: 0 <= k < i ==> merged[offset + k] == chunk[k]
      invariant merged[offset + |chunk|..] == old(merged[offset + |chunk|..])
    {
      merged[offset + i] := chunk[i];
    }
  }

  /** The chunks that are kept: all of them up to the one that crosses the cap, which is not. */
  function Kept(chunks: seq<Bytes>, maxBytes: nat): seq<Bytes> {
    if chunks == [] then []
    else if |Concat(chunks)| <= maxBytes then chunks
    else Kept(Init(chunks), maxBytes)
  }

  lemma {:induction false} KeptIs(chunks: seq<Bytes>, k: nat, maxBytes: nat)
    requires k <= |chunks| && |Concat(chunks[..k])| <= maxBytes
    requires k < |chunks| ==> |Concat(chunks[..k + 1])| > maxBytes
    ensures Kept(chunks, maxBytes) == chunks[..k]
  {
    if k == |chunks| {
      assert chunks[..k] == chunks;
    } else {
      ConcatGrows(chunks, k + 1);
      assert Init(chunks)[..k] == chunks[..k];
      if k < |Init(chunks)| {
        assert Init(chunks)[..k + 1] == chunks[..k + 1];
      }
      KeptIs(Init(chunks), k, maxBytes);
    }
  }

  /** Never more than the cap is kept, at any read: what is kept after each read is a beginning of what is kept at
      the end. And nothing less: the next chunk would have crossed the cap. */
  lemma {:induction false} KeptIsLongest(chunks: seq<Bytes>, maxBytes: nat)
    ensures var kept := Kept(chunks, maxBytes);
            && kept <= chunks && |kept| <= Taken(chunks, maxBytes) <= |kept| + 1
            && (forall k :: 0 <= k <= |kept| ==> |Concat(chunks[..k])| <= maxBytes)
            && (|kept| < |chunks| ==> |Concat(chunks[..|kept| + 1])| > maxBytes)
  {
    var kept := Kept(chunks, maxBytes);
    if chunks != [] && |Concat(chunks)| > maxBytes {
      KeptIsLongest(Init(chunks), maxBytes);
      assert kept <= Init(chunks);
      assert forall k :: 0 <= k <= |Init(chunks)| ==> Init(chunks)[..k] == chunks[..k];
      if |kept| == |Init(chunks)| {
        assert chunks[..|kept| + 1] == chunks && Init(chunks)[..|kept|] == Init(chunks);
      } else {
        ConcatGrows(Init(chunks), |kept| + 1);
      }
    } else {
      assert chunks[..|chunks|] == chunks;
      forall k | 0 <= k <= |chunks| ensures |Concat(chunks[..k])| <= maxBytes {
        ConcatGrows(chunks, k);
      }
    }
  }

  /** The bounded read. The result is the whole body when it fits and arrives, and nothing otherwise; `kept` are
      the chunks it held on to when the reading ended, `taken` counts those it asked for, and `buffer` is the size
      of the merged copy, which is allocated while the chunks are still held. */
  method ReadBoundedBytes(body: Option<Body>, maxBytes: nat)
    returns (bytes: Option<Bytes>, taken: nat, kept: seq<Bytes>, buffer: nat)
    ensures bytes == Answer(body, maxBytes)
    ensures body.Some? ==> kept == Kept(body.value.chunks, maxBytes) && taken == Taken(body.value.chunks, maxBytes)
    ensures bytes.Some? ==> bytes.value == Concat(kept) && buffer == |Concat(kept)|
    ensures bytes.None? ==> buffer == 0
    ensures |Concat(kept)| <= maxBytes && |Concat(kept)| + buffer <= 2 * maxBytes
  {
    if body.None? {
      return None, 0, [], 0;
    }
    var stream := body.value.chunks;
    var chunks: seq<Bytes>, received := [], 0;
    while |chunks| < |stream|
      invariant |chunks| <= |stream| && chunks == stream[..|chunks|]
      invariant received == |Concat(chunks)| <= maxBytes
    {
      var value := stream[|chunks|];
      assert Init(stream[..|chunks| + 1]) == chunks;
      if received + |value| > maxBytes {
        ConcatGrows(stream, |chunks| + 1);
        TakenIs(stream, |chunks|, maxBytes);
        KeptIs(stream, |chunks|, maxBytes);
        return None, |chunks| + 1, chunks, 0;
      }
      received := received + |value|;
      chunks := chunks + [value];
    }
    assert chunks == stream;
    AllTaken(stream, maxBytes);
    if body.value.breaks {
      return None, |stream|, chunks, 0;
    }
    var merged := new Audio.Byte[received];
    var offset := 0;
    for i := 0 to |chunks|
      invariant offset == |Concat(chunks[..i])| <= merged.Length
      invariant merged[..offset] == Concat(chunks[..i])
    {
      assert Init(chunks[..i + 1]) == chunks[..i];
      ConcatGrows(chunks, i + 1);
      SetAt(merged, chunks[i], offset);
      offset := offset + |chunks[i]|;
      assert merged[..offset] == merged[..offset - |chunks[i]|] + merged[offset - |chunks[i]|..offset];
    }
    assert chunks[..|chunks|] == chunks;
    assert merged[..] == merged[..offset];
    bytes, taken, kept, buffer := Some(merged[..]), |stream|, chunks, merged.Length;
  }

  /** What the caller gets: the body's bytes when they fit and all arrive. */
  function Answer(body: Option<Body>, maxBytes: nat): Option<Bytes> {
    match body
    case None => None
    case Some(b) => if |Concat(b.chunks)| <= maxBytes && !b.breaks then Some(Concat(b.chunks)) else None
  }

  lemma {:induction false} ConcatAppend(a: seq<Bytes>, b: seq<Bytes>)
    ensures Concat(a + b) == Concat(a) + Concat(b)
    decreases |b|
  {
    if b == [] {
      assert a + b == a;
    } else {
      ConcatAppend(a, Init(b));
      LastChunk(a, b);
    }
  }

  lemma OneChunk(x: Bytes)
    ensures Concat([x]) == x
  {
    assert Init([x]) == [];
  }

  lemma LastChunk(a: seq<Bytes>, b: seq<Bytes>)
    requires b != []
    ensures Concat(a + b) == Concat(a + Init(b)) + Last(b)
  {
    assert Init(a + b) == a + Init(b);
  }

  /** Where a body is cut does not matter: with any chunk cut in two - or two sent as one - the answer is the
      same. */
  lemma CutsDoNotMatter(before: seq<Bytes>, x: Bytes, y: Bytes, after: seq<Bytes>, breaks: bool, maxBytes: nat)
    ensures Answer(Some(Body(before + [x, y] + after, breaks)), maxBytes)
            == Answer(Some(Body(before + [x + y] + after, breaks)), maxBytes)
  {
    OneChunk(x);
    OneChunk(x + y);
    assert Init([x, y]) == [x];
    ConcatAppend(before, [x, y]);
    ConcatAppend(before, [x + y]);
    ConcatAppend(before + [x, y], after);
    ConcatAppend(before + [x + y], after);
  }

  // ---------------------------------------------------------------- the declared length

  /** False only when the client itself declares a body too large to accept. */
  predicate DeclaresAcceptableSize(header: Option<string>, maxBytes: nat, other: string -> Option<int>) {
    header.None?
    || (var bytes := IntegerOf(header.value, other); bytes.Some? && 0 <= bytes.value <= maxBytes)
  }

  /** An honest declared length is judged as the body itself will be, so neither guard refuses what the other
      would take. */
  lemma HonestLengthIsJudgedAlike(body: Body, maxBytes: nat, other: string -> Option<int>)
    requires |Concat(body.chunks)| <= Json.MAX_SAFE_INTEGER
    ensures DeclaresAcceptableSize(Some(Digits(|Concat(body.chunks)|)), maxBytes, other)
        <==> |Concat(body.chunks)| <= maxBytes
    ensures Answer(Some(body), maxBytes)
            == if DeclaresAcceptableSize(Some(Digits(|Concat(body.chunks)|)), maxBytes, other) && !body.breaks
               then Some(Concat(body.chunks)) else None
    ensures DeclaresAcceptableSize(None, maxBytes, other)
  {
    DigitsRoundTrip(|Concat(body.chunks)|);
  }
}
