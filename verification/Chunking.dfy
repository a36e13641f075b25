/** How a payload of any size becomes box-sized pieces: cut, pad, and at the reader unpad and join. */
module Chunking {
  import opened Bytes
  import opened Wrappers
  import Padding

  function Chunks(payload: Bytes, max: nat): seq<Bytes>
    requires max > 0
    decreases |payload|
  {
    if payload == [] then []
    else if |payload| <= max then [payload]
    else [payload[..max]] + Chunks(payload[max..], max)
  }

  function Joined(chunks: seq<Bytes>): Bytes {
    if chunks == [] then [] else chunks[0] + Joined(chunks[1..])
  }

  /** Nothing is lost, no piece is empty, and every piece but the last is full. */
  lemma {:induction false} ChunksShape(payload: Bytes, max: nat)
    requires max > 0
    ensures var cs := Chunks(payload, max);
            && Joined(cs) == payload
            && (forall i :: 0 <= i < |cs| ==> 0 < |cs[i]| <= max)
            && (forall i :: 0 <= i < |cs| - 1 ==> |cs[i]| == max)
    decreases |payload|
  {
    if |payload| > max {
      ChunksShape(payload[max..], max);
      assert Chunks(payload, max)[1..] == Chunks(payload[max..], max);
      assert payload == payload[..max] + payload[max..];
    } else if payload != [] {
      assert [payload][1..] == [] && payload + [] == payload;
    }
  }

  /** There are no more pieces than the size calls for. */
  lemma {:induction false} ChunksCount(payload: Bytes, max: nat)
    requires max > 0
    ensures |Chunks(payload, max)| == (|payload| + max - 1) / max
    decreases |payload|
  {
    if payload != [] {
      OneMore(|payload| - 1, max);
      if |payload| > max { ChunksCount(payload[max..], max); } else { Small(|payload| - 1, max); }
    } else {
      Small(max - 1, max);
    }
  }

  lemma Small(a: nat, n: nat)
    requires a < n
    ensures a / n == 0
  {}

  lemma OneMore(a: nat, n: nat)
    requires n > 0
    ensures (a + n) / n == a / n + 1
  {
    var q := (a + n) / n - a / n - 1;
    assert (a + n) == ((a + n) / n) * n + (a + n) % n && a == (a / n) * n + a % n;
    assert q * n == a % n - (a + n) % n;
    Multiples(q, n);
  }

  lemma Multiples(q: int, n: int)
    requires n > 0
    ensures (q >= 1 ==> q * n >= n) && (q <= -1 ==> q * n <= -n)
  {}

  /** The padded pieces are what is encrypted, the extracted ones what the readers get. */
  function PaddedPieces(chunks: seq<Bytes>, target: int): seq<Option<Bytes>> {
    seq(|chunks|, i requires 0 <= i < |chunks| => Padding.Padded(chunks[i], target))
  }

  function Recovered(pieces: seq<Option<Bytes>>): Option<Bytes> {
    if pieces == [] then Some([])
    else if pieces[0] == None || !Padding.Extract(pieces[0].value).Extracted? then None
    else
      match Recovered(pieces[1..])
      case None => None
      case Some(later) => Some(Padding.Extract(pieces[0].value).message + later)
  }

  lemma {:induction false} PiecesRecover(chunks: seq<Bytes>, target: int)
    requires forall i :: 0 <= i < |chunks| ==> |chunks[i]| + 4 <= target && |chunks[i]| < TWO32 - 4
    ensures Recovered(PaddedPieces(chunks, target)) == Some(Joined(chunks))
    decreases |chunks|
  {
    if chunks != [] {
      Padding.ExtractPadded(chunks[0], target);
      assert PaddedPieces(chunks, target)[1..] == PaddedPieces(chunks[1..], target);
      PiecesRecover(chunks[1..], target);
    }
  }

  /** No piece comes back longer than it was, and the first one shorter if it is too long to be extracted. */
  lemma {:induction false} RecoveredLength(chunks: seq<Bytes>, target: int)
    requires Recovered(PaddedPieces(chunks, target)).Some?
    ensures var got := Recovered(PaddedPieces(chunks, target)).value;
            |got| <= |Joined(chunks)| && (chunks != [] && |chunks[0]| >= TWO32 - 4 ==> |got| < |Joined(chunks)|)
    decreases |chunks|
  {
    if chunks != [] {
      assert PaddedPieces(chunks, target)[1..] == PaddedPieces(chunks[1..], target);
      Padding.ExtractedLength(chunks[0], target);
      RecoveredLength(chunks[1..], target);
    }
  }

  lemma FittingPiecesRecover(chunks: seq<Bytes>, target: int)
    requires forall i :: 0 <= i < |chunks| ==> |chunks[i]| + 8 <= target
    requires target < TWO32 + 4 || |Joined(chunks)| < TWO32 - 4
    ensures Recovered(PaddedPieces(chunks, target)) == Some(Joined(chunks))
  {
    forall i | 0 <= i < |chunks| ensures |chunks[i]| < TWO32 - 4 { PieceFits(chunks, i); }
    PiecesRecover(chunks, target);
  }

  lemma LongPieceIsLost(chunks: seq<Bytes>, target: int)
    requires chunks != [] && |chunks[0]| >= TWO32 - 4
    ensures Recovered(PaddedPieces(chunks, target)) != Some(Joined(chunks))
  {
    if Recovered(PaddedPieces(chunks, target)).Some? { RecoveredLength(chunks, target); }
  }

  lemma FirstIsLong(payload: Bytes, max: nat, bound: nat)
    requires 0 < bound <= max && bound <= |payload|
    ensures Chunks(payload, max) != [] && |Chunks(payload, max)[0]| >= bound
  {}

  lemma PieceSizes(payload: Bytes, max: nat)
    requires max > 0
    ensures Joined(Chunks(payload, max)) == payload
    ensures forall i :: 0 <= i < |Chunks(payload, max)| ==> |Chunks(payload, max)[i]| <= max
  {
    ChunksShape(payload, max);
  }

  /**
   A payload of any size, cut for the geometry, padded piece by piece, extracted and joined again, comes back if and only
   if no piece is so long that its slice bound wraps.
   */
  lemma PayloadRoundTripIff(payload: Bytes, maxPlaintext: nat)
    requires 4 < maxPlaintext
    ensures Recovered(PaddedPieces(Chunks(payload, maxPlaintext - 4), maxPlaintext + 4)) == Some(payload)
            <==> maxPlaintext < TWO32 || |payload| < TWO32 - 4
  {
    if maxPlaintext < TWO32 || |payload| < TWO32 - 4 {
      PayloadReturns(payload, maxPlaintext - 4);
    } else {
      PayloadIsLost(payload, maxPlaintext - 4);
    }
  }

  lemma PayloadReturns(payload: Bytes, max: nat)
    requires 0 < max && (max < TWO32 - 4 || |payload| < TWO32 - 4)
    ensures Recovered(PaddedPieces(Chunks(payload, max), max + 8)) == Some(payload)
  {
    PieceSizes(payload, max);
    FittingPiecesRecover(Chunks(payload, max), max + 8);
  }

  lemma PayloadIsLost(payload: Bytes, max: nat)
    requires TWO32 - 4 <= max && TWO32 - 4 <= |payload|
    ensures Recovered(PaddedPieces(Chunks(payload, max), max + 8)) != Some(payload)
  {
    PieceSizes(payload, max);
    FirstIsLong(payload, max, TWO32 - 4);
    LongPieceIsLost(Chunks(payload, max), max + 8);
  }

  lemma {:induction false} PieceFits(chunks: seq<Bytes>, i: nat)
    requires i < |chunks|
    ensures |chunks[i]| <= |Joined(chunks)|
    decreases i
  {
    if i > 0 { PieceFits(chunks[1..], i - 1); }
  }

  /** The pieces still to be cut when the loop has come to `offset`. */
  function Left(payload: Bytes, max: nat, offset: nat): seq<Bytes>
    requires max > 0
  {
    if offset < |payload| then Chunks(payload[offset..], max) else []
  }

  predicate CutUpTo(payload: Bytes, max: nat, offset: nat, chunks: seq<Bytes>)
    requires max > 0
  {
    Chunks(payload, max) == chunks + Left(payload, max, offset)
  }

  lemma FirstChunk(payload: Bytes, max: nat, offset: nat, end: nat, chunks: seq<Bytes>)
    requires max > 0 && offset < |payload| && CutUpTo(payload, max, offset, chunks)
    requires end == if offset + max > |payload| then |payload| else offset + max
    ensures CutUpTo(payload, max, offset + max, chunks + [payload[offset..end]])
  {
    if offset + max < |payload| {
      assert payload[offset..][..max] == payload[offset..offset + max];
      assert payload[offset..][max..] == payload[offset + max..];
      assert Left(payload, max, offset) == [payload[offset..offset + max]] + Left(payload, max, offset + max);
    } else {
      assert payload[offset..|payload|] == payload[offset..] && Left(payload, max, offset + max) == [];
    }
  }

  lemma NothingCut(payload: Bytes, max: nat)
    requires max > 0
    ensures CutUpTo(payload, max, 0, [])
  {
    assert payload[0..] == payload;
  }

  method ChunkPayload(payload: Bytes, max: nat) returns (chunks: seq<Bytes>)
    requires max > 0
    ensures chunks == Chunks(payload, max)
  {
    if |payload| == 0 { return []; }
    chunks := [];
    var offset := 0;
    NothingCut(payload, max);
    while offset < |payload|
      invariant 0 <= offset && CutUpTo(payload, max, offset, chunks)
      decreases |payload| - offset
    {
      var end := offset + max;
      if end > |payload| { end := |payload|; }
      FirstChunk(payload, max, offset, end, chunks);
      chunks := chunks + [payload[offset..end]];
      offset := offset + max;
    }
    assert Left(payload, max, offset) == [];
  }
}
