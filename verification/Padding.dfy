/** Length-prefixed padding of inner messages to one fixed size, and its removal. */
module Padding {
  import opened Bytes
  import opened Trunnel
  import opened Wrappers

  datatype Extracted =
    | Extracted(message: Bytes)
    | Rejected
    | SlicePanics     // the slice bound 4+messageLength wrapped around uint32

  function Zeros(n: nat): (z: Bytes)
    ensures |z| == n
  {
    if n == 0 then [] else Zeros(n - 1) + [0]
  }

  /** [4-byte length][message][zeros], `targetSize` bytes in all; the prefix keeps 32 bits of the length. */
  function Padded(message: Bytes, targetSize: int): Option<Bytes> {
    if |message| > targetSize - 4 then None
    else Some(BE(|message|, 4) + message + Zeros(targetSize - 4 - |message|))
  }

  function Extract(padded: Bytes): Extracted {
    if |padded| < 4 then Rejected
    else
      var n := FromBE(padded[..4]);
      if n > |padded| - 4 then Rejected
      else
        var upper := (4 + n) % TWO32;
        if upper < 4 then SlicePanics else Extracted(padded[4..upper])
  }

  /** Bits above the width do not reach the bytes written. */
  lemma {:induction false} BEDropsHighPart(n: nat, k: nat, w: nat)
    ensures BE(n + k * Pow256(w), w) == BE(n, w)
  {
    if w > 0 {
      var high := k * Pow256(w - 1);
      assert k * Pow256(w) == 256 * high;
      assert (n + 256 * high) / 256 == n / 256 + high && (n + 256 * high) % 256 == n % 256;
      BEDropsHighPart(n / 256, k, w - 1);
    }
  }

  lemma PaddedPrefix(message: Bytes, targetSize: int)
    requires Padded(message, targetSize).Some?
    ensures var p := Padded(message, targetSize).value;
            && |p| == targetSize
            && FromBE(p[..4]) == |message| % TWO32
            && p[4..4 + |message|] == message
  {
    var p := Padded(message, targetSize).value;
    assert p[..4] == BE(|message|, 4);
    Pow256Values();
    assert |message| == |message| % TWO32 + (|message| / TWO32) * TWO32;
    BEDropsHighPart(|message| % TWO32, |message| / TWO32, 4);
    BERoundTrip(|message| % TWO32, 4);
  }

  /** Padding hides every length up to the target, and is undone exactly below 2^32 - 4 bytes. */
  lemma ExtractPadded(message: Bytes, targetSize: int)
    ensures Padded(message, targetSize).Some? <==> |message| + 4 <= targetSize
    ensures Padded(message, targetSize).Some? ==>
              && |Padded(message, targetSize).value| == targetSize
              && (Extract(Padded(message, targetSize).value) == Extracted(message) <==> |message| < TWO32 - 4)
  {
    if Padded(message, targetSize).Some? {
      PaddedPrefix(message, targetSize);
      var p, n := Padded(message, targetSize).value, |message| % TWO32;
      if n + 4 < TWO32 {
        assert |p[4..4 + n]| == n;
      }
    }
  }

  /** What is extracted from any payload, padded by this code or not: as many bytes as the prefix says, if they are there. */
  lemma ExtractIff(payload: Bytes, message: Bytes)
    ensures Extract(payload) == Extracted(message) <==>
            && |message| + 4 <= |payload| && FromBE(payload[..4]) == |message| && |message| < TWO32 - 4
            && payload[4..4 + |message|] == message
    ensures Extract(payload) == Rejected <==> |payload| < 4 || FromBE(payload[..4]) > |payload| - 4
  {
    if |payload| >= 4 {
      Pow256Values();
      BEOnto(payload[..4]);
    }
  }

  /** What is extracted is never longer than what was padded, and shorter from 2^32 - 4 bytes on. */
  lemma ExtractedLength(message: Bytes, targetSize: int)
    requires Padded(message, targetSize).Some? && Extract(Padded(message, targetSize).value).Extracted?
    ensures var got := Extract(Padded(message, targetSize).value).message;
            |got| <= |message| && (|message| >= TWO32 - 4 ==> |got| < |message|)
  {
    PaddedPrefix(message, targetSize);
  }

  /** A marshalled message survives padding, extraction and parsing exactly when it fits the parse bound. */
  lemma PaddedMessageRoundTrip(l: Layout, m: Message, targetSize: int)
    requires WellFormed(l, m) && |Encode(l, m)| + 4 <= targetSize && |Encode(l, m)| < TWO32 - 4
    ensures var p := Padded(Encode(l, m), targetSize).value;
            && Extract(p).Extracted?
            && (ParseTop(l, Extract(p).message) == Some(m) <==> |Encode(l, m)| <= MAX_PARSE_SIZE)
  {
    ExtractPadded(Encode(l, m), targetSize);
    ParseTopRoundTrip(l, m);
  }

  method CreatePaddedPayload(message: Bytes, targetSize: int) returns (r: Option<Bytes>)
    ensures r == Padded(message, targetSize)
  {
    if |message| > targetSize - 4 {
      return None;
    }
    var buf := new byte[targetSize](_ => 0);
    var prefix := BE(|message|, 4);
    for i := 0 to 4
      invariant buf[..i] == prefix[..i]
      invariant forall k :: i <= k < buf.Length ==> buf[k] == 0
    {
      buf[i] := prefix[i];
    }
    for i := 0 to |message|
      invariant buf[..4] == prefix && buf[4..4 + i] == message[..i]
      invariant forall k :: 4 + i <= k < buf.Length ==> buf[k] == 0
    {
      buf[4 + i] := message[i];
    }
    ZerosAre(buf[4 + |message|..]);
    assert prefix[..4] == prefix && message[..|message|] == message;
    assert buf[..] == buf[..4] + buf[4..4 + |message|] + buf[4 + |message|..];
    r := Some(buf[..]);
  }

  lemma {:induction false} ZerosAre(z: Bytes)
    requires forall k :: 0 <= k < |z| ==> z[k] == 0
    ensures z == Zeros(|z|)
  {
    if z != [] {
      ZerosAre(z[..|z| - 1]);
    }
  }
}
