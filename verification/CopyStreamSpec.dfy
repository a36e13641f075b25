/**
 What the copy stream encoder and decoder compute, and the two framings that make the stream:
 envelopes with a 4-byte length in front, cut into chunks, each chunk wrapped in a flagged element.
 */
module CopyStreamSpec {
  import opened Bytes
  import opened Trunnel

  const FLAG_START: nat := 1
  const FLAG_FINAL: nat := 2
  const ELEMENT_OVERHEAD: nat := 5

  datatype Element = Element(isStart: bool, isFinal: bool, data: Bytes) {
    function Flags(): nat {
      (if isStart then FLAG_START else 0) + (if isFinal then FLAG_FINAL else 0)
    }

    /** EnvelopeLen is `uint32(len(chunkData))`. */
    function ToMessage(): Message {
      Cons(Num(Flags()), Cons(Var(|data| % TWO32, data), Nil))
    }
  }

  lemma ElementTyped(e: Element)
    ensures Typed(COPY_STREAM_ELEMENT, e.ToMessage())
    ensures Valid(COPY_STREAM_ELEMENT, e.ToMessage()) <==> |e.data| < TWO32
  {
    Pow256Values();
    assert ItemTyped(Uint(1), Num(e.Flags()));
    assert ItemTyped(Blob(4), Var(|e.data| % TWO32, e.data));
    var l, tail := Then(Blob(4), End), Cons(Var(|e.data| % TWO32, e.data), Nil);
    assert Typed(l, tail);
    assert Valid(l, tail) <==> ItemValid(Blob(4), tail.head);
  }

  function ElementBytes(e: Element): Bytes {
    BE(e.Flags(), 1) + (BE(|e.data|, 4) + e.data)
  }

  lemma ElementEncoding(e: Element)
    requires |e.data| < TWO32
    ensures Typed(COPY_STREAM_ELEMENT, e.ToMessage()) && Valid(COPY_STREAM_ELEMENT, e.ToMessage())
    ensures Encode(COPY_STREAM_ELEMENT, e.ToMessage()) == ElementBytes(e)
  {
    ElementTyped(e);
    var tail := Cons(Var(|e.data|, e.data), Nil);
    assert Encode(Then(Blob(4), End), tail) == (BE(|e.data|, 4) + e.data) + [] == BE(|e.data|, 4) + e.data;
  }

  function FromMessage(m: Message): Element {
    match m
    case Cons(Num(flags), Cons(Var(_, data), _)) => Element(flags % 2 == 1, flags / 2 % 2 == 1, data)
    case _ => Element(false, false, [])
  }

  // ---- Encoder ----

  /** The encoder between calls: bytes not yet emitted, and whether an element is still to carry IsStart. */
  datatype Encoder = Encoder(buffer: Bytes, isFirstChunk: bool)

  datatype Cutting = Cutting(elements: seq<Element>, state: Encoder)

  /** `extractElements`: full chunks, as long as more than one chunk is buffered. */
  function ExtractElements(s: Encoder, max: nat): Cutting
    requires max > 0
    decreases |s.buffer|
  {
    if |s.buffer| <= max then Cutting([], s)
    else
      var r := ExtractElements(Encoder(s.buffer[max..], false), max);
      Cutting([Element(s.isFirstChunk, false, s.buffer[..max])] + r.elements, r.state)
  }

  function Flush(s: Encoder, max: nat): Cutting
    requires max > 0
  {
    if s.buffer == [] then Cutting([], s)
    else
      var r := ExtractElements(s, max);
      Cutting(r.elements + [Element(r.state.isFirstChunk, true, r.state.buffer)], Encoder([], false))
  }

  function FlushWithoutFinal(s: Encoder, max: nat): Cutting
    requires max > 0
    decreases |s.buffer|
  {
    if s.buffer == [] then Cutting([], s)
    else
      var n := if max > |s.buffer| then |s.buffer| else max;
      var r := FlushWithoutFinal(Encoder(s.buffer[n..], false), max);
      Cutting([Element(s.isFirstChunk, false, s.buffer[..n])] + r.elements, r.state)
  }

  /** The length prefix is `uint32(len(envelopeBytes))`. */
  function Frame(envelope: Bytes): Bytes {
    BE(|envelope|, 4) + envelope
  }

  function Frames(envelopes: seq<Bytes>): Bytes {
    if envelopes == [] then [] else Frame(envelopes[0]) + Frames(envelopes[1..])
  }

  function AddAll(s: Encoder, envelopes: seq<Bytes>, max: nat): Cutting
    requires max > 0
    decreases |envelopes|
  {
    if envelopes == [] then Cutting([], s)
    else
      var r := ExtractElements(Encoder(s.buffer + Frame(envelopes[0]), s.isFirstChunk), max);
      var t := AddAll(r.state, envelopes[1..], max);
      Cutting(r.elements + t.elements, t.state)
  }

  /** Everything one encoder emits for a list of envelopes: AddEnvelope for each, then Flush. */
  function EncodeStream(s: Encoder, envelopes: seq<Bytes>, max: nat): seq<Element>
    requires max > 0
  {
    var r := AddAll(s, envelopes, max);
    r.elements + Flush(r.state, max).elements
  }

  /** The reference: cut a whole byte string at once, IsFinal on the last piece and nowhere else. */
  function Cut(stream: Bytes, max: nat, isStart: bool): seq<Element>
    requires max > 0
    decreases |stream|
  {
    if |stream| <= max then [Element(isStart, true, stream)]
    else [Element(isStart, false, stream[..max])] + Cut(stream[max..], max, false)
  }

  function Payload(es: seq<Element>): Bytes {
    if es == [] then [] else es[0].data + Payload(es[1..])
  }

  lemma {:induction false} PayloadConcat(a: seq<Element>, b: seq<Element>)
    ensures Payload(a + b) == Payload(a) + Payload(b)
  {
    if a == [] {
      assert a + b == b;
    } else {
      PayloadConcat(a[1..], b);
      assert (a + b)[1..] == a[1..] + b && (a + b)[0] == a[0];
      Assoc(a[0].data, Payload(a[1..]), Payload(b));
    }
  }

  lemma {:induction false} FramesConcat(a: seq<Bytes>, b: seq<Bytes>)
    ensures Frames(a + b) == Frames(a) + Frames(b)
  {
    if a == [] {
      assert a + b == b;
    } else {
      FramesConcat(a[1..], b);
      assert (a + b)[1..] == a[1..] + b && (a + b)[0] == a[0];
      Assoc(Frame(a[0]), Frames(a[1..]), Frames(b));
    }
  }

  /** Extracting early loses nothing: chunk boundaries depend only on the bytes, not on when they arrive. */
  lemma {:induction false} ExtractInTwoSteps(s: Encoder, more: Bytes, max: nat)
    requires max > 0
    ensures var r := ExtractElements(s, max);
            var t := ExtractElements(Encoder(r.state.buffer + more, r.state.isFirstChunk), max);
            ExtractElements(Encoder(s.buffer + more, s.isFirstChunk), max) == Cutting(r.elements + t.elements, t.state)
    decreases |s.buffer|
  {
    var whole := ExtractElements(Encoder(s.buffer + more, s.isFirstChunk), max);
    if |s.buffer| <= max {
      assert [] + whole.elements == whole.elements;
    } else {
      ExtractInTwoSteps(Encoder(s.buffer[max..], false), more, max);
      assert (s.buffer + more)[max..] == s.buffer[max..] + more;
      assert (s.buffer + more)[..max] == s.buffer[..max];
      var r := ExtractElements(s, max);
      var t := ExtractElements(Encoder(r.state.buffer + more, r.state.isFirstChunk), max);
      var r' := ExtractElements(Encoder(s.buffer[max..], false), max);
      Assoc([Element(s.isFirstChunk, false, s.buffer[..max])], r'.elements, t.elements);
    }
  }

  lemma {:induction false} AddAllIsOneExtraction(s: Encoder, envelopes: seq<Bytes>, max: nat)
    requires max > 0 && |s.buffer| <= max
    ensures AddAll(s, envelopes, max) == ExtractElements(Encoder(s.buffer + Frames(envelopes), s.isFirstChunk), max)
    decreases |envelopes|
  {
    if envelopes == [] {
      assert s.buffer + [] == s.buffer;
    } else {
      var s1 := Encoder(s.buffer + Frame(envelopes[0]), s.isFirstChunk);
      var r := ExtractElements(s1, max);
      ExtractLeavesOneChunk(s1, max);
      AddAllIsOneExtraction(r.state, envelopes[1..], max);
      ExtractInTwoSteps(s1, Frames(envelopes[1..]), max);
      assert s.buffer + Frames(envelopes) == s1.buffer + Frames(envelopes[1..]);
    }
  }

  lemma {:induction false} ExtractLeavesOneChunk(s: Encoder, max: nat)
    requires max > 0
    ensures var r := ExtractElements(s, max);
            && |r.state.buffer| <= max
            && (s.buffer != [] ==> r.state.buffer != [])
            && r.state.isFirstChunk == (s.isFirstChunk && r.elements == [])
    decreases |s.buffer|
  {
    if |s.buffer| > max {
      ExtractLeavesOneChunk(Encoder(s.buffer[max..], false), max);
    }
  }

  lemma {:induction false} FlushIsCut(s: Encoder, max: nat)
    requires max > 0 && s.buffer != []
    ensures Flush(s, max).elements == Cut(s.buffer, max, s.isFirstChunk)
    decreases |s.buffer|
  {
    if |s.buffer| > max {
      var s' := Encoder(s.buffer[max..], false);
      FlushIsCut(s', max);
      var r, r' := ExtractElements(s, max), ExtractElements(s', max);
      assert r.elements + [Element(r.state.isFirstChunk, true, r.state.buffer)]
          == [Element(s.isFirstChunk, false, s.buffer[..max])]
             + (r'.elements + [Element(r'.state.isFirstChunk, true, r'.state.buffer)]);
    }
  }

  lemma {:induction false} CutInTwoSteps(s: Encoder, max: nat)
    requires max > 0 && s.buffer != []
    ensures var r := ExtractElements(s, max);
            r.elements + Flush(r.state, max).elements == Cut(s.buffer, max, s.isFirstChunk)
  {
    var r := ExtractElements(s, max);
    ExtractLeavesOneChunk(s, max);
    assert r.state.buffer != [];
    FlushIsCut(s, max);
    assert ExtractElements(r.state, max) == Cutting([], r.state);
    assert Flush(r.state, max).elements == [Element(r.state.isFirstChunk, true, r.state.buffer)];
  }

  /** The streaming encoder emits, for any non-empty stream, the one-shot cut of the framed bytes. */
  lemma EncodeStreamIsCut(s: Encoder, envelopes: seq<Bytes>, max: nat)
    requires max > 0 && |s.buffer| <= max
    ensures var stream := s.buffer + Frames(envelopes);
            EncodeStream(s, envelopes, max) == if stream == [] then [] else Cut(stream, max, s.isFirstChunk)
  {
    var whole := Encoder(s.buffer + Frames(envelopes), s.isFirstChunk);
    AddAllIsOneExtraction(s, envelopes, max);
    if whole.buffer != [] {
      CutInTwoSteps(whole, max);
    }
  }

  /** The shape of a cut: nothing lost, every chunk but the last full, flags on the two ends only. */
  lemma {:induction false} CutShape(stream: Bytes, max: nat, isStart: bool)
    requires max > 0
    ensures var es := Cut(stream, max, isStart);
            && es != [] && Payload(es) == stream
            && es[0].isStart == isStart && es[|es| - 1].isFinal
            && (forall i :: 0 < i < |es| ==> !es[i].isStart)
            && (forall i :: 0 <= i < |es| - 1 ==> !es[i].isFinal && |es[i].data| == max)
            && |es[|es| - 1].data| <= max && (stream != [] ==> es[|es| - 1].data != [])
    decreases |stream|
  {
    if |stream| > max {
      CutShape(stream[max..], max, false);
      var es, tail := Cut(stream, max, isStart), Cut(stream[max..], max, false);
      assert es[1..] == tail;
      assert stream == stream[..max] + stream[max..];
      assert forall i :: 0 < i < |es| ==> es[i] == tail[i - 1];
    } else {
      var es := Cut(stream, max, isStart);
      assert es[1..] == [] && stream + [] == stream;
    }
  }

  lemma {:induction false} PlainCutShape(s: Encoder, max: nat)
    requires max > 0
    ensures var r := FlushWithoutFinal(s, max);
            && Payload(r.elements) == s.buffer && r.state.buffer == []
            && (forall e :: e in r.elements ==> !e.isFinal && |e.data| <= max)
    decreases |s.buffer|
  {
    if s.buffer != [] {
      var n := if max > |s.buffer| then |s.buffer| else max;
      PlainCutShape(Encoder(s.buffer[n..], false), max);
      var r := FlushWithoutFinal(s, max);
      assert r.elements[1..] == FlushWithoutFinal(Encoder(s.buffer[n..], false), max).elements;
      assert s.buffer == s.buffer[..n] + s.buffer[n..];
    }
  }

  // ---- Suspending and resuming ----

  ghost predicate SameButStart(a: seq<Element>, b: seq<Element>) {
    && |a| == |b|
    && forall i :: 0 <= i < |a| ==> a[i].data == b[i].data && a[i].isFinal == b[i].isFinal
  }

  lemma {:induction false} CutIgnoresStart(stream: Bytes, max: nat, a: bool, b: bool)
    requires max > 0
    ensures SameButStart(Cut(stream, max, a), Cut(stream, max, b))
    ensures Cut(stream, max, a) == Cut(stream, max, b) <==> a == b
  {
    assert Cut(stream, max, a)[0].isStart == a && Cut(stream, max, b)[0].isStart == b;
    assert Cut(stream, max, a)[1..] == Cut(stream, max, b)[1..];
    assert forall i :: 0 < i < |Cut(stream, max, a)| ==> Cut(stream, max, a)[i] == Cut(stream, max, a)[1..][i - 1];
    assert forall i :: 0 < i < |Cut(stream, max, b)| ==> Cut(stream, max, b)[i] == Cut(stream, max, b)[1..][i - 1];
  }

  lemma ExtractThenCut(s: Encoder, more: Bytes, max: nat)
    requires max > 0 && s.buffer + more != []
    ensures var r := ExtractElements(s, max);
            && r.state.buffer + more != []
            && r.elements + Cut(r.state.buffer + more, max, r.state.isFirstChunk)
               == Cut(s.buffer + more, max, s.isFirstChunk)
  {
    var r := ExtractElements(s, max);
    ExtractLeavesOneChunk(s, max);
    ExtractInTwoSteps(s, more, max);
    var s1 := Encoder(r.state.buffer + more, r.state.isFirstChunk);
    var t := ExtractElements(s1, max);
    CutInTwoSteps(s1, max);
    CutInTwoSteps(Encoder(s.buffer + more, s.isFirstChunk), max);
    Assoc(r.elements, t.elements, Flush(t.state, max).elements);
  }

  /** One call of the daemon: a fresh encoder, handed what the call before left over, told whether it is the first. */
  datatype Batch = Batch(isStart: bool, envelopes: seq<Bytes>)

  /** The last call flushes, the others hand their buffer on. */
  function BatchCut(buffer: Bytes, c: Batch, isLast: bool, max: nat): Cutting
    requires max > 0
  {
    var a := AddAll(Encoder(buffer, c.isStart), c.envelopes, max);
    if isLast then var f := Flush(a.state, max); Cutting(a.elements + f.elements, f.state) else a
  }

  function ResumedStream(buffer: Bytes, batches: seq<Batch>, max: nat): seq<Element>
    requires max > 0
    decreases |batches|
  {
    if batches == [] then []
    else
      var r := BatchCut(buffer, batches[0], |batches| == 1, max);
      r.elements + ResumedStream(r.state.buffer, batches[1..], max)
  }

  function AllEnvelopes(batches: seq<Batch>): seq<Bytes> {
    if batches == [] then [] else batches[0].envelopes + AllEnvelopes(batches[1..])
  }

  /** Each call that returns elements was said to be the first exactly if none before it returned any. */
  predicate FirstMarked(buffer: Bytes, batches: seq<Batch>, max: nat, opening: bool)
    requires max > 0
    decreases |batches|
  {
    batches == []
    || (var r := BatchCut(buffer, batches[0], |batches| == 1, max);
        && (r.elements != [] ==> batches[0].isStart == opening)
        && FirstMarked(r.state.buffer, batches[1..], max, opening && r.elements == []))
  }

  function CutAll(stream: Bytes, max: nat, isStart: bool): seq<Element>
    requires max > 0
  {
    if stream == [] then [] else Cut(stream, max, isStart)
  }

  lemma {:induction false} ExtractIgnoresStart(buffer: Bytes, max: nat, p: bool, q: bool)
    requires max > 0
    ensures var x, y := ExtractElements(Encoder(buffer, p), max), ExtractElements(Encoder(buffer, q), max);
            && x.state.buffer == y.state.buffer && SameButStart(x.elements, y.elements)
            && (x.elements == y.elements <==> x.elements == [] || p == q)
  {
    var x, y := ExtractElements(Encoder(buffer, p), max), ExtractElements(Encoder(buffer, q), max);
    if |buffer| > max {
      assert x.elements[0].isStart == p && y.elements[0].isStart == q;
      assert x.elements[1..] == y.elements[1..];
      assert forall i :: 0 < i < |x.elements| ==> x.elements[i] == x.elements[1..][i - 1];
      assert forall i :: 0 < i < |y.elements| ==> y.elements[i] == y.elements[1..][i - 1];
    }
  }

  lemma ConcatSame(a: seq<Element>, b: seq<Element>, c: seq<Element>, d: seq<Element>)
    requires SameButStart(a, b) && SameButStart(c, d)
    ensures SameButStart(a + c, b + d)
    ensures a + c == b + d <==> a == b && c == d
  {
    assert (a + c)[..|a|] == a && (a + c)[|a|..] == c && (b + d)[..|a|] == b && (b + d)[|a|..] == d;
  }

  lemma CutAllSplits(buffer: Bytes, more: Bytes, max: nat, opening: bool)
    requires max > 0
    ensures var r := ExtractElements(Encoder(buffer, opening), max);
            CutAll(buffer + more, max, opening) == r.elements + CutAll(r.state.buffer + more, max, opening && r.elements == [])
  {
    ExtractLeavesOneChunk(Encoder(buffer, opening), max);
    if buffer + more != [] { ExtractThenCut(Encoder(buffer, opening), more, max); }
  }

  lemma LastBatch(buffer: Bytes, c: Batch, max: nat, opening: bool)
    requires max > 0 && |buffer| <= max
    ensures var r, whole := BatchCut(buffer, c, true, max), CutAll(buffer + Frames(c.envelopes), max, opening);
            SameButStart(r.elements, whole) && (r.elements == whole <==> r.elements == [] || c.isStart == opening)
  {
    EncodeStreamIsCut(Encoder(buffer, c.isStart), c.envelopes, max);
    if buffer + Frames(c.envelopes) != [] { CutIgnoresStart(buffer + Frames(c.envelopes), max, c.isStart, opening); }
  }

  lemma MiddleBatch(buffer: Bytes, c: Batch, more: Bytes, max: nat, opening: bool)
    requires max > 0 && |buffer| <= max
    ensures var r := BatchCut(buffer, c, false, max);
            && |r.state.buffer| <= max
            && exists es :: SameButStart(r.elements, es) && (r.elements == es <==> r.elements == [] || c.isStart == opening)
                 && CutAll(buffer + Frames(c.envelopes) + more, max, opening)
                    == es + CutAll(r.state.buffer + more, max, opening && r.elements == [])
  {
    var all := buffer + Frames(c.envelopes);
    AddAllIsOneExtraction(Encoder(buffer, c.isStart), c.envelopes, max);
    ExtractLeavesOneChunk(Encoder(all, c.isStart), max);
    ExtractIgnoresStart(all, max, c.isStart, opening);
    CutAllSplits(all, more, max, opening);
  }

  /** The batches agree with the one-shot cut in all but the start flags, and in those if and only if each was told right. */
  lemma {:induction false} BatchesAreCut(buffer: Bytes, batches: seq<Batch>, max: nat, opening: bool)
    requires max > 0 && |buffer| <= max && batches != []
    ensures var whole := CutAll(buffer + Frames(AllEnvelopes(batches)), max, opening);
            && SameButStart(ResumedStream(buffer, batches, max), whole)
            && (ResumedStream(buffer, batches, max) == whole <==> FirstMarked(buffer, batches, max, opening))
    decreases |batches|
  {
    var c, rest := batches[0], batches[1..];
    var r := BatchCut(buffer, c, |batches| == 1, max);
    if |batches| == 1 {
      assert AllEnvelopes(batches) == c.envelopes + [] == c.envelopes;
      LastBatch(buffer, c, max, opening);
      assert r.elements + [] == r.elements;
    } else {
      var more := Frames(AllEnvelopes(rest));
      FramesConcat(c.envelopes, AllEnvelopes(rest));
      Assoc(buffer, Frames(c.envelopes), more);
      MiddleBatch(buffer, c, more, max, opening);
      BatchesAreCut(r.state.buffer, rest, max, opening && r.elements == []);
      var es :| SameButStart(r.elements, es) && (r.elements == es <==> r.elements == [] || c.isStart == opening)
                && CutAll(buffer + Frames(c.envelopes) + more, max, opening)
                   == es + CutAll(r.state.buffer + more, max, opening && r.elements == []);
      ConcatSame(r.elements, es, ResumedStream(r.state.buffer, rest, max),
                 CutAll(r.state.buffer + more, max, opening && r.elements == []));
    }
  }

  /**
   Handing the buffer on from call to call (GetBuffer, SetBuffer) splits a stream anywhere and any number of times
   without moving a byte or a final flag. The elements are those of a single encoder if and only if every call that
   returned some suppressed the start exactly when an earlier call had returned some.
   */
  lemma ResumeEquivalence(batches: seq<Batch>, max: nat)
    requires max > 0 && batches != []
    ensures var resumed, whole := ResumedStream([], batches, max), EncodeStream(Encoder([], true), AllEnvelopes(batches), max);
            && SameButStart(resumed, whole)
            && (resumed == whole <==> FirstMarked([], batches, max, true))
  {
    EncodeStreamIsCut(Encoder([], true), AllEnvelopes(batches), max);
    BatchesAreCut([], batches, max, true);
  }

  // ---- Decoder ----

  datatype Available = Nothing | Got(element: Element, rest: Bytes) | Bad

  /** `DecodeAvailable`: one element, or more data needed, or an element that cannot be accepted. */
  function DecodeAvailable(buf: Bytes, maxElement: int): Available {
    if |buf| < ELEMENT_OVERHEAD then Nothing
    else if maxElement > 0 && ELEMENT_OVERHEAD + FromBE(buf[1..5]) > maxElement then Bad
    else
      match Parse(COPY_STREAM_ELEMENT, buf)
      case Ok(m, rest) => Got(FromMessage(m), rest)
      case TooShort => Nothing
      case Violated => Bad
  }

  lemma AvailableShrinks(buf: Bytes, maxElement: int)
    requires DecodeAvailable(buf, maxElement).Got?
    ensures |DecodeAvailable(buf, maxElement).rest| < |buf|
  {
    Consumed(COPY_STREAM_ELEMENT, buf);
    Pow256Values();
    var m := Parse(COPY_STREAM_ELEMENT, buf).value;
    assert |Encode(COPY_STREAM_ELEMENT, m)| >= |EncodeItem(Uint(1), m.head)| == 1;
  }

  datatype Drained = Drained(data: Bytes, sawFinal: bool, rest: Bytes, ok: bool)

  /** Every element that is complete, up to the first one that cannot be accepted. */
  function Drain(buf: Bytes, maxElement: int): Drained
    decreases |buf|
  {
    match DecodeAvailable(buf, maxElement)
    case Nothing => Drained([], false, buf, true)
    case Bad => Drained([], false, buf, false)
    case Got(e, rest) =>
      AvailableShrinks(buf, maxElement);
      var d := Drain(rest, maxElement);
      Drained(e.data + d.data, e.isFinal || d.sawFinal, d.rest, d.ok)
  }

  datatype Unframed = Unframed(envelopes: seq<Message>, rest: Bytes, ok: bool)

  datatype FrameHead = Partial | Unacceptable | Whole(envelope: Message, rest: Bytes)

  /** One step of the loop: the first envelope of the buffer. */
  function FirstFrame(l: Layout, buf: Bytes, maxEnvelope: int): (h: FrameHead)
    ensures h.Whole? ==> |h.rest| < |buf|
  {
    if |buf| < 4 then Partial
    else
      var n := FromBE(buf[..4]);
      if maxEnvelope > 0 && n > maxEnvelope then Unacceptable
      else if |buf| < 4 + n then Partial
      else
        match Parse(l, buf[4..4 + n])
        case Ok(m, left) => if left == [] then Whole(m, buf[4 + n..]) else Unacceptable
        case _ => Unacceptable
  }

  /** Every complete length-prefixed envelope, up to the first one that cannot be accepted. */
  function Unframe(l: Layout, buf: Bytes, maxEnvelope: int): Unframed
    decreases |buf|
  {
    match FirstFrame(l, buf, maxEnvelope)
    case Partial => Unframed([], buf, true)
    case Unacceptable => Unframed([], buf, false)
    case Whole(m, rest) =>
      var u := Unframe(l, rest, maxEnvelope);
      Unframed([m] + u.envelopes, u.rest, u.ok)
  }

  datatype Limits = Limits(maxElement: int, maxEnvelope: int)

  datatype Decoder = Decoder(buffer: Bytes, envelopeBuffer: Bytes, sawFinal: bool) {
    function Add(data: Bytes): Decoder { this.(buffer := buffer + data) }
    function Remaining(): nat { |buffer| + |envelopeBuffer| }
  }

  const FRESH := Decoder([], [], false)

  datatype Outcome = Outcome(state: Decoder, envelopes: seq<Message>, ok: bool)

  /** `DecodeEnvelopes`; a bad element costs the envelopes of this call, a bad envelope only those after it. */
  function Decode(c: Limits, d: Decoder): Outcome {
    var r := Drain(d.buffer, c.maxElement);
    var stream, saw := d.envelopeBuffer + r.data, d.sawFinal || r.sawFinal;
    if !r.ok then Outcome(Decoder(r.rest, stream, saw), [], false)
    else
      var u := Unframe(COURIER_ENVELOPE, stream, c.maxEnvelope);
      Outcome(Decoder(r.rest, u.rest, saw), u.envelopes, u.ok)
  }

  // ---- Any schedule of calls ----

  datatype Call = AddBoxData(data: Bytes) | DecodeEnvelopes

  function Delivered(calls: seq<Call>): Bytes {
    if calls == [] then []
    else (if calls[0].AddBoxData? then calls[0].data else []) + Delivered(calls[1..])
  }

  /** A caller that stops at the first error and keeps every envelope returned before it. */
  function RunCalls(c: Limits, d: Decoder, calls: seq<Call>): Outcome
    decreases |calls|
  {
    if calls == [] then Outcome(d, [], true)
    else
      match calls[0]
      case AddBoxData(data) => RunCalls(c, d.Add(data), calls[1..])
      case DecodeEnvelopes =>
        var first := Decode(c, d);
        if !first.ok then first
        else
          var later := RunCalls(c, first.state, calls[1..]);
          Outcome(later.state, first.envelopes + later.envelopes, later.ok)
  }

  lemma AvailableExtends(buf: Bytes, more: Bytes, maxElement: int)
    ensures var a, b := DecodeAvailable(buf, maxElement), DecodeAvailable(buf + more, maxElement);
            && (a.Got? ==> b == Got(a.element, a.rest + more))
            && (a.Bad? ==> b.Bad?)
  {
    if |buf| >= ELEMENT_OVERHEAD {
      assert (buf + more)[1..5] == buf[1..5];
      Extends(COPY_STREAM_ELEMENT, buf, more);
    }
  }

  lemma {:induction false} DrainInTwoSteps(buf: Bytes, more: Bytes, maxElement: int)
    ensures var d := Drain(buf, maxElement);
            var t := Drain(d.rest + more, maxElement);
            var whole := Drain(buf + more, maxElement);
            && (d.ok ==> whole == Drained(d.data + t.data, d.sawFinal || t.sawFinal, t.rest, t.ok))
            && (!d.ok ==> !whole.ok)
    decreases |buf|
  {
    AvailableExtends(buf, more, maxElement);
    var d, whole := Drain(buf, maxElement), Drain(buf + more, maxElement);
    match DecodeAvailable(buf, maxElement)
    case Nothing => assert [] + whole.data == whole.data;
    case Bad =>
    case Got(e, rest) =>
      AvailableShrinks(buf, maxElement);
      DrainInTwoSteps(rest, more, maxElement);
      Assoc(e.data, Drain(rest, maxElement).data, Drain(d.rest + more, maxElement).data);
  }

  lemma FirstFrameExtends(l: Layout, buf: Bytes, more: Bytes, maxEnvelope: int)
    ensures var a, b := FirstFrame(l, buf, maxEnvelope), FirstFrame(l, buf + more, maxEnvelope);
            && (a.Whole? ==> b == Whole(a.envelope, a.rest + more))
            && (a.Unacceptable? ==> b.Unacceptable?)
  {
    if |buf| >= 4 {
      var n := FromBE(buf[..4]);
      assert (buf + more)[..4] == buf[..4];
      if |buf| >= 4 + n {
        assert (buf + more)[4..4 + n] == buf[4..4 + n];
        assert (buf + more)[4 + n..] == buf[4 + n..] + more;
      }
    }
  }

  lemma {:induction false} UnframeInTwoSteps(l: Layout, buf: Bytes, more: Bytes, maxEnvelope: int)
    ensures var u := Unframe(l, buf, maxEnvelope);
            var t := Unframe(l, u.rest + more, maxEnvelope);
            var whole := Unframe(l, buf + more, maxEnvelope);
            && (u.ok ==> whole == Unframed(u.envelopes + t.envelopes, t.rest, t.ok))
            && (!u.ok ==> !whole.ok)
    decreases |buf|
  {
    FirstFrameExtends(l, buf, more, maxEnvelope);
    var u, whole := Unframe(l, buf, maxEnvelope), Unframe(l, buf + more, maxEnvelope);
    match FirstFrame(l, buf, maxEnvelope)
    case Partial => assert [] + whole.envelopes == whole.envelopes;
    case Unacceptable =>
    case Whole(m, rest) =>
      UnframeInTwoSteps(l, rest, more, maxEnvelope);
      Assoc([m], Unframe(l, rest, maxEnvelope).envelopes, Unframe(l, u.rest + more, maxEnvelope).envelopes);
  }

  /** A decode in the middle of a delivery neither fails nor changes what is decoded in the end. */
  lemma DecodeInTwoSteps(c: Limits, d: Decoder, more: Bytes)
    requires Decode(c, d.Add(more)).ok
    ensures var a := Decode(c, d);
            var b := Decode(c, a.state.Add(more));
            a.ok && Decode(c, d.Add(more)) == Outcome(b.state, a.envelopes + b.envelopes, b.ok)
  {
    DrainInTwoSteps(d.buffer, more, c.maxElement);
    var r := Drain(d.buffer, c.maxElement);
    var t := Drain(r.rest + more, c.maxElement);
    var stream := d.envelopeBuffer + r.data;
    Assoc(d.envelopeBuffer, r.data, t.data);
    UnframeInTwoSteps(COURIER_ENVELOPE, stream, t.data, c.maxEnvelope);
  }

  /**
   Schedule independence, for every byte stream: if one decode after all the data succeeds, then every
   interleaving of AddBoxData and DecodeEnvelopes that ends with a decode succeeds at each of its decodes,
   returns the same envelopes in the same order in total, and ends in the same state.
   */
  lemma {:induction false} ScheduleIndependence(c: Limits, d: Decoder, calls: seq<Call>)
    requires Decode(c, d.Add(Delivered(calls))).ok
    ensures RunCalls(c, d, calls + [DecodeEnvelopes]) == Decode(c, d.Add(Delivered(calls)))
    decreases |calls|
  {
    if calls == [] {
      assert d.buffer + [] == d.buffer;
      var first := Decode(c, d);
      assert calls + [DecodeEnvelopes] == [DecodeEnvelopes];
      assert [DecodeEnvelopes][1..] == [];
      assert first.envelopes + [] == first.envelopes;
    } else {
      var later := calls[1..];
      assert (calls + [DecodeEnvelopes])[1..] == later + [DecodeEnvelopes];
      match calls[0]
      case AddBoxData(data) =>
        assert d.buffer + (data + Delivered(later)) == d.buffer + data + Delivered(later);
        ScheduleIndependence(c, d.Add(data), later);
      case DecodeEnvelopes =>
        assert [] + Delivered(later) == Delivered(later);
        DecodeInTwoSteps(c, d, Delivered(later));
        ScheduleIndependence(c, Decode(c, d).state, later);
    }
  }

  // ---- Well-formed streams ----

  function StreamBytes(es: seq<Element>): Bytes {
    if es == [] then [] else ElementBytes(es[0]) + StreamBytes(es[1..])
  }

  /** How many whole elements the first `n` bytes of their concatenation contain. */
  function WholeElements(es: seq<Element>, n: nat): (k: nat)
    ensures k <= |es|
  {
    if es == [] || |ElementBytes(es[0])| > n then 0
    else 1 + WholeElements(es[1..], n - |ElementBytes(es[0])|)
  }

  function WholeFrames(vs: seq<Bytes>, n: nat): (k: nat)
    ensures k <= |vs|
  {
    if vs == [] || |Frame(vs[0])| > n then 0
    else 1 + WholeFrames(vs[1..], n - |Frame(vs[0])|)
  }

  ghost predicate AnyFinal(es: seq<Element>) {
    exists i :: 0 <= i < |es| && es[i].isFinal
  }

  ghost predicate Acceptable(e: Element, maxElement: int) {
    |e.data| < TWO32 && (maxElement > 0 ==> ELEMENT_OVERHEAD + |e.data| <= maxElement)
  }

  ghost predicate AllAcceptable(es: seq<Element>, maxElement: int) {
    forall i :: 0 <= i < |es| ==> Acceptable(es[i], maxElement)
  }

  /** An envelope the encoder can marshal and the decoder does not reject for its size. */
  ghost predicate Sendable(l: Layout, m: Message, maxEnvelope: int) {
    && WellFormed(l, m)
    && |Encode(l, m)| < TWO32
    && (maxEnvelope > 0 ==> |Encode(l, m)| <= maxEnvelope)
  }

  ghost predicate AllSendable(l: Layout, ms: seq<Message>, maxEnvelope: int) {
    forall i :: 0 <= i < |ms| ==> Sendable(l, ms[i], maxEnvelope)
  }

  ghost function Marshalled(l: Layout, ms: seq<Message>, maxEnvelope: int): (vs: seq<Bytes>)
    requires AllSendable(l, ms, maxEnvelope)
    ensures |vs| == |ms|
  {
    seq(|ms|, i requires 0 <= i < |ms| && Sendable(l, ms[i], maxEnvelope) => Encode(l, ms[i]))
  }

  lemma {:induction false} WholeElementsMaximal(es: seq<Element>, n: nat)
    ensures var k := WholeElements(es, n);
            && |StreamBytes(es[..k])| <= n
            && (k < |es| ==> |StreamBytes(es[..k + 1])| > n)
    decreases |es|
  {
    var k := WholeElements(es, n);
    if es != [] {
      if k == 0 {
        assert es[..1][1..] == [];
      } else {
        WholeElementsMaximal(es[1..], n - |ElementBytes(es[0])|);
        assert es[..k][1..] == es[1..][..k - 1];
        if k < |es| {
          assert es[..k + 1][1..] == es[1..][..k];
        }
      }
    }
  }

  lemma {:induction false} WholeFramesMaximal(vs: seq<Bytes>, n: nat)
    ensures var k := WholeFrames(vs, n);
            && |Frames(vs[..k])| <= n
            && (k < |vs| ==> |Frames(vs[..k + 1])| > n)
    decreases |vs|
  {
    var k := WholeFrames(vs, n);
    if vs != [] {
      if k == 0 {
        assert vs[..1][1..] == [];
      } else {
        WholeFramesMaximal(vs[1..], n - |Frame(vs[0])|);
        assert vs[..k][1..] == vs[1..][..k - 1];
        if k < |vs| {
          assert vs[..k + 1][1..] == vs[1..][..k];
        }
      }
    }
  }

  lemma AvailableWhole(e: Element, rest: Bytes, maxElement: int)
    requires Acceptable(e, maxElement)
    ensures DecodeAvailable(ElementBytes(e) + rest, maxElement) == Got(e, rest)
  {
    var buf := ElementBytes(e) + rest;
    Pow256Values();
    assert buf[1..5] == BE(|e.data|, 4);
    BERoundTrip(|e.data|, 4);
    ElementEncoding(e);
    RoundTrip(COPY_STREAM_ELEMENT, e.ToMessage(), rest);
  }

  lemma AvailablePartial(e: Element, k: nat, maxElement: int)
    requires Acceptable(e, maxElement) && k < |ElementBytes(e)|
    ensures DecodeAvailable(ElementBytes(e)[..k], maxElement) == Nothing
  {
    var buf := ElementBytes(e)[..k];
    ElementEncoding(e);
    if k >= ELEMENT_OVERHEAD {
      Pow256Values();
      assert buf[1..5] == BE(|e.data|, 4);
      BERoundTrip(|e.data|, 4);
      StrictPrefixTooShort(COPY_STREAM_ELEMENT, e.ToMessage(), k);
    }
  }

  lemma DrainNone(es: seq<Element>, n: nat, maxElement: int)
    requires AllAcceptable(es, maxElement) && n <= |StreamBytes(es)| && WholeElements(es, n) == 0
    ensures es[..0] == [] && Drain(StreamBytes(es)[..n], maxElement) == Drained([], false, StreamBytes(es)[..n], true)
  {
    var buf := StreamBytes(es)[..n];
    if es == [] {
      assert buf == [];
    } else {
      assert buf == ElementBytes(es[0])[..n];
      AvailablePartial(es[0], n, maxElement);
    }
  }

  lemma {:induction false} DrainPrefix(es: seq<Element>, n: nat, maxElement: int)
    requires AllAcceptable(es, maxElement)
    requires n <= |StreamBytes(es)|
    ensures var k := WholeElements(es, n);
            && |StreamBytes(es[..k])| <= n
            && Drain(StreamBytes(es)[..n], maxElement)
               == Drained(Payload(es[..k]), AnyFinal(es[..k]), StreamBytes(es)[|StreamBytes(es[..k])|..n], true)
    decreases |es|
  {
    var buf, k := StreamBytes(es)[..n], WholeElements(es, n);
    if k == 0 {
      DrainNone(es, n, maxElement);
    } else {
      DrainPrefix(es[1..], n - |ElementBytes(es[0])|, maxElement);
      DrainFirst(es[0], StreamBytes(es[1..])[..n - |ElementBytes(es[0])|], maxElement);
      assert buf == ElementBytes(es[0]) + StreamBytes(es[1..])[..n - |ElementBytes(es[0])|];
      FirstTaken(es, k, n);
    }
  }

  lemma DrainFirst(e: Element, rest: Bytes, maxElement: int)
    requires Acceptable(e, maxElement)
    ensures var d := Drain(rest, maxElement);
            Drain(ElementBytes(e) + rest, maxElement) == Drained(e.data + d.data, e.isFinal || d.sawFinal, d.rest, d.ok)
  {
    AvailableWhole(e, rest, maxElement);
  }

  /** The first `k` elements, seen as the first one and the `k - 1` that follow. */
  lemma FirstTaken(es: seq<Element>, k: nat, n: nat)
    requires 0 < k <= |es| && |ElementBytes(es[0])| + |StreamBytes(es[1..][..k - 1])| <= n <= |StreamBytes(es)|
    ensures StreamBytes(es[..k]) == ElementBytes(es[0]) + StreamBytes(es[1..][..k - 1])
    ensures Payload(es[..k]) == es[0].data + Payload(es[1..][..k - 1])
    ensures AnyFinal(es[..k]) <==> es[0].isFinal || AnyFinal(es[1..][..k - 1])
    ensures StreamBytes(es)[|StreamBytes(es[..k])|..n]
            == StreamBytes(es[1..])[|StreamBytes(es[1..][..k - 1])|..n - |ElementBytes(es[0])|]
  {
    var first, later := ElementBytes(es[0]), StreamBytes(es[1..]);
    assert es[..k][1..] == es[1..][..k - 1];
    AnyFinalSplit(es[..k]);
    SliceAfter(first, later, |StreamBytes(es[1..][..k - 1])|, n - |first|);
  }

  lemma SliceAfter<T>(a: seq<T>, b: seq<T>, i: nat, n: nat)
    requires i <= n <= |b|
    ensures (a + b)[|a| + i..|a| + n] == b[i..n]
  {}

  lemma AnyFinalSplit(es: seq<Element>)
    requires es != []
    ensures AnyFinal(es) <==> es[0].isFinal || AnyFinal(es[1..])
  {
    if AnyFinal(es[1..]) {
      var i :| 0 <= i < |es[1..]| && es[1..][i].isFinal;
      assert es[i + 1].isFinal;
    }
    if AnyFinal(es) && !es[0].isFinal {
      var i :| 0 <= i < |es| && es[i].isFinal;
      assert es[1..][i - 1].isFinal;
    }
  }

  lemma FirstFrameWhole(l: Layout, m: Message, rest: Bytes, maxEnvelope: int)
    requires Sendable(l, m, maxEnvelope)
    ensures FirstFrame(l, Frame(Encode(l, m)) + rest, maxEnvelope) == Whole(m, rest)
  {
    var v := Encode(l, m);
    var buf := Frame(v) + rest;
    Pow256Values();
    BERoundTrip(|v|, 4);
    assert buf[..4] == BE(|v|, 4) && buf[4..4 + |v|] == v && buf[4 + |v|..] == rest;
    RoundTrip(l, m, []);
    assert v + [] == v;
  }

  lemma FirstFramePartial(l: Layout, m: Message, k: nat, maxEnvelope: int)
    requires Sendable(l, m, maxEnvelope) && k < |Frame(Encode(l, m))|
    ensures FirstFrame(l, Frame(Encode(l, m))[..k], maxEnvelope) == Partial
  {
    var v := Encode(l, m);
    var buf := Frame(v)[..k];
    Pow256Values();
    BERoundTrip(|v|, 4);
    if k >= 4 {
      assert buf[..4] == BE(|v|, 4);
    }
  }

  lemma UnframeCons(l: Layout, m: Message, rest: Bytes, maxEnvelope: int)
    requires Sendable(l, m, maxEnvelope)
    ensures var u := Unframe(l, rest, maxEnvelope);
            Unframe(l, Frame(Encode(l, m)) + rest, maxEnvelope) == Unframed([m] + u.envelopes, u.rest, u.ok)
  {
    FirstFrameWhole(l, m, rest, maxEnvelope);
  }

  lemma {:induction false} UnframeConcat(l: Layout, ms: seq<Message>, rest: Bytes, maxEnvelope: int)
    requires AllSendable(l, ms, maxEnvelope)
    ensures var u := Unframe(l, rest, maxEnvelope);
            Unframe(l, Frames(Marshalled(l, ms, maxEnvelope)) + rest, maxEnvelope)
            == Unframed(ms + u.envelopes, u.rest, u.ok)
    decreases |ms|
  {
    var u := Unframe(l, rest, maxEnvelope);
    if ms == [] {
      assert [] + rest == rest && ms + u.envelopes == u.envelopes;
    } else {
      MarshalledFirst(l, ms, maxEnvelope);
      var tail := Frames(Marshalled(l, ms[1..], maxEnvelope));
      UnframeConcat(l, ms[1..], rest, maxEnvelope);
      UnframeCons(l, ms[0], tail + rest, maxEnvelope);
      Assoc(Frame(Encode(l, ms[0])), tail, rest);
      Assoc([ms[0]], ms[1..], u.envelopes);
      assert ms == [ms[0]] + ms[1..];
    }
  }

  lemma UnframeNone(l: Layout, ms: seq<Message>, n: nat, maxEnvelope: int)
    requires AllSendable(l, ms, maxEnvelope)
    requires var vs := Marshalled(l, ms, maxEnvelope); n <= |Frames(vs)| && WholeFrames(vs, n) == 0
    ensures var buf := Frames(Marshalled(l, ms, maxEnvelope))[..n];
            Unframe(l, buf, maxEnvelope) == Unframed([], buf, true)
  {
    var vs := Marshalled(l, ms, maxEnvelope);
    if ms != [] {
      assert Frames(vs)[..n] == Frame(vs[0])[..n];
      FirstFramePartial(l, ms[0], n, maxEnvelope);
    }
  }

  lemma MarshalledSplit(l: Layout, ms: seq<Message>, k: nat, maxEnvelope: int)
    requires AllSendable(l, ms, maxEnvelope) && k <= |ms|
    ensures AllSendable(l, ms[..k], maxEnvelope) && AllSendable(l, ms[k..], maxEnvelope)
    ensures Marshalled(l, ms[..k], maxEnvelope) == Marshalled(l, ms, maxEnvelope)[..k]
    ensures Marshalled(l, ms[k..], maxEnvelope) == Marshalled(l, ms, maxEnvelope)[k..]
  {}

  lemma MarshalledFirst(l: Layout, ms: seq<Message>, maxEnvelope: int)
    requires AllSendable(l, ms, maxEnvelope) && ms != []
    ensures AllSendable(l, ms[1..], maxEnvelope)
    ensures Frames(Marshalled(l, ms, maxEnvelope)) == Frame(Encode(l, ms[0])) + Frames(Marshalled(l, ms[1..], maxEnvelope))
  {
    MarshalledSplit(l, ms, 1, maxEnvelope);
  }

  lemma FramesPrefix(vs: seq<Bytes>, k: nat, n: nat)
    requires k <= |vs| && |Frames(vs[..k])| <= n <= |Frames(vs)|
    ensures n - |Frames(vs[..k])| <= |Frames(vs[k..])|
    ensures Frames(vs)[..n] == Frames(vs[..k]) + Frames(vs[k..])[..n - |Frames(vs[..k])|]
    ensures Frames(vs)[|Frames(vs[..k])|..n] == Frames(vs[k..])[..n - |Frames(vs[..k])|]
  {
    FramesConcat(vs[..k], vs[k..]);
    assert vs[..k] + vs[k..] == vs;
  }

  lemma {:induction false} NoWholeFrameLeft(vs: seq<Bytes>, n: nat)
    ensures var k := WholeFrames(vs, n);
            |Frames(vs[..k])| <= n && WholeFrames(vs[k..], n - |Frames(vs[..k])|) == 0
    decreases |vs|
  {
    var k := WholeFrames(vs, n);
    if k == 0 {
      assert vs[0..] == vs;
    } else {
      NoWholeFrameLeft(vs[1..], n - |Frame(vs[0])|);
      assert vs[..k][1..] == vs[1..][..k - 1] && vs[k..] == vs[1..][k - 1..];
    }
  }

  lemma UnframePrefix(l: Layout, ms: seq<Message>, n: nat, maxEnvelope: int)
    requires AllSendable(l, ms, maxEnvelope)
    requires n <= |Frames(Marshalled(l, ms, maxEnvelope))|
    ensures var vs := Marshalled(l, ms, maxEnvelope);
            var k := WholeFrames(vs, n);
            && |Frames(vs[..k])| <= n
            && Unframe(l, Frames(vs)[..n], maxEnvelope) == Unframed(ms[..k], Frames(vs)[|Frames(vs[..k])|..n], true)
  {
    var vs := Marshalled(l, ms, maxEnvelope);
    NoWholeFrameLeft(vs, n);
    UnframeUpTo(l, ms, WholeFrames(vs, n), n, maxEnvelope);
  }

  lemma UnframeUpTo(l: Layout, ms: seq<Message>, k: nat, n: nat, maxEnvelope: int)
    requires AllSendable(l, ms, maxEnvelope) && k <= |ms|
    requires var vs := Marshalled(l, ms, maxEnvelope);
             |Frames(vs[..k])| <= n <= |Frames(vs)| && WholeFrames(vs[k..], n - |Frames(vs[..k])|) == 0
    ensures var vs := Marshalled(l, ms, maxEnvelope);
            Unframe(l, Frames(vs)[..n], maxEnvelope) == Unframed(ms[..k], Frames(vs)[|Frames(vs[..k])|..n], true)
  {
    var vs := Marshalled(l, ms, maxEnvelope);
    var used := |Frames(vs[..k])|;
    FramesPrefix(vs, k, n);
    MarshalledSplit(l, ms, k, maxEnvelope);
    UnframeNone(l, ms[k..], n - used, maxEnvelope);
    UnframeWhole(l, ms[..k], Frames(vs[k..])[..n - used], maxEnvelope);
  }

  lemma UnframeWhole(l: Layout, ms: seq<Message>, rest: Bytes, maxEnvelope: int)
    requires AllSendable(l, ms, maxEnvelope) && Unframe(l, rest, maxEnvelope) == Unframed([], rest, true)
    ensures Unframe(l, Frames(Marshalled(l, ms, maxEnvelope)) + rest, maxEnvelope) == Unframed(ms, rest, true)
  {
    UnframeConcat(l, ms, rest, maxEnvelope);
    assert ms + [] == ms;
  }

  lemma {:induction false} PayloadPrefix(es: seq<Element>, k: nat)
    requires k <= |es|
    ensures Payload(es[..k]) <= Payload(es)
  {
    PayloadConcat(es[..k], es[k..]);
    assert es[..k] + es[k..] == es;
  }

  /**
   On every prefix of a well-formed stream, under any interleaving of additions and decodes that ends with a
   decode: no call errs, the envelopes returned are exactly those lying wholly inside the complete elements
   received, and the final flag has been seen exactly when a complete final element was received.
   */
  lemma PrefixDecodes(c: Limits, es: seq<Element>, ms: seq<Message>, calls: seq<Call>)
    requires AllAcceptable(es, c.maxElement)
    requires AllSendable(COURIER_ENVELOPE, ms, c.maxEnvelope)
    requires Payload(es) == Frames(Marshalled(COURIER_ENVELOPE, ms, c.maxEnvelope))
    requires Delivered(calls) <= StreamBytes(es)
    ensures var r := RunCalls(c, FRESH, calls + [DecodeEnvelopes]);
            var k := WholeElements(es, |Delivered(calls)|);
            && r.ok
            && r.envelopes == ms[..WholeFrames(Marshalled(COURIER_ENVELOPE, ms, c.maxEnvelope), |Payload(es[..k])|)]
            && r.state.sawFinal == AnyFinal(es[..k])
            && |StreamBytes(es[..k])| + |r.state.buffer| == |Delivered(calls)|
            && |Frames(Marshalled(COURIER_ENVELOPE, ms, c.maxEnvelope)[..|r.envelopes|])| + |r.state.envelopeBuffer|
               == |Payload(es[..k])|
  {
    var n := |Delivered(calls)|;
    var k := WholeElements(es, n);
    assert [] + Delivered(calls) == StreamBytes(es)[..n];
    DrainPrefix(es, n, c.maxElement);
    PayloadPrefix(es, k);
    var p := Payload(es[..k]);
    assert [] + p == Frames(Marshalled(COURIER_ENVELOPE, ms, c.maxEnvelope))[..|p|];
    UnframePrefix(COURIER_ENVELOPE, ms, |p|, c.maxEnvelope);
    ScheduleIndependence(c, FRESH, calls);
  }

  lemma {:induction false} WholeOfAll(es: seq<Element>)
    ensures WholeElements(es, |StreamBytes(es)|) == |es|
  {
    if es != [] {
      WholeOfAll(es[1..]);
    }
  }

  lemma {:induction false} WholeFramesOfAll(vs: seq<Bytes>)
    ensures WholeFrames(vs, |Frames(vs)|) == |vs|
  {
    if vs != [] {
      WholeFramesOfAll(vs[1..]);
    }
  }

  /** A complete well-formed stream, cut into boxes and decoded on any schedule, gives everything back. */
  lemma StreamDecodes(c: Limits, es: seq<Element>, ms: seq<Message>, calls: seq<Call>)
    requires AllAcceptable(es, c.maxElement)
    requires AllSendable(COURIER_ENVELOPE, ms, c.maxEnvelope)
    requires Payload(es) == Frames(Marshalled(COURIER_ENVELOPE, ms, c.maxEnvelope))
    requires Delivered(calls) == StreamBytes(es)
    ensures RunCalls(c, FRESH, calls + [DecodeEnvelopes]) == Outcome(Decoder([], [], AnyFinal(es)), ms, true)
  {
    var vs := Marshalled(COURIER_ENVELOPE, ms, c.maxEnvelope);
    WholeOfAll(es);
    WholeFramesOfAll(vs);
    assert es[..|es|] == es && ms[..|ms|] == ms && vs[..|ms|] == vs;
    PrefixDecodes(c, es, ms, calls);
  }

  lemma CutAcceptable(stream: Bytes, max: nat, isStart: bool)
    requires 0 < max < TWO32
    ensures var es := Cut(stream, max, isStart);
            AllAcceptable(es, max + ELEMENT_OVERHEAD) && Payload(es) == stream && AnyFinal(es)
  {
    CutShape(stream, max, isStart);
    var es := Cut(stream, max, isStart);
    assert es[|es| - 1].isFinal;
  }

  /** What one encoder emits for a non-empty list: an acceptable stream of the framed bytes, closed once. */
  lemma EncodedStream(max: nat, vs: seq<Bytes>)
    requires 0 < max < TWO32 && vs != []
    ensures var es := EncodeStream(Encoder([], true), vs, max);
            AllAcceptable(es, max + ELEMENT_OVERHEAD) && Payload(es) == Frames(vs) && AnyFinal(es)
  {
    EncodeStreamIsCut(Encoder([], true), vs, max);
    assert [] + Frames(vs) == Frames(vs);
    CutAcceptable(Frames(vs), max, true);
  }

  /**
   The round trip the format exists for. One encoder, a geometry with room for a chunk, and any non-empty
   list of envelopes: whatever boxes the emitted bytes are cut into and however decoding is scheduled, the
   decoder returns that list, reports the final element, and has nothing left.
   */
  lemma CopyStreamRoundTrip(maxPlaintext: nat, maxEnvelope: int, ms: seq<Message>, calls: seq<Call>)
    requires ELEMENT_OVERHEAD < maxPlaintext <= ELEMENT_OVERHEAD + TWO32 - 1
    requires ms != [] && AllSendable(COURIER_ENVELOPE, ms, maxEnvelope)
    requires Delivered(calls) ==
             StreamBytes(EncodeStream(Encoder([], true), Marshalled(COURIER_ENVELOPE, ms, maxEnvelope), maxPlaintext - ELEMENT_OVERHEAD))
    ensures var r := RunCalls(Limits(maxPlaintext, maxEnvelope), FRESH, calls + [DecodeEnvelopes]);
            r.ok && r.envelopes == ms && r.state.sawFinal && r.state.Remaining() == 0
  {
    var vs := Marshalled(COURIER_ENVELOPE, ms, maxEnvelope);
    EncodedStream(maxPlaintext - ELEMENT_OVERHEAD, vs);
    var es := EncodeStream(Encoder([], true), vs, maxPlaintext - ELEMENT_OVERHEAD);
    StreamDecodes(Limits(maxPlaintext, maxEnvelope), es, ms, calls);
  }

  // ---- Streams assembled from several stateless calls ----

  function Flatten(segments: seq<seq<Bytes>>): seq<Bytes> {
    if segments == [] then [] else segments[0] + Flatten(segments[1..])
  }

  /** One fresh encoder a call; every call but the last ends in FlushWithoutFinal, every call but the first suppresses IsStart. */
  function SegmentedStream(segments: seq<seq<Bytes>>, max: nat, isStart: bool): seq<Element>
    requires max > 0 && segments != []
    decreases |segments|
  {
    if |segments| == 1 then EncodeStream(Encoder([], isStart), segments[0], max)
    else MiddleElements(segments[0], max, isStart) + SegmentedStream(segments[1..], max, false)
  }

  function MiddleElements(envelopes: seq<Bytes>, max: nat, isStart: bool): seq<Element>
    requires max > 0
  {
    var r := AddAll(Encoder([], isStart), envelopes, max);
    r.elements + FlushWithoutFinal(r.state, max).elements
  }

  lemma {:induction false} ExtractFull(s: Encoder, max: nat)
    requires max > 0
    ensures forall e :: e in ExtractElements(s, max).elements ==> !e.isFinal && |e.data| == max
    decreases |s.buffer|
  {
    if |s.buffer| > max { ExtractFull(Encoder(s.buffer[max..], false), max); }
  }

  lemma ExtractShape(s: Encoder, max: nat)
    requires max > 0
    ensures var r := ExtractElements(s, max);
            && Payload(r.elements) + r.state.buffer == s.buffer
            && (forall i :: 0 <= i < |r.elements| ==> !r.elements[i].isFinal && |r.elements[i].data| == max)
  {
    ExtractFull(s, max);
    ExtractPayload(s, max);
  }

  lemma {:induction false} ExtractPayload(s: Encoder, max: nat)
    requires max > 0
    ensures var r := ExtractElements(s, max); Payload(r.elements) + r.state.buffer == s.buffer
    decreases |s.buffer|
  {
    var r := ExtractElements(s, max);
    if |s.buffer| <= max {
      assert [] + s.buffer == s.buffer;
    } else {
      var r' := ExtractElements(Encoder(s.buffer[max..], false), max);
      ExtractPayload(Encoder(s.buffer[max..], false), max);
      assert r.elements[1..] == r'.elements;
      Assoc(s.buffer[..max], Payload(r'.elements), r'.state.buffer);
      assert s.buffer[..max] + s.buffer[max..] == s.buffer;
    }
  }

  lemma LastSegment(vs: seq<Bytes>, max: nat, isStart: bool)
    requires 0 < max < TWO32
    ensures var es := EncodeStream(Encoder([], isStart), vs, max);
            AllAcceptable(es, max + ELEMENT_OVERHEAD) && Payload(es) == Frames(vs) && (AnyFinal(es) <==> vs != [])
  {
    EncodeStreamIsCut(Encoder([], isStart), vs, max);
    assert [] + Frames(vs) == Frames(vs);
    if vs != [] {
      CutAcceptable(Frames(vs), max, isStart);
    }
  }

  lemma MiddleSegment(vs: seq<Bytes>, max: nat, isStart: bool)
    requires 0 < max < TWO32
    ensures var es := MiddleElements(vs, max, isStart);
            && AllAcceptable(es, max + ELEMENT_OVERHEAD) && Payload(es) == Frames(vs)
            && forall i :: 0 <= i < |es| ==> !es[i].isFinal
  {
    assert [] + Frames(vs) == Frames(vs);
    var r := AddAll(Encoder([], isStart), vs, max);
    AddAllIsOneExtraction(Encoder([], isStart), vs, max);
    ExtractShape(Encoder(Frames(vs), isStart), max);
    PlainCutShape(r.state, max);
    PayloadConcat(r.elements, FlushWithoutFinal(r.state, max).elements);
  }

  /** Segments flushed without a final element join into one acceptable stream of all the framed envelopes. */
  lemma {:induction false} SegmentsJoin(segments: seq<seq<Bytes>>, max: nat, isStart: bool)
    requires 0 < max < TWO32 && segments != []
    ensures var es := SegmentedStream(segments, max, isStart);
            && AllAcceptable(es, max + ELEMENT_OVERHEAD)
            && Payload(es) == Frames(Flatten(segments))
            && (AnyFinal(es) <==> segments[|segments| - 1] != [])
    decreases |segments|
  {
    var vs := segments[0];
    if |segments| == 1 {
      LastSegment(vs, max, isStart);
      assert segments[1..] == [] && vs + [] == vs;
    } else {
      assert segments[1..][|segments| - 2] == segments[|segments| - 1];
      var es := MiddleElements(vs, max, isStart);
      var later := SegmentedStream(segments[1..], max, false);
      MiddleSegment(vs, max, isStart);
      SegmentsJoin(segments[1..], max, false);
      PayloadConcat(es, later);
      FramesConcat(vs, Flatten(segments[1..]));
      FinalOnlyLater(es, later);
    }
  }

  lemma FinalOnlyLater(a: seq<Element>, b: seq<Element>)
    requires forall i :: 0 <= i < |a| ==> !a[i].isFinal
    ensures AnyFinal(a + b) <==> AnyFinal(b)
  {
    if AnyFinal(b) {
      var i :| 0 <= i < |b| && b[i].isFinal;
      assert (a + b)[|a| + i].isFinal;
    }
    if AnyFinal(a + b) {
      var i :| 0 <= i < |a + b| && (a + b)[i].isFinal;
      assert b[i - |a|].isFinal;
    }
  }

  // ---- Elements that do not marshal ----

  /** An element the encoder fails to marshal is skipped without a word. */
  function MarshalAll(es: seq<Element>): seq<Bytes> {
    if es == [] then []
    else (if |es[0].data| < TWO32 then [ElementBytes(es[0])] else []) + MarshalAll(es[1..])
  }

  function Joined(parts: seq<Bytes>): Bytes {
    if parts == [] then [] else parts[0] + Joined(parts[1..])
  }

  lemma {:induction false} MarshalAllConcat(a: seq<Element>, b: seq<Element>)
    ensures MarshalAll(a + b) == MarshalAll(a) + MarshalAll(b)
  {
    if a == [] {
      assert a + b == b;
    } else {
      MarshalAllConcat(a[1..], b);
      assert (a + b)[1..] == a[1..] + b && (a + b)[0] == a[0];
      Assoc(if |a[0].data| < TWO32 then [ElementBytes(a[0])] else [], MarshalAll(a[1..]), MarshalAll(b));
    }
  }

  lemma {:induction false} JoinedIsStream(es: seq<Element>)
    requires forall i :: 0 <= i < |es| ==> |es[i].data| < TWO32
    ensures Joined(MarshalAll(es)) == StreamBytes(es)
  {
    if es != [] {
      JoinedIsStream(es[1..]);
      assert MarshalAll(es)[1..] == MarshalAll(es[1..]);
    }
  }

  lemma {:induction false} MarshalAllLength(es: seq<Element>)
    ensures |MarshalAll(es)| <= |es|
    ensures |MarshalAll(es)| == |es| <==> forall i :: 0 <= i < |es| ==> |es[i].data| < TWO32
  {
    if es != [] {
      MarshalAllLength(es[1..]);
      assert forall i :: 0 < i < |es| ==> es[i] == es[1..][i - 1];
      assert forall i :: 0 <= i < |es| - 1 ==> es[1..][i] == es[i + 1];
    }
  }

  /**
   Where the geometry breaks the promise: as soon as more than one chunk is buffered, extraction emits every
   chunk it takes out of the buffer exactly when the chunk size fits the 32-bit length field.
   */
  lemma ChunksSurviveIff(s: Encoder, max: nat)
    requires max > 0 && |s.buffer| > max
    ensures var es := ExtractElements(s, max).elements;
            |MarshalAll(es)| == |es| <==> max < TWO32
  {
    var es := ExtractElements(s, max).elements;
    ExtractShape(s, max);
    MarshalAllLength(es);
    assert |es[0].data| == max;
  }
}
