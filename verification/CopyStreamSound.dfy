/**
 What the copy stream decoder takes and what it refuses, for every byte string: nothing is returned that was not on the
 wire.
 */
module CopyStreamSound {
  import opened Bytes
  import opened Trunnel
  import opened CopyStreamSpec

  // ---- Elements ----

  /** An element as it is on the wire: only two of its flags mean anything. */
  datatype Wire = Wire(flags: byte, data: Bytes)

  function WireBytes(w: Wire): Bytes { [w.flags] + (BE(|w.data|, 4) + w.data) }

  function OnWire(ws: seq<Wire>): Bytes { if ws == [] then [] else WireBytes(ws[0]) + OnWire(ws[1..]) }

  function WireData(ws: seq<Wire>): Bytes { if ws == [] then [] else ws[0].data + WireData(ws[1..]) }

  predicate IsFinal(w: Wire) { w.flags as int / 2 % 2 == 1 }

  /** The length of the data that the header of an element announces. */
  function Announced(buf: Bytes): nat
    requires |buf| >= 5
  {
    FromBE(buf[1..5])
  }

  predicate TooLong(buf: Bytes, maxElement: int) { |buf| >= 5 && maxElement > 0 && 5 + Announced(buf) > maxElement }

  predicate Complete(buf: Bytes) { |buf| >= 5 && |buf| >= 5 + Announced(buf) }

  lemma ElementParses(buf: Bytes)
    ensures Complete(buf) ==>
              Parse(COPY_STREAM_ELEMENT, buf) ==
              Ok(Cons(Num(buf[0] as nat), Cons(Var(Announced(buf), buf[5..5 + Announced(buf)]), Nil)), buf[5 + Announced(buf)..])
    ensures |buf| >= 5 && !Complete(buf) ==> Parse(COPY_STREAM_ELEMENT, buf) == TooShort
  {
    if |buf| >= 5 {
      var cur := buf[1..];
      assert FromBE(buf[..1]) == buf[0] as nat by { assert buf[..1] == [buf[0]] && [buf[0]][..0] == []; }
      assert ParseItem(Uint(1), buf) == Ok(Num(buf[0] as nat), cur);
      assert cur[..4] == buf[1..5];
      var n := Announced(buf);
      if Complete(buf) {
        assert cur[4..4 + n] == buf[5..5 + n] && cur[4 + n..] == buf[5 + n..];
        assert Parse(End, buf[5 + n..]) == Ok(Nil, buf[5 + n..]);
        ParseThen(Blob(4), End, Var(n, buf[5..5 + n]), cur, buf[5 + n..], Nil, buf[5 + n..]);
      }
    }
  }

  /**
   One element is taken exactly if it is complete and not too long, its data and its two flags as they are on the wire; it
   is refused exactly if its header announces too much, whether or not the rest is there.
   */
  lemma AvailableIff(buf: Bytes, maxElement: int)
    ensures var a := DecodeAvailable(buf, maxElement);
            && (a.Bad? <==> TooLong(buf, maxElement))
            && (a.Got? <==> Complete(buf) && !TooLong(buf, maxElement))
            && (a.Got? ==>
                  var n, flags := Announced(buf), buf[0] as int;
                  a == Got(Element(flags % 2 == 1, flags / 2 % 2 == 1, buf[5..5 + n]), buf[5 + n..]))
  {
    ElementParses(buf);
  }

  lemma WireIs(buf: Bytes)
    requires Complete(buf)
    ensures var n := Announced(buf); WireBytes(Wire(buf[0], buf[5..5 + n])) + buf[5 + n..] == buf
  {
    var n := Announced(buf);
    BEOnto(buf[1..5]);
    assert BE(n, 4) == buf[1..5];
    assert buf == [buf[0]] + (buf[1..5] + buf[5..5 + n]) + buf[5 + n..];
  }

  /**
   For every buffer: what draining takes from it are whole elements on the wire, none too long, whose data is handed on in
   order; it stops at the first one that is too long, or else when none is complete.
   */
  lemma {:induction false} DrainSound(buf: Bytes, maxElement: int) returns (ws: seq<Wire>)
    ensures var d := Drain(buf, maxElement);
            && buf == OnWire(ws) + d.rest && d.data == WireData(ws)
            && (d.sawFinal <==> exists i :: 0 <= i < |ws| && IsFinal(ws[i]))
            && (maxElement > 0 ==> forall i :: 0 <= i < |ws| ==> 5 + |ws[i].data| <= maxElement)
            && (d.ok <==> !TooLong(d.rest, maxElement)) && (d.ok ==> !Complete(d.rest))
    decreases |buf|
  {
    AvailableIff(buf, maxElement);
    match DecodeAvailable(buf, maxElement)
    case Got(e, rest) =>
      AvailableShrinks(buf, maxElement);
      var w := Wire(buf[0], e.data);
      var later := DrainSound(rest, maxElement);
      WireIs(buf);
      ws := [w] + later;
      OnWireCons(w, later, Drain(rest, maxElement).rest);
      FinalCons(w, later);
    case _ => ws := [];
  }

  lemma OnWireCons(w: Wire, ws: seq<Wire>, rest: Bytes)
    ensures OnWire([w] + ws) + rest == WireBytes(w) + (OnWire(ws) + rest) && WireData([w] + ws) == w.data + WireData(ws)
  {
    assert ([w] + ws)[1..] == ws;
  }

  lemma FinalCons(w: Wire, ws: seq<Wire>)
    ensures var all := [w] + ws;
            (exists i :: 0 <= i < |all| && IsFinal(all[i])) <==> IsFinal(w) || exists i :: 0 <= i < |ws| && IsFinal(ws[i])
  {
    var all := [w] + ws;
    if IsFinal(w) { assert IsFinal(all[0]); }
    if i :| 0 <= i < |ws| && IsFinal(ws[i]) { assert IsFinal(all[i + 1]); }
    if i :| 0 <= i < |all| && IsFinal(all[i]) { assert i > 0 ==> ws[i - 1] == all[i]; }
  }

  // ---- Envelopes ----

  /** A whole frame at the head of the buffer. */
  predicate Framed(buf: Bytes) { |buf| >= 4 && |buf| >= 4 + FromBE(buf[..4]) }

  /** The head of the buffer is a frame that is too long, or whole but not the encoding of an envelope. */
  ghost predicate Refused(l: Layout, buf: Bytes, maxEnvelope: int) {
    && |buf| >= 4
    && ((maxEnvelope > 0 && FromBE(buf[..4]) > maxEnvelope)
        || (Framed(buf) && forall m :: WellFormed(l, m) ==> Encode(l, m) != buf[4..4 + FromBE(buf[..4])]))
  }

  lemma ParsesWhole(l: Layout, data: Bytes)
    ensures (exists m :: WellFormed(l, m) && Encode(l, m) == data) <==> Parse(l, data).Ok? && Parse(l, data).rest == []
    ensures Parse(l, data).Ok? && Parse(l, data).rest == [] ==>
              WellFormed(l, Parse(l, data).value) && Encode(l, Parse(l, data).value) == data
  {
    if m :| WellFormed(l, m) && Encode(l, m) == data { EncodedParses(l, m, data, []); }
    if Parse(l, data).Ok? { Consumed(l, data); }
  }

  /**
   One frame is taken exactly if it is whole, not too long and the encoding of an envelope, and refused exactly if one
   of these fails for good.
   */
  lemma FirstFrameIff(l: Layout, buf: Bytes, maxEnvelope: int)
    ensures var h := FirstFrame(l, buf, maxEnvelope);
            && (h.Unacceptable? <==> Refused(l, buf, maxEnvelope))
            && (h.Whole? <==> Framed(buf) && !Refused(l, buf, maxEnvelope))
            && (h.Whole? ==> WellFormed(l, h.envelope) && buf == Frame(Encode(l, h.envelope)) + h.rest
                             && (maxEnvelope > 0 ==> |Encode(l, h.envelope)| <= maxEnvelope))
  {
    if |buf| >= 4 {
      var n := FromBE(buf[..4]);
      BEOnto(buf[..4]);
      if |buf| >= 4 + n {
        ParsesWhole(l, buf[4..4 + n]);
        assert buf == (BE(n, 4) + buf[4..4 + n]) + buf[4 + n..];
      }
    }
  }

  /** The envelopes are valid and none is too long. */
  ghost predicate Admitted(l: Layout, ms: seq<Message>, maxEnvelope: int) {
    forall i :: 0 <= i < |ms| ==> WellFormed(l, ms[i]) && (maxEnvelope > 0 ==> |Encode(l, ms[i])| <= maxEnvelope)
  }

  ghost function FramesOf(l: Layout, ms: seq<Message>): Bytes
    requires forall i :: 0 <= i < |ms| ==> WellFormed(l, ms[i])
  {
    if ms == [] then []
    else
      assert WellFormed(l, ms[0]);
      Frame(Encode(l, ms[0])) + FramesOf(l, ms[1..])
  }

  lemma FramesCons(l: Layout, m: Message, ms: seq<Message>, rest: Bytes, maxEnvelope: int)
    requires WellFormed(l, m) && (maxEnvelope > 0 ==> |Encode(l, m)| <= maxEnvelope) && Admitted(l, ms, maxEnvelope)
    ensures Admitted(l, [m] + ms, maxEnvelope)
    ensures FramesOf(l, [m] + ms) + rest == Frame(Encode(l, m)) + (FramesOf(l, ms) + rest)
  {
    assert ([m] + ms)[1..] == ms;
  }

  /**
   For every buffer: the envelopes returned are those whose frames the buffer begins with, each valid and none too long; the
   rest begins with a frame that is refused, or with none that is whole.
   */
  lemma {:induction false} UnframeSound(l: Layout, buf: Bytes, maxEnvelope: int)
    ensures var u := Unframe(l, buf, maxEnvelope);
            && Admitted(l, u.envelopes, maxEnvelope) && buf == FramesOf(l, u.envelopes) + u.rest
            && (u.ok <==> !Refused(l, u.rest, maxEnvelope)) && (u.ok ==> !Framed(u.rest))
    decreases |buf|
  {
    FirstFrameIff(l, buf, maxEnvelope);
    match FirstFrame(l, buf, maxEnvelope)
    case Whole(m, rest) =>
      var u := Unframe(l, rest, maxEnvelope);
      UnframeSound(l, rest, maxEnvelope);
      FramesCons(l, m, u.envelopes, u.rest, maxEnvelope);
    case _ =>
  }

  /**
   One call of the decoder, for every content of its buffers: the elements it takes were on the wire, the envelopes it
   returns are framed in what was buffered and in their data, and it errs exactly on an element that is too long or, if
   there is none, on a frame that is refused.
   */
  lemma DecodeSound(c: Limits, d: Decoder) returns (ws: seq<Wire>)
    ensures var o := Decode(c, d);
            var stream := d.envelopeBuffer + WireData(ws);
            && d.buffer == OnWire(ws) + o.state.buffer
            && (o.state.sawFinal <==> d.sawFinal || exists i :: 0 <= i < |ws| && IsFinal(ws[i]))
            && Admitted(COURIER_ENVELOPE, o.envelopes, c.maxEnvelope)
            && stream == FramesOf(COURIER_ENVELOPE, o.envelopes) + o.state.envelopeBuffer
            && (o.ok <==> !TooLong(o.state.buffer, c.maxElement) && !Refused(COURIER_ENVELOPE, o.state.envelopeBuffer, c.maxEnvelope))
            && (o.ok ==> !Complete(o.state.buffer) && !Framed(o.state.envelopeBuffer))
  {
    ws := DrainSound(d.buffer, c.maxElement);
    UnframeSound(COURIER_ENVELOPE, d.envelopeBuffer + WireData(ws), c.maxEnvelope);
  }
}
