/** The copy stream encoder and decoders as the daemon and the courier hold them. */
module CopyStream {
  import opened Bytes
  import opened Trunnel
  import opened Wrappers
  import Spec = CopyStreamSpec

  method MarshalElement(e: Spec.Element) returns (r: Option<Bytes>)
    ensures r == if |e.data| < TWO32 then Some(Spec.ElementBytes(e)) else None
  {
    Spec.ElementTyped(e);
    if |e.data| < TWO32 {
      Spec.ElementEncoding(e);
    }
    r := MarshalBinary(COPY_STREAM_ELEMENT, e.ToMessage());
  }

  /** An element that does not marshal is skipped without a word. */
  method Appended(elements: seq<Bytes>, ghost done: seq<Spec.Element>, e: Spec.Element) returns (more: seq<Bytes>)
    requires elements == Spec.MarshalAll(done)
    ensures more == Spec.MarshalAll(done + [e])
  {
    Spec.MarshalAllConcat(done, [e]);
    var bytes := MarshalElement(e);
    more := if bytes.None? then elements else elements + [bytes.value];
  }

  class CopyStreamEncoder {
    var buffer: Bytes
    const maxChunkSize: int
    var isFirstChunk: bool

    /** The geometry leaves room for a chunk; with any other the loops below do not end, or slice out of bounds. */
    ghost predicate Valid() { maxChunkSize > 0 }

    ghost function View(): Spec.Encoder
      reads this
    {
      Spec.Encoder(buffer, isFirstChunk)
    }

    /** Takes every geometry as it is. */
    constructor (maxPlaintextPayloadLength: int)
      ensures maxChunkSize == maxPlaintextPayloadLength - Spec.ELEMENT_OVERHEAD
      ensures Valid() <==> Spec.ELEMENT_OVERHEAD < maxPlaintextPayloadLength
      ensures View() == Spec.Encoder([], true)
    {
      buffer := [];
      maxChunkSize := maxPlaintextPayloadLength - Spec.ELEMENT_OVERHEAD;
      isFirstChunk := true;
    }

    method SuppressStart()
      modifies this
      ensures View() == Spec.Encoder(old(buffer), false)
    {
      isFirstChunk := false;
    }

    /** Refuses a nil envelope and one that does not validate, leaving the stream as it was. */
    method AddEnvelope(envelope: Option<Message>) returns (r: Option<seq<Bytes>>)
      requires Valid()
      requires envelope.Some? ==> Typed(COURIER_ENVELOPE, envelope.value)
      modifies this
      ensures var bytes := if envelope.Some? then Marshal(COURIER_ENVELOPE, envelope.value) else None;
              if bytes.None? then r == None && View() == old(View())
              else
                var cut := Spec.AddAll(old(View()), [bytes.value], maxChunkSize);
                r == Some(Spec.MarshalAll(cut.elements)) && View() == cut.state
    {
      if envelope.None? {
        return None;
      }
      var envelopeBytes := MarshalBinary(COURIER_ENVELOPE, envelope.value);
      if envelopeBytes.None? {
        return None;
      }
      var lengthPrefix := BE(|envelopeBytes.value|, 4);
      buffer := buffer + lengthPrefix;
      buffer := buffer + envelopeBytes.value;
      assert buffer == old(buffer) + Spec.Frame(envelopeBytes.value);
      ghost var before := View();
      assert [envelopeBytes.value][1..] == [];
      assert Spec.ExtractElements(before, maxChunkSize).elements + []
          == Spec.ExtractElements(before, maxChunkSize).elements;
      var elements := ExtractElements();
      r := Some(elements);
    }

    method ExtractElements() returns (elements: seq<Bytes>)
      requires Valid()
      modifies this
      ensures var cut := Spec.ExtractElements(old(View()), maxChunkSize);
              elements == Spec.MarshalAll(cut.elements) && View() == cut.state
    {
      elements := [];
      ghost var done: seq<Spec.Element> := [];
      while |buffer| > maxChunkSize
        invariant var whole, rest := Spec.ExtractElements(old(View()), maxChunkSize),
                                     Spec.ExtractElements(View(), maxChunkSize);
                  whole.elements == done + rest.elements && whole.state == rest.state
        invariant elements == Spec.MarshalAll(done)
        decreases |buffer|
      {
        var e := Spec.Element(isFirstChunk, false, buffer[..maxChunkSize]);
        ghost var rest := Spec.ExtractElements(Spec.Encoder(buffer[maxChunkSize..], false), maxChunkSize);
        Assoc(done, [e], rest.elements);
        elements := Appended(elements, done, e);
        done := done + [e];
        buffer := buffer[maxChunkSize..];
        isFirstChunk := false;
      }
      assert done + [] == done;
    }

    method Flush() returns (elements: seq<Bytes>)
      requires Valid()
      modifies this
      ensures var cut := Spec.Flush(old(View()), maxChunkSize);
              elements == Spec.MarshalAll(cut.elements) && View() == cut.state
    {
      if |buffer| == 0 {
        return [];
      }
      elements := ExtractElements();
      var e := Spec.Element(isFirstChunk, true, buffer);
      Spec.MarshalAllConcat(Spec.ExtractElements(old(View()), maxChunkSize).elements, [e]);
      buffer := [];
      isFirstChunk := false;
      var bytes := MarshalElement(e);
      if bytes.Some? {
        elements := elements + [bytes.value];
      }
    }

    method FlushWithoutFinal() returns (elements: seq<Bytes>)
      requires Valid()
      modifies this
      ensures var cut := Spec.FlushWithoutFinal(old(View()), maxChunkSize);
              elements == Spec.MarshalAll(cut.elements) && View() == cut.state
    {
      elements := [];
      ghost var done: seq<Spec.Element> := [];
      while |buffer| > 0
        invariant var whole, rest := Spec.FlushWithoutFinal(old(View()), maxChunkSize),
                                     Spec.FlushWithoutFinal(View(), maxChunkSize);
                  whole.elements == done + rest.elements && whole.state == rest.state
        invariant elements == Spec.MarshalAll(done)
        decreases |buffer|
      {
        var chunkSize := maxChunkSize;
        if chunkSize > |buffer| {
          chunkSize := |buffer|;
        }
        var e := Spec.Element(isFirstChunk, false, buffer[..chunkSize]);
        ghost var rest := Spec.FlushWithoutFinal(Spec.Encoder(buffer[chunkSize..], false), maxChunkSize);
        Assoc(done, [e], rest.elements);
        elements := Appended(elements, done, e);
        done := done + [e];
        buffer := buffer[chunkSize..];
        isFirstChunk := false;
      }
      assert done + [] == done;
    }

    method GetBuffer() returns (state: Bytes)
      ensures state == View().buffer
    {
      state := buffer;
    }

    /** A nil state changes nothing. */
    method SetBuffer(state: Option<Bytes>)
      modifies this
      ensures View() == Spec.Encoder(if state.Some? then state.value else old(buffer), old(isFirstChunk))
    {
      if state.None? {
        return;
      }
      buffer := state.value;
    }
  }

  class CopyStreamDecoder {
    var buffer: Bytes
    const maxElementSize: int

    constructor (maxPlaintextPayloadLength: int)
      ensures buffer == [] && maxElementSize == maxPlaintextPayloadLength
    {
      buffer := [];
      maxElementSize := maxPlaintextPayloadLength;
    }

    method AddData(data: Bytes)
      modifies this
      ensures buffer == old(buffer) + data
    {
      buffer := buffer + data;
    }

    /** At most one element; the buffer moves only past an element that was returned. */
    method DecodeAvailable() returns (elem: Option<Spec.Element>, ok: bool)
      modifies this
      ensures match Spec.DecodeAvailable(old(buffer), maxElementSize)
              case Nothing => elem == None && ok && buffer == old(buffer)
              case Bad => elem == None && !ok && buffer == old(buffer)
              case Got(e, rest) => elem == Some(e) && ok && buffer == rest
    {
      if |buffer| < Spec.ELEMENT_OVERHEAD {
        return None, true;
      }
      var length := FromBE(buffer[1..5]);
      var totalSize := Spec.ELEMENT_OVERHEAD + length;
      if maxElementSize > 0 && totalSize > maxElementSize {
        return None, false;
      }
      var parsed := ReadMessage(COPY_STREAM_ELEMENT, buffer);
      match parsed {
        case TooShort => return None, true;
        case Violated => return None, false;
        case Ok(m, remaining) =>
          buffer := remaining;
          return Some(Spec.FromMessage(m)), true;
      }
    }

    function Remaining(): nat
      reads this
    {
      |buffer|
    }
  }

  class CopyStreamEnvelopeDecoder {
    const elementDecoder: CopyStreamDecoder
    var envelopeBuffer: Bytes
    var sawFinal: bool
    const maxEnvelopeSize: int

    ghost function View(): Spec.Decoder
      reads this, elementDecoder
    {
      Spec.Decoder(elementDecoder.buffer, envelopeBuffer, sawFinal)
    }

    ghost function Limits(): Spec.Limits {
      Spec.Limits(elementDecoder.maxElementSize, maxEnvelopeSize)
    }

    constructor (maxPlaintextPayloadLength: int, courierQueryWriteLength: int)
      ensures fresh(elementDecoder) && View() == Spec.FRESH
      ensures Limits() == Spec.Limits(maxPlaintextPayloadLength, courierQueryWriteLength)
    {
      elementDecoder := new CopyStreamDecoder(maxPlaintextPayloadLength);
      envelopeBuffer := [];
      sawFinal := false;
      maxEnvelopeSize := courierQueryWriteLength;
    }

    method AddBoxData(data: Bytes)
      modifies elementDecoder
      ensures View() == old(View()).Add(data)
    {
      elementDecoder.AddData(data);
    }

    /** Moves every available chunk into the envelope buffer; false on an element that is refused. */
    method DrainElements() returns (ok: bool)
      modifies this, elementDecoder
      ensures var d := Spec.Drain(old(elementDecoder.buffer), elementDecoder.maxElementSize);
              ok == d.ok
              && View() == Spec.Decoder(d.rest, old(envelopeBuffer) + d.data, old(sawFinal) || d.sawFinal)
    {
      ghost var whole := Spec.Drain(elementDecoder.buffer, elementDecoder.maxElementSize);
      ghost var taken: Bytes := [];
      while true
        invariant var rest := Spec.Drain(elementDecoder.buffer, elementDecoder.maxElementSize);
                  && whole.data == taken + rest.data && whole.rest == rest.rest && whole.ok == rest.ok
                  && (old(sawFinal) || whole.sawFinal) == (sawFinal || rest.sawFinal)
        invariant envelopeBuffer == old(envelopeBuffer) + taken
        decreases |elementDecoder.buffer|
      {
        ghost var buf := elementDecoder.buffer;
        var elem, good := elementDecoder.DecodeAvailable();
        if !good {
          assert taken + [] == taken;
          return false;
        }
        if elem.None? {
          assert taken + [] == taken;
          break;
        }
        Spec.AvailableShrinks(buf, elementDecoder.maxElementSize);
        ghost var rest := Spec.Drain(elementDecoder.buffer, elementDecoder.maxElementSize);
        Assoc(taken, elem.value.data, rest.data);
        taken := taken + elem.value.data;
        envelopeBuffer := envelopeBuffer + elem.value.data;
        if elem.value.isFinal {
          sawFinal := true;
        }
      }
      ok := true;
    }

    /** Takes every complete envelope off the envelope buffer; false on one that is refused. */
    method TakeEnvelopes() returns (envelopes: seq<Message>, ok: bool)
      modifies this`envelopeBuffer
      ensures Spec.Unframed(envelopes, envelopeBuffer, ok)
           == Spec.Unframe(COURIER_ENVELOPE, old(envelopeBuffer), maxEnvelopeSize)
    {
      envelopes := [];
      ghost var l := COURIER_ENVELOPE;
      while true
        invariant var whole, rest := Spec.Unframe(l, old(envelopeBuffer), maxEnvelopeSize),
                                     Spec.Unframe(l, envelopeBuffer, maxEnvelopeSize);
                  whole.envelopes == envelopes + rest.envelopes && whole.rest == rest.rest && whole.ok == rest.ok
        decreases |envelopeBuffer|
      {
        assert envelopes + [] == envelopes;
        ghost var head := Spec.FirstFrame(l, envelopeBuffer, maxEnvelopeSize);
        if |envelopeBuffer| < 4 {
          break;
        }
        var envelopeLen := FromBE(envelopeBuffer[..4]);
        if maxEnvelopeSize > 0 && envelopeLen > maxEnvelopeSize {
          return envelopes, false;
        }
        var totalSize := 4 + envelopeLen;
        if |envelopeBuffer| < totalSize {
          break;
        }
        var parsed := ReadMessage(COURIER_ENVELOPE, envelopeBuffer[4..totalSize]);
        if !parsed.Ok? || |parsed.rest| > 0 {
          assert head.Unacceptable?;
          return envelopes, false;
        }
        assert head == Spec.Whole(parsed.value, envelopeBuffer[totalSize..]);
        Assoc(envelopes, [parsed.value], Spec.Unframe(l, head.rest, maxEnvelopeSize).envelopes);
        envelopes := envelopes + [parsed.value];
        envelopeBuffer := envelopeBuffer[totalSize..];
      }
      ok := true;
    }

    method DecodeEnvelopes() returns (envelopes: seq<Message>, final: bool, ok: bool)
      modifies this, elementDecoder
      ensures Spec.Outcome(View(), envelopes, ok) == Spec.Decode(Limits(), old(View()))
      ensures final == sawFinal
    {
      ok := DrainElements();
      if !ok {
        return [], sawFinal, false;
      }
      envelopes, ok := TakeEnvelopes();
      final := sawFinal;
    }

    function Remaining(): nat
      reads this, elementDecoder
    {
      elementDecoder.Remaining() + |envelopeBuffer|
    }
  }
}
