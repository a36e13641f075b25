/**
 The wire messages that trunnel generated: a layout is a chain of fields, possibly ended by a tagged union,
 and every generated `Parse` and `encodeBinary` walks its layout in this one way.
 */
module Trunnel {
  import opened Bytes
  import opened Wrappers

  /** `Parse` yields the message and the unread input, or one of the two errors it can raise. */
  datatype Parsed<+T> =
    | Ok(value: T, rest: Bytes)
    | TooShort   // "data too short"
    | Violated   // "integer constraint violated"

  datatype Field =
    | Fixed(size: nat)      // [n]uint8
    | Uint(width: nat)      // uint8, uint16, uint32 or uint64
    | Flag                  // uint8 restricted to 0 and 1
    | Blob(lenWidth: nat)   // an integer and that many bytes

  datatype Layout =
    | End
    | Then(field: Field, rest: Layout)
    | Choice(arm0: Layout, arm1: Layout)   // a uint8 tag restricted to 0 and 1, and the arm it selects

  datatype Item =
    | Raw(bytes: Bytes)
    | Num(n: nat)
    | Var(declared: nat, bytes: Bytes)     // the length field and the slice are separate struct members

  datatype Message =
    | Nil
    | Cons(head: Item, tail: Message)
    | Arm(tag: nat, body: Message)
    | NoArm(tag: nat)                      // the pointer of the selected arm is nil

  // ---- The layouts, in the order of the generated file ----

  const COURIER_ENVELOPE := Then(Fixed(2), Then(Fixed(60), Then(Fixed(60), Then(Uint(1), Then(Uint(8),
                            Then(Blob(2), Then(Blob(4), End)))))))
  const COURIER_ENVELOPE_REPLY := Then(Fixed(32), Then(Uint(1), Then(Flag, Then(Blob(4), Then(Uint(1), End)))))
  const COURIER_QUERY := Choice(COURIER_ENVELOPE, COPY_COMMAND)
  const COURIER_QUERY_REPLY := Choice(COURIER_ENVELOPE_REPLY, COPY_COMMAND_REPLY)
  const REPLICA_READ := Then(Fixed(32), End)
  const REPLICA_READ_REPLY := Then(Uint(1), Then(Fixed(32), Then(Fixed(64), Then(Blob(4), End))))
  const REPLICA_INNER_MESSAGE := Choice(REPLICA_READ, REPLICA_WRITE)
  const REPLICA_WRITE := Then(Fixed(32), Then(Fixed(64), Then(Blob(4), End)))
  const REPLICA_REPLY_INNER_MESSAGE := Choice(REPLICA_READ_REPLY, REPLICA_WRITE_REPLY)
  const REPLICA_WRITE_REPLY := Then(Uint(1), End)
  const BOX := Then(Fixed(32), Then(Blob(4), Then(Fixed(64), End)))
  const COPY_COMMAND := Then(Blob(4), End)
  const COPY_COMMAND_REPLY := Then(Uint(1), Then(Uint(1), Then(Uint(8), End)))
  const COPY_STREAM_ELEMENT := Then(Uint(1), Then(Blob(4), End))

  // ---- What the Go types guarantee, and what validate() adds ----

  predicate ItemTyped(f: Field, x: Item) {
    match f
    case Fixed(size) => x.Raw? && |x.bytes| == size
    case Uint(width) => x.Num? && x.n < Pow256(width)
    case Flag => x.Num? && x.n < 256
    case Blob(w) => x.Var? && x.declared < Pow256(w)
  }

  predicate ItemValid(f: Field, x: Item)
    requires ItemTyped(f, x)
  {
    match f
    case Flag => x.n == 0 || x.n == 1
    case Blob(_) => |x.bytes| == x.declared
    case _ => true
  }

  predicate Typed(l: Layout, m: Message) {
    match l
    case End => m.Nil?
    case Then(f, rest) => m.Cons? && ItemTyped(f, m.head) && Typed(rest, m.tail)
    case Choice(a, b) =>
      match m
      case Arm(tag, body) => tag < 256 && (tag == 0 ==> Typed(a, body)) && (tag == 1 ==> Typed(b, body))
      case NoArm(tag) => tag < 256
      case _ => false
  }

  predicate Valid(l: Layout, m: Message)
    requires Typed(l, m)
  {
    match l
    case End => true
    case Then(f, rest) => ItemValid(f, m.head) && Valid(rest, m.tail)
    case Choice(a, b) =>
      && (m.tag == 0 || m.tag == 1)
      && (m.Arm? ==> if m.tag == 0 then Valid(a, m.body) else Valid(b, m.body))
  }

  /** The selected union arm is present: a message a caller can hope to read back. */
  predicate ArmsPresent(m: Message) {
    match m
    case Nil => true
    case Cons(_, tail) => ArmsPresent(tail)
    case Arm(_, body) => ArmsPresent(body)
    case NoArm(_) => false
  }

  ghost predicate WellFormed(l: Layout, m: Message) {
    Typed(l, m) && Valid(l, m) && ArmsPresent(m)
  }

  // ---- Encoding and parsing ----

  function EncodeItem(f: Field, x: Item): Bytes
    requires ItemTyped(f, x)
  {
    match f
    case Fixed(_) => x.bytes
    case Uint(width) => BE(x.n, width)
    case Flag => BE(x.n, 1)
    case Blob(w) => BE(x.declared, w) + x.bytes
  }

  function Encode(l: Layout, m: Message): Bytes
    requires Typed(l, m) && Valid(l, m)
  {
    match l
    case End => []
    case Then(f, rest) => EncodeItem(f, m.head) + Encode(rest, m.tail)
    case Choice(a, b) =>
      BE(m.tag, 1) + (if m.NoArm? then [] else if m.tag == 0 then Encode(a, m.body) else Encode(b, m.body))
  }

  /** `MarshalBinary`: the encoding, unless `validate` objects. */
  function Marshal(l: Layout, m: Message): Option<Bytes>
    requires Typed(l, m)
  {
    if Valid(l, m) then Some(Encode(l, m)) else None
  }

  function ParseItem(f: Field, data: Bytes): Parsed<Item> {
    match f
    case Fixed(size) =>
      if |data| < size then TooShort else Ok(Raw(data[..size]), data[size..])
    case Uint(width) =>
      if |data| < width then TooShort else Ok(Num(FromBE(data[..width])), data[width..])
    case Flag =>
      if |data| < 1 then TooShort
      else if data[0] > 1 then Violated
      else Ok(Num(data[0] as nat), data[1..])
    case Blob(w) =>
      if |data| < w then TooShort
      else
        var n := FromBE(data[..w]);
        if n > |data| - w then TooShort else Ok(Var(n, data[w..w + n]), data[w + n..])
  }

  function Parse(l: Layout, data: Bytes): Parsed<Message> {
    match l
    case End => Ok(Nil, data)
    case Then(f, rest) =>
      (match ParseItem(f, data)
       case Ok(x, cur) =>
         (match Parse(rest, cur)
          case Ok(m, left) => Ok(Cons(x, m), left)
          case TooShort => TooShort
          case Violated => Violated)
       case TooShort => TooShort
       case Violated => Violated)
    case Choice(a, b) =>
      if |data| < 1 then TooShort
      else if data[0] > 1 then Violated
      else
        match Parse(if data[0] == 0 then a else b, data[1..])
        case Ok(m, left) => Ok(Arm(data[0] as nat, m), left)
        case TooShort => TooShort
        case Violated => Violated
  }

  // ---- Prefix decodability ----

  lemma SplitAt(a: Bytes, b: Bytes)
    ensures (a + b)[..|a|] == a && (a + b)[|a|..] == b
  {}

  lemma BlobRoundTrip(w: nat, x: Item, rest: Bytes)
    requires ItemTyped(Blob(w), x) && ItemValid(Blob(w), x)
    ensures ParseItem(Blob(w), BE(x.declared, w) + (x.bytes + rest)) == Ok(x, rest)
  {
    var len, data := BE(x.declared, w), BE(x.declared, w) + (x.bytes + rest);
    BERoundTrip(x.declared, w);
    SplitAt(len, x.bytes + rest);
    SplitAt(x.bytes, rest);
    assert data[w..w + x.declared] == data[w..][..x.declared];
    assert data[w + x.declared..] == data[w..][x.declared..];
  }

  lemma UintRoundTrip(width: nat, n: nat, rest: Bytes)
    requires n < Pow256(width)
    ensures ParseItem(Uint(width), BE(n, width) + rest) == Ok(Num(n), rest)
  {
    BERoundTrip(n, width);
    SplitAt(BE(n, width), rest);
  }

  lemma FlagRoundTrip(n: nat, rest: Bytes)
    requires n <= 1
    ensures ParseItem(Flag, BE(n, 1) + rest) == Ok(Num(n), rest)
  {
    assert BE(n, 1) == [n as byte];
    SplitAt(BE(n, 1), rest);
  }

  lemma ItemRoundTrip(f: Field, x: Item, rest: Bytes)
    requires ItemTyped(f, x) && ItemValid(f, x)
    ensures ParseItem(f, EncodeItem(f, x) + rest) == Ok(x, rest)
  {
    match f
    case Fixed(size) => SplitAt(x.bytes, rest);
    case Uint(width) => UintRoundTrip(width, x.n, rest);
    case Flag => FlagRoundTrip(x.n, rest);
    case Blob(w) =>
      BlobRoundTrip(w, x, rest);
      assert EncodeItem(f, x) + rest == BE(x.declared, w) + (x.bytes + rest);
  }

  lemma ParseThen(f: Field, l: Layout, x: Item, data: Bytes, cur: Bytes, m: Message, rest: Bytes)
    requires ParseItem(f, data) == Ok(x, cur) && Parse(l, cur) == Ok(m, rest)
    ensures Parse(Then(f, l), data) == Ok(Cons(x, m), rest)
  {}

  lemma ParseArm(a: Layout, b: Layout, tag: byte, data: Bytes, m: Message, rest: Bytes)
    requires tag <= 1 && Parse(if tag == 0 then a else b, data) == Ok(m, rest)
    ensures Parse(Choice(a, b), [tag] + data) == Ok(Arm(tag as nat, m), rest)
  {
    assert ([tag] + data)[1..] == data;
  }

  lemma EncodeThen(f: Field, l: Layout, x: Item, m: Message, rest: Bytes)
    requires ItemTyped(f, x) && ItemValid(f, x) && WellFormed(l, m)
    ensures WellFormed(Then(f, l), Cons(x, m))
    ensures Encode(Then(f, l), Cons(x, m)) + rest == EncodeItem(f, x) + (Encode(l, m) + rest)
  {}

  lemma ArmWellFormed(a: Layout, b: Layout, tag: byte, m: Message)
    requires tag <= 1 && WellFormed(if tag == 0 then a else b, m)
    ensures WellFormed(Choice(a, b), Arm(tag as nat, m))
    ensures Encode(Choice(a, b), Arm(tag as nat, m)) == BE(tag as nat, 1) + Encode(if tag == 0 then a else b, m)
  {}

  lemma TagByte(tag: byte)
    ensures BE(tag as nat, 1) == [tag]
  {
    var n := tag as nat;
    assert n / 256 == 0 && n % 256 == n;
    assert BE(0, 0) == [];
  }

  lemma EncodeArm(a: Layout, b: Layout, tag: byte, m: Message, rest: Bytes)
    requires tag <= 1 && WellFormed(if tag == 0 then a else b, m)
    ensures WellFormed(Choice(a, b), Arm(tag as nat, m))
    ensures Encode(Choice(a, b), Arm(tag as nat, m)) + rest
         == [tag] + (Encode(if tag == 0 then a else b, m) + rest)
  {
    ArmWellFormed(a, b, tag, m);
    TagByte(tag);
  }

  /** Whatever follows a complete message is handed back untouched. */
  lemma {:induction false} RoundTrip(l: Layout, m: Message, rest: Bytes)
    requires WellFormed(l, m)
    ensures Parse(l, Encode(l, m) + rest) == Ok(m, rest)
    decreases l
  {
    match l
    case End =>
      assert Encode(l, m) + rest == rest;
    case Then(f, l') =>
      var x, tail := m.head, m.tail;
      var cur := Encode(l', tail) + rest;
      EncodeThen(f, l', x, tail, rest);
      ItemRoundTrip(f, x, cur);
      RoundTrip(l', tail, rest);
      ParseThen(f, l', x, EncodeItem(f, x) + cur, cur, tail, rest);
    case Choice(a, b) =>
      var tag := m.tag as byte;
      RoundTrip(if tag == 0 then a else b, m.body, rest);
      EncodeArm(a, b, tag, m.body, rest);
      ParseArm(a, b, tag, Encode(if tag == 0 then a else b, m.body) + rest, m.body, rest);
  }

  /** Once parsing has succeeded or met a constraint violation, further input changes nothing. */
  lemma BlobExtends(w: nat, data: Bytes, more: Bytes)
    requires ParseItem(Blob(w), data).Ok?
    ensures ParseItem(Blob(w), data + more)
         == Ok(ParseItem(Blob(w), data).value, ParseItem(Blob(w), data).rest + more)
  {
    assert (data + more)[..w] == data[..w];
    var n := FromBE(data[..w]);
    assert (data + more)[w..w + n] == data[w..w + n];
    assert (data + more)[w + n..] == data[w + n..] + more;
  }

  lemma ItemExtends(f: Field, data: Bytes, more: Bytes)
    ensures ParseItem(f, data).Ok? ==>
              ParseItem(f, data + more) == Ok(ParseItem(f, data).value, ParseItem(f, data).rest + more)
    ensures ParseItem(f, data).Violated? ==> ParseItem(f, data + more).Violated?
  {
    match f
    case Fixed(size) =>
      if size <= |data| {
        assert (data + more)[..size] == data[..size] && (data + more)[size..] == data[size..] + more;
      }
    case Uint(w) =>
      if w <= |data| {
        assert (data + more)[..w] == data[..w] && (data + more)[w..] == data[w..] + more;
      }
    case Flag =>
      if data != [] {
        assert (data + more)[1..] == data[1..] + more;
      }
    case Blob(w) =>
      if ParseItem(f, data).Ok? {
        BlobExtends(w, data, more);
      }
  }

  lemma {:induction false} Extends(l: Layout, data: Bytes, more: Bytes)
    ensures Parse(l, data).Ok? ==>
              Parse(l, data + more) == Ok(Parse(l, data).value, Parse(l, data).rest + more)
    ensures Parse(l, data).Violated? ==> Parse(l, data + more).Violated?
  {
    match l
    case End =>
    case Then(f, l') =>
      ItemExtends(f, data, more);
      if ParseItem(f, data).Ok? {
        Extends(l', ParseItem(f, data).rest, more);
      }
    case Choice(a, b) =>
      if data != [] {
        assert (data + more)[1..] == data[1..] + more;
        Extends(if data[0] == 0 then a else b, data[1..], more);
      }
  }

  /** Every strict prefix of a message asks for more data, and never reports anything else. */
  lemma StrictPrefixTooShort(l: Layout, m: Message, k: nat)
    requires WellFormed(l, m) && k < |Encode(l, m)|
    ensures Parse(l, Encode(l, m)[..k]) == TooShort
  {
    var whole := Encode(l, m);
    var head, more := whole[..k], whole[k..];
    assert head + more == whole == whole + [];
    assert Parse(l, head + more) == Ok(m, []) by { RoundTrip(l, m, []); }
    Extends(l, head, more);
  }

  lemma BlobConsumed(w: nat, data: Bytes)
    requires ParseItem(Blob(w), data).Ok?
    ensures var x := ParseItem(Blob(w), data).value;
            ItemTyped(Blob(w), x) && ItemValid(Blob(w), x) && EncodeItem(Blob(w), x) + ParseItem(Blob(w), data).rest == data
  {
    var n := FromBE(data[..w]);
    BEOnto(data[..w]);
    assert data[..w] + data[w..w + n] + data[w + n..] == data;
  }

  lemma ItemConsumed(f: Field, data: Bytes)
    requires ParseItem(f, data).Ok?
    ensures var x := ParseItem(f, data).value;
            ItemTyped(f, x) && ItemValid(f, x) && EncodeItem(f, x) + ParseItem(f, data).rest == data
  {
    match f
    case Fixed(_) =>
    case Uint(w) => BEOnto(data[..w]);
    case Flag => assert BE(data[0] as nat, 1) == [data[0]];
    case Blob(w) => BlobConsumed(w, data);
  }

  /** Encoding what was parsed gives back exactly the bytes that were consumed. */
  lemma {:induction false} Consumed(l: Layout, data: Bytes)
    requires Parse(l, data).Ok?
    ensures WellFormed(l, Parse(l, data).value)
    ensures Encode(l, Parse(l, data).value) + Parse(l, data).rest == data
    decreases l
  {
    match l
    case End =>
    case Then(f, l') =>
      ItemConsumed(f, data);
      var x, cur := ParseItem(f, data).value, ParseItem(f, data).rest;
      Consumed(l', cur);
      EncodeThen(f, l', x, Parse(l', cur).value, Parse(l', cur).rest);
    case Choice(a, b) =>
      var arm := if data[0] == 0 then a else b;
      Consumed(arm, data[1..]);
      EncodeArm(a, b, data[0], Parse(arm, data[1..]).value, Parse(arm, data[1..]).rest);
  }

  lemma EncodedParses(l: Layout, m: Message, data: Bytes, rest: Bytes)
    requires WellFormed(l, m) && data == Encode(l, m) + rest
    ensures Parse(l, data) == Ok(m, rest)
  {
    RoundTrip(l, m, rest);
  }

  /** Two different messages of one layout never share an encoding, nor does one encoding start another. */
  lemma PrefixFree(l: Layout, m1: Message, m2: Message)
    requires WellFormed(l, m1) && WellFormed(l, m2)
    ensures Encode(l, m1) <= Encode(l, m2) <==> m1 == m2
  {
    var e1, e2 := Encode(l, m1), Encode(l, m2);
    if e1 <= e2 {
      EncodedParses(l, m1, e2, e2[|e1|..]);
      EncodedParses(l, m2, e2, []);
    }
  }

  /** A message that validates is read back if and only if every union in it, at any depth, has its arm. */
  lemma ReadableIff(l: Layout, m: Message)
    requires Typed(l, m) && Valid(l, m)
    ensures Parse(l, Encode(l, m)) == Ok(m, []) <==> ArmsPresent(m)
  {
    if ArmsPresent(m) {
      EncodedParses(l, m, Encode(l, m), []);
    } else if Parse(l, Encode(l, m)).Ok? {
      Consumed(l, Encode(l, m));
    }
  }

  /** A union whose arm is nil validates and encodes to its tag alone, which no reader accepts. */
  lemma NilArmIsUnreadable(a: Layout, b: Layout, tag: nat)
    requires tag == 0 || tag == 1
    requires Parse(if tag == 0 then a else b, []).TooShort?
    ensures Marshal(Choice(a, b), NoArm(tag)) == Some([tag as byte])
    ensures Parse(Choice(a, b), [tag as byte]) == TooShort
  {
    assert BE(tag, 1) == [tag as byte];
    assert Encode(Choice(a, b), NoArm(tag)) == BE(tag, 1) + [] == [tag as byte];
    assert [tag as byte][1..] == [];
  }

  // ---- The loops of the generated code ----

  /** Copies `n` bytes one at a time, as every array and slice field is read. */
  method ReadBytes(data: Bytes, n: nat) returns (ok: bool, out: Bytes, cur: Bytes)
    ensures ok <==> n <= |data|
    ensures ok ==> out == data[..n] && cur == data[n..]
  {
    cur, out := data, [];
    for idx := 0 to n
      invariant idx <= |data| && out == data[..idx] && cur == data[idx..]
    {
      if |cur| < 1 {
        return false, out, cur;
      }
      out := out + [cur[0]];
      cur := cur[1..];
    }
    ok := true;
  }

  method ReadBlob(w: nat, data: Bytes) returns (r: Parsed<Item>)
    ensures r == ParseItem(Blob(w), data)
  {
    if |data| < w { return TooShort; }
    var declared, cur := FromBE(data[..w]), data[w..];
    if declared > |cur| { return TooShort; }
    var ok, out, left := ReadBytes(cur, declared);
    assert data[w..][..declared] == data[w..w + declared];
    assert data[w..][declared..] == data[w + declared..];
    return Ok(Var(declared, out), left);
  }

  method ReadItem(f: Field, data: Bytes) returns (r: Parsed<Item>)
    ensures r == ParseItem(f, data)
  {
    match f {
      case Fixed(size) =>
        var ok, out, cur := ReadBytes(data, size);
        r := if ok then Ok(Raw(out), cur) else TooShort;
      case Uint(width) =>
        r := if |data| < width then TooShort else Ok(Num(FromBE(data[..width])), data[width..]);
      case Flag =>
        if |data| < 1 {
          r := TooShort;
        } else if !(data[0] == 0 || data[0] == 1) {
          r := Violated;
        } else {
          r := Ok(Num(data[0] as nat), data[1..]);
        }
      case Blob(w) =>
        r := ReadBlob(w, data);
    }
  }

  method ReadMessage(l: Layout, data: Bytes) returns (r: Parsed<Message>)
    ensures r == Parse(l, data)
  {
    match l {
      case End =>
        r := Ok(Nil, data);
      case Then(f, l') =>
        var x := ReadItem(f, data);
        if x.Ok? {
          var m := ReadMessage(l', x.rest);
          r := if m.Ok? then Ok(Cons(x.value, m.value), m.rest) else m;
        } else {
          r := if x.TooShort? then TooShort else Violated;
        }
      case Choice(a, b) =>
        if |data| < 1 {
          return TooShort;
        }
        if !(data[0] == 0 || data[0] == 1) {
          return Violated;
        }
        var m := ReadMessage(if data[0] == 0 then a else b, data[1..]);
        r := if m.Ok? then Ok(Arm(data[0] as nat, m.value), m.rest) else m;
    }
  }

  method AppendBytes(buf: Bytes, xs: Bytes, n: nat) returns (out: Bytes)
    requires n == |xs|
    ensures out == buf + xs
  {
    out := buf;
    for idx := 0 to n
      invariant out == buf + xs[..idx]
    {
      out := out + [xs[idx]];
    }
  }

  method WriteItem(f: Field, x: Item, buf: Bytes) returns (out: Bytes)
    requires ItemTyped(f, x) && ItemValid(f, x)
    ensures out == buf + EncodeItem(f, x)
  {
    match f {
      case Fixed(size) => out := AppendBytes(buf, x.bytes, size);
      case Uint(width) => out := buf + BE(x.n, width);
      case Flag => out := buf + BE(x.n, 1);
      case Blob(w) =>
        Assoc(buf, BE(x.declared, w), x.bytes);
        out := AppendBytes(buf + BE(x.declared, w), x.bytes, x.declared);
    }
  }

  /** `encodeBinary`: appends field after field to the buffer. */
  method WriteMessage(l: Layout, m: Message, buf: Bytes) returns (out: Bytes)
    requires Typed(l, m) && Valid(l, m)
    ensures out == buf + Encode(l, m)
  {
    match l {
      case End =>
        out := buf;
      case Then(f, l') =>
        out := WriteItem(f, m.head, buf);
        Assoc(buf, EncodeItem(f, m.head), Encode(l', m.tail));
        out := WriteMessage(l', m.tail, out);
      case Choice(a, b) =>
        out := buf + BE(m.tag, 1);
        if m.Arm? {
          Assoc(buf, BE(m.tag, 1), Encode(if m.tag == 0 then a else b, m.body));
          out := WriteMessage(if m.tag == 0 then a else b, m.body, out);
        }
    }
  }

  method MarshalBinary(l: Layout, m: Message) returns (r: Option<Bytes>)
    requires Typed(l, m)
    ensures r == Marshal(l, m)
  {
    if !Valid(l, m) {
      return None;
    }
    var buf := WriteMessage(l, m, []);
    assert [] + Encode(l, m) == Encode(l, m);
    r := Some(buf);
  }

  // ---- The bounded top-level constructors ----

  const MAX_PARSE_SIZE: nat := 16777216

  /** `ParseBox`, `ParseCourierQuery` and their like: bounded input, unread bytes ignored. */
  function ParseTop(l: Layout, data: Bytes): Option<Message> {
    if |data| > MAX_PARSE_SIZE then None
    else match Parse(l, data)
         case Ok(m, _) => Some(m)
         case _ => None
  }

  /** A marshalled message is read back exactly when it fits the parse bound. */
  lemma ParseTopRoundTrip(l: Layout, m: Message)
    requires WellFormed(l, m)
    ensures ParseTop(l, Encode(l, m)) == Some(m) <==> |Encode(l, m)| <= MAX_PARSE_SIZE
  {
    RoundTrip(l, m, []);
    assert Encode(l, m) + [] == Encode(l, m);
  }
}
