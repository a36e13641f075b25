/**
 The RLP encoder of the transaction sender, and a decoder written independently from Appendix B of the Ethereum
 Yellow Paper: strings, lists, and lengths that are minimal big-endian integers.
 */
module Rlp {
  import opened Bytes
  import opened Wrappers

  // ---- The encoder ----

  /** Bitwise or with 0x80. */
  function Or80(x: nat): byte
    requires x < 256
  {
    (if x >= 0x80 then x else x + 0x80) as byte
  }

  /** Bitwise or with 0xc0, for an operand below 0x40. */
  function OrC0(x: nat): byte
    requires x < 0x40
  {
    (x + 0xc0) as byte
  }

  /** The length is cut to one byte before it is or-ed, whatever it was. */
  function EncodeBytes(b: Bytes): Bytes {
    if |b| == 1 && b[0] < 0x80 then b else [Or80(|b| % 256)] + b
  }

  /** The shortest big-endian form; zero is the empty string. */
  function Minimal(n: nat): Bytes {
    if n == 0 then [] else Minimal(n / 256) + [(n % 256) as byte]
  }

  function EncodeUint(n: nat): Bytes { EncodeBytes(Minimal(n)) }

  function Concat(items: seq<Bytes>): Bytes {
    if items == [] then [] else Concat(items[..|items| - 1]) + items[|items| - 1]
  }

  function EncodeList(items: seq<Bytes>): Bytes {
    var body := Concat(items);
    if |body| < 56 then [OrC0(|body|)] + body
    else [((0xf7 + |Minimal(|body|)|) % 256) as byte] + Minimal(|body|) + body
  }

  // ---- The decoder ----

  datatype Item = Str(bytes: Bytes) | List(items: seq<Item>)

  datatype Header = Header(isList: bool, payload: Bytes, rest: Bytes)

  function Cut(isList: bool, n: nat, b: Bytes): Option<Header> {
    if n > |b| then None else Some(Header(isList, b[..n], b[n..]))
  }

  /** A length field of `w` bytes: no leading zero, and no length that would have fitted in the first byte. */
  function LongForm(isList: bool, w: nat, b: Bytes): Option<Header>
    requires w > 0
  {
    if w > |b| || b[0] == 0 || FromBE(b[..w]) < 56 then None else Cut(isList, FromBE(b[..w]), b[w..])
  }

  function ReadHeader(b: Bytes): Option<Header> {
    if b == [] then None
    else if b[0] < 0x80 then Some(Header(false, b[..1], b[1..]))
    else if b[0] < 0xb8 then
      if b[0] == 0x81 && |b| > 1 && b[1] < 0x80 then None else Cut(false, b[0] as nat - 0x80, b[1..])
    else if b[0] < 0xc0 then LongForm(false, b[0] as nat - 0xb7, b[1..])
    else if b[0] < 0xf8 then Cut(true, b[0] as nat - 0xc0, b[1..])
    else LongForm(true, b[0] as nat - 0xf7, b[1..])
  }

  lemma HeaderShrinks(b: Bytes)
    requires ReadHeader(b).Some?
    ensures |ReadHeader(b).value.rest| < |b| && (ReadHeader(b).value.isList ==> |ReadHeader(b).value.payload| < |b|)
  {}

  function Decode(b: Bytes): Option<(Item, Bytes)>
    decreases |b|, 0
  {
    match ReadHeader(b)
    case None => None
    case Some(h) =>
      HeaderShrinks(b);
      if !h.isList then Some((Str(h.payload), h.rest))
      else
        match DecodeAll(h.payload)
        case None => None
        case Some(items) => Some((List(items), h.rest))
  }

  function DecodeAll(b: Bytes): Option<seq<Item>>
    decreases |b|, 1
  {
    if b == [] then Some([])
    else
      match Decode(b)
      case None => None
      case Some((item, rest)) =>
        if |rest| >= |b| then None
        else
          match DecodeAll(rest)
          case None => None
          case Some(items) => Some([item] + items)
  }

  // ---- Strings ----

  lemma StringRoundTrip(b: Bytes, rest: Bytes)
    requires |b| < 56
    ensures Decode(EncodeBytes(b) + rest) == Some((Str(b), rest))
  {
    var e := EncodeBytes(b) + rest;
    if |b| == 1 && b[0] < 0x80 {
      assert e[..1] == b && e[1..] == rest;
    } else {
      assert e[1..] == b + rest && e[0] == (0x80 + |b|) as byte;
      assert (b + rest)[..|b|] == b && (b + rest)[|b|..] == rest;
    }
  }

  /** What a decoded string costs: its header has at most one byte exactly when it is shorter than 56 bytes. */
  lemma StringHeader(e: Bytes)
    requires ReadHeader(e).Some? && !ReadHeader(e).value.isList
    ensures var h := ReadHeader(e).value;
            var header := |e| - |h.payload| - |h.rest|;
            header >= 0 && (|h.payload| >= 56 ==> header >= 2)
  {}

  /** The encoder's strings are read back exactly when they are shorter than 56 bytes. */
  lemma StringRoundTripIff(b: Bytes, rest: Bytes)
    ensures Decode(EncodeBytes(b) + rest) == Some((Str(b), rest)) <==> |b| < 56
  {
    if |b| < 56 {
      StringRoundTrip(b, rest);
    } else {
      var e := EncodeBytes(b) + rest;
      if ReadHeader(e).Some? && !ReadHeader(e).value.isList { StringHeader(e); }
    }
  }

  // ---- Integers ----

  /** The minimal form denotes the number, starts with no zero byte, and is as short as any form that denotes it. */
  lemma {:induction false} MinimalIsMinimal(n: nat)
    ensures FromBE(Minimal(n)) == n
    ensures Minimal(n) != [] ==> Minimal(n)[0] != 0
    ensures n < Pow256(|Minimal(n)|) && (n > 0 ==> Pow256(|Minimal(n)| - 1) <= n)
  {
    if n > 0 {
      MinimalIsMinimal(n / 256);
      assert Minimal(n)[..|Minimal(n)| - 1] == Minimal(n / 256);
    }
  }

  lemma {:induction false} MinimalWidth(n: nat, w: nat)
    requires n < Pow256(w)
    ensures |Minimal(n)| <= w
  {
    if n > 0 { MinimalWidth(n / 256, w - 1); }
  }

  /** Every 64-bit integer decodes to a string that denotes it and is minimal, with nothing consumed beyond it. */
  lemma UintRoundTrip(n: nat, rest: Bytes)
    requires n < TWO64
    ensures Decode(EncodeUint(n) + rest) == Some((Str(Minimal(n)), rest))
    ensures FromBE(Minimal(n)) == n && |Minimal(n)| <= 8 && (Minimal(n) != [] ==> Minimal(n)[0] != 0)
  {
    Pow256Values();
    MinimalWidth(n, 8);
    MinimalIsMinimal(n);
    StringRoundTrip(Minimal(n), rest);
  }

  // ---- Lists ----

  datatype Value = Number(n: nat) | Data(bytes: Bytes)

  predicate Encodable(v: Value) { if v.Number? then v.n < TWO64 else |v.bytes| < 56 }

  function Encoded(v: Value): Bytes { if v.Number? then EncodeUint(v.n) else EncodeBytes(v.bytes) }

  function Meaning(v: Value): Item { Str(if v.Number? then Minimal(v.n) else v.bytes) }

  function EncodedAll(vs: seq<Value>): seq<Bytes> { seq(|vs|, i requires 0 <= i < |vs| => Encoded(vs[i])) }

  function MeaningAll(vs: seq<Value>): seq<Item> { seq(|vs|, i requires 0 <= i < |vs| => Meaning(vs[i])) }

  lemma ValueRoundTrip(v: Value, rest: Bytes)
    requires Encodable(v)
    ensures Decode(Encoded(v) + rest) == Some((Meaning(v), rest)) && Encoded(v) != []
  {
    if v.Number? { UintRoundTrip(v.n, rest); } else { StringRoundTrip(v.bytes, rest); }
  }

  lemma {:induction false} ConcatFirst(first: Bytes, rest: seq<Bytes>)
    ensures Concat([first] + rest) == first + Concat(rest)
    decreases |rest|
  {
    if rest == [] {
      assert [first] + rest == [first] && [first][..0] == [];
    } else {
      var n := |rest|;
      assert ([first] + rest)[..n] == [first] + rest[..n - 1];
      ConcatFirst(first, rest[..n - 1]);
    }
  }

  lemma DecodeAllFirst(first: Bytes, item: Item, rest: Bytes, items: seq<Item>)
    requires first != [] && Decode(first + rest) == Some((item, rest)) && DecodeAll(rest) == Some(items)
    ensures DecodeAll(first + rest) == Some([item] + items)
  {}

  lemma {:induction false} BodyRoundTrip(vs: seq<Value>)
    requires forall i :: 0 <= i < |vs| ==> Encodable(vs[i])
    ensures DecodeAll(Concat(EncodedAll(vs))) == Some(MeaningAll(vs))
    decreases |vs|
  {
    if vs != [] {
      var rest := Concat(EncodedAll(vs[1..]));
      assert EncodedAll(vs) == [Encoded(vs[0])] + EncodedAll(vs[1..]);
      ConcatFirst(Encoded(vs[0]), EncodedAll(vs[1..]));
      ValueRoundTrip(vs[0], rest);
      BodyRoundTrip(vs[1..]);
      assert MeaningAll(vs) == [Meaning(vs[0])] + MeaningAll(vs[1..]);
      DecodeAllFirst(Encoded(vs[0]), Meaning(vs[0]), rest, MeaningAll(vs[1..]));
    }
  }

  lemma CutWhole(body: Bytes, rest: Bytes)
    ensures Cut(true, |body|, body + rest) == Some(Header(true, body, rest))
  {
    assert (body + rest)[..|body|] == body && (body + rest)[|body|..] == rest;
  }

  lemma LongHeader(body: Bytes, rest: Bytes)
    requires 56 <= |body| < TWO64
    ensures var len := Minimal(|body|); 0 < |len| <= 8 && LongForm(true, |len|, len + (body + rest)) == Some(Header(true, body, rest))
  {
    var len := Minimal(|body|);
    Pow256Values();
    MinimalWidth(|body|, 8);
    MinimalIsMinimal(|body|);
    assert (len + (body + rest))[..|len|] == len && (len + (body + rest))[|len|..] == body + rest;
    CutWhole(body, rest);
  }

  lemma ShortListHeader(b0: byte, body: Bytes, rest: Bytes)
    requires |body| < 56 && b0 as nat == 0xc0 + |body|
    ensures ReadHeader([b0] + body + rest) == Some(Header(true, body, rest))
  {
    CutWhole(body, rest);
    assert ([b0] + body + rest)[1..] == body + rest;
  }

  lemma ReadsLongList(b0: byte, tail: Bytes)
    requires b0 >= 0xf8
    ensures ReadHeader([b0] + tail) == LongForm(true, b0 as nat - 0xf7, tail)
  {
    assert ([b0] + tail)[1..] == tail;
  }

  lemma LongListHeader(b0: byte, body: Bytes, rest: Bytes)
    requires 56 <= |body| < TWO64 && b0 as nat == 0xf7 + |Minimal(|body|)|
    ensures ReadHeader([b0] + Minimal(|body|) + body + rest) == Some(Header(true, body, rest))
  {
    LongHeader(body, rest);
    ReadsLongList(b0, Minimal(|body|) + (body + rest));
    assert [b0] + Minimal(|body|) + body + rest == [b0] + (Minimal(|body|) + (body + rest));
  }

  lemma LengthFits(n: nat)
    requires n < TWO64
    ensures |Minimal(n)| <= 8 && (0xf7 + |Minimal(n)|) % 256 == 0xf7 + |Minimal(n)|
  {
    Pow256Values();
    MinimalWidth(n, 8);
  }

  lemma ListHeader(items: seq<Bytes>, rest: Bytes)
    requires |Concat(items)| < TWO64
    ensures ReadHeader(EncodeList(items) + rest) == Some(Header(true, Concat(items), rest))
  {
    var body := Concat(items);
    if |body| < 56 {
      ShortListHeader(OrC0(|body|), body, rest);
    } else {
      LengthFits(|body|);
      LongListHeader((0xf7 + |Minimal(|body|)|) as byte, body, rest);
    }
  }

  /** A list of 64-bit integers and short strings, with a body of any length, is read back item by item. */
  lemma ListRoundTrip(vs: seq<Value>, rest: Bytes)
    requires forall i :: 0 <= i < |vs| ==> Encodable(vs[i])
    requires |Concat(EncodedAll(vs))| < TWO64
    ensures Decode(EncodeList(EncodedAll(vs)) + rest) == Some((List(MeaningAll(vs)), rest))
  {
    ListHeader(EncodedAll(vs), rest);
    BodyRoundTrip(vs);
  }

  /** Different transactions have different encodings. */
  lemma ListInjective(us: seq<Value>, vs: seq<Value>)
    requires forall i :: 0 <= i < |us| ==> Encodable(us[i])
    requires forall i :: 0 <= i < |vs| ==> Encodable(vs[i])
    requires |Concat(EncodedAll(us))| < TWO64 && |Concat(EncodedAll(vs))| < TWO64
    requires EncodeList(EncodedAll(us)) == EncodeList(EncodedAll(vs))
    ensures MeaningAll(us) == MeaningAll(vs)
  {
    ListRoundTrip(us, []);
    ListRoundTrip(vs, []);
  }

  // ---- The loops ----

  method RlpEncodeUint(n: nat) returns (r: Bytes)
    requires n < TWO64
    ensures r == EncodeUint(n)
  {
    if n == 0 { return [0x80]; }
    var b: Bytes, m := [], n;
    while m > 0
      invariant Minimal(n) == Minimal(m) + b
    {
      assert Minimal(m) + b == Minimal(m / 256) + ([(m % 256) as byte] + b);
      b := [(m % 256) as byte] + b;
      m := m / 256;
    }
    r := EncodeBytes(b);
  }

  method RlpEncodeList(items: seq<Bytes>) returns (r: Bytes)
    ensures r == EncodeList(items)
  {
    var body: Bytes := [];
    for i := 0 to |items|
      invariant body == Concat(items[..i])
    {
      assert items[..i + 1][..i] == items[..i];
      body := body + items[i];
    }
    assert items[..|items|] == items;
    if |body| < 56 { return [OrC0(|body|)] + body; }
    var lenBytes := Minimal(|body|);
    r := [((0xf7 + |lenBytes|) % 256) as byte];
    r := r + lenBytes;
    return r + body;
  }
}
