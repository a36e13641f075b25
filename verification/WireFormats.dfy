/** The bytes of each wire message, field by field, as a reader of the other side's code would list them. */
module WireFormats {
  import opened Bytes
  import opened Trunnel

  // ---- Integers, most significant byte first ----

  function U16(n: nat): Bytes { [(n / 0x100 % 256) as byte, (n % 256) as byte] }

  function U32(n: nat): Bytes {
    [(n / 0x100_0000 % 256) as byte, (n / 0x1_0000 % 256) as byte, (n / 0x100 % 256) as byte, (n % 256) as byte]
  }

  function U64(n: nat): Bytes { U32(n / 0x1_0000_0000) + U32(n) }

  lemma BEByte(n: nat)
    requires n < 256
    ensures BE(n, 1) == [n as byte]
  {
    TagByte(n as byte);
  }

  lemma BEMore(n: nat, w: nat)
    ensures BE(n, w + 1) == BE(n / 256, w) + [(n % 256) as byte]
  {}

  lemma BEU16(n: nat)
    ensures BE(n, 2) == U16(n)
  {
    BEMore(n, 1);
    BEMore(n / 256, 0);
  }

  lemma BEPair(n: nat, w: nat)
    ensures BE(n, w + 2) == BE(n / 0x1_0000, w) + U16(n)
  {
    BEMore(n, w + 1);
    BEMore(n / 256, w);
    assert n / 256 / 256 == n / 0x1_0000;
  }

  lemma BEFour(n: nat, w: nat)
    ensures BE(n, w + 4) == BE(n / 0x1_0000_0000, w) + U32(n)
  {
    BEPair(n, w + 2);
    BEPair(n / 0x1_0000, w);
    assert n / 0x1_0000 / 0x1_0000 == n / 0x1_0000_0000;
    assert n / 0x1_0000 / 0x100 == n / 0x100_0000;
    assert U32(n) == U16(n / 0x1_0000) + U16(n);
    Assoc(BE(n / 0x1_0000_0000, w), U16(n / 0x1_0000), U16(n));
  }

  lemma BEU32(n: nat)
    ensures BE(n, 4) == U32(n)
  {
    BEFour(n, 0);
  }

  lemma BEU64(n: nat)
    ensures BE(n, 8) == U64(n)
  {
    BEFour(n, 4);
    BEU32(n / 0x1_0000_0000);
  }

  // ---- Fields ----

  function Joined(parts: seq<Bytes>): Bytes { if parts == [] then [] else parts[0] + Joined(parts[1..]) }

  /** The message is a valid one of its layout, and its bytes are these parts. */
  ghost predicate Reads(l: Layout, m: Message, parts: seq<Bytes>) { WellFormed(l, m) && Encode(l, m) == Joined(parts) }

  lemma JoinedCons(a: Bytes, parts: seq<Bytes>)
    ensures Joined([a] + parts) == a + Joined(parts)
  {
    assert ([a] + parts)[1..] == parts;
  }

  lemma EndReads()
    ensures Reads(End, Nil, [])
  {}

  lemma FieldReads(f: Field, l: Layout, x: Item, m: Message, b: Bytes, parts: seq<Bytes>)
    requires ItemTyped(f, x) && ItemValid(f, x) && EncodeItem(f, x) == b && Reads(l, m, parts)
    ensures Reads(Then(f, l), Cons(x, m), [b] + parts)
  {
    JoinedCons(b, parts);
  }

  lemma RawReads(l: Layout, b: Bytes, m: Message, parts: seq<Bytes>)
    requires Reads(l, m, parts)
    ensures Reads(Then(Fixed(|b|), l), Cons(Raw(b), m), [b] + parts)
  {
    FieldReads(Fixed(|b|), l, Raw(b), m, b, parts);
  }

  lemma ByteReads(l: Layout, n: nat, m: Message, parts: seq<Bytes>)
    requires n < 256 && Reads(l, m, parts)
    ensures Reads(Then(Uint(1), l), Cons(Num(n), m), [[n as byte]] + parts)
    ensures n <= 1 ==> Reads(Then(Flag, l), Cons(Num(n), m), [[n as byte]] + parts)
  {
    Pow256Values();
    BEByte(n);
    FieldReads(Uint(1), l, Num(n), m, [n as byte], parts);
    if n <= 1 { FieldReads(Flag, l, Num(n), m, [n as byte], parts); }
  }

  lemma WordReads(l: Layout, n: nat, m: Message, parts: seq<Bytes>)
    requires n < TWO64 && Reads(l, m, parts)
    ensures Reads(Then(Uint(8), l), Cons(Num(n), m), [U64(n)] + parts)
  {
    Pow256Values();
    BEU64(n);
    FieldReads(Uint(8), l, Num(n), m, U64(n), parts);
  }

  /** A length and that many bytes. */
  lemma ShortBlobReads(l: Layout, b: Bytes, m: Message, parts: seq<Bytes>)
    requires |b| < 0x1_0000 && Reads(l, m, parts)
    ensures Reads(Then(Blob(2), l), Cons(Var(|b|, b), m), [U16(|b|), b] + parts)
  {
    Pow256Values();
    BEU16(|b|);
    FieldReads(Blob(2), l, Var(|b|, b), m, U16(|b|) + b, parts);
    BlobJoined(U16(|b|), b, parts);
  }

  lemma BlobReads(l: Layout, b: Bytes, m: Message, parts: seq<Bytes>)
    requires |b| < TWO32 && Reads(l, m, parts)
    ensures Reads(Then(Blob(4), l), Cons(Var(|b|, b), m), [U32(|b|), b] + parts)
  {
    Pow256Values();
    BEU32(|b|);
    FieldReads(Blob(4), l, Var(|b|, b), m, U32(|b|) + b, parts);
    BlobJoined(U32(|b|), b, parts);
  }

  lemma BlobJoined(a: Bytes, b: Bytes, parts: seq<Bytes>)
    ensures Joined([a, b] + parts) == Joined([a + b] + parts)
  {
    assert [a, b] + parts == [a] + ([b] + parts);
    JoinedCons(a, [b] + parts);
    JoinedCons(b, parts);
    JoinedCons(a + b, parts);
  }

  // ---- Between the client and the courier ----

  lemma CourierEnvelopeBytes(replicas: Bytes, dek1: Bytes, dek2: Bytes, replyIndex: nat, epoch: nat, sender: Bytes, ciphertext: Bytes)
    requires |replicas| == 2 && |dek1| == 60 && |dek2| == 60 && replyIndex < 256 && epoch < TWO64
    requires |sender| < 0x1_0000 && |ciphertext| < TWO32
    ensures Reads(COURIER_ENVELOPE,
                  Cons(Raw(replicas), Cons(Raw(dek1), Cons(Raw(dek2), Cons(Num(replyIndex), Cons(Num(epoch),
                  Cons(Var(|sender|, sender), Cons(Var(|ciphertext|, ciphertext), Nil))))))),
                  [replicas, dek1, dek2, [replyIndex as byte], U64(epoch), U16(|sender|), sender, U32(|ciphertext|), ciphertext])
  {
    var l7 := Then(Blob(4), End);
    var l6 := Then(Blob(2), l7);
    var l5 := Then(Uint(8), l6);
    var l4 := Then(Uint(1), l5);
    var m7 := Cons(Var(|ciphertext|, ciphertext), Nil);
    var m6 := Cons(Var(|sender|, sender), m7);
    var m5 := Cons(Num(epoch), m6);
    var m4 := Cons(Num(replyIndex), m5);
    var p7 := [U32(|ciphertext|), ciphertext];
    var p6 := [U16(|sender|), sender] + p7;
    var p4 := [[replyIndex as byte]] + ([U64(epoch)] + p6);
    EndReads();
    BlobReads(End, ciphertext, Nil, []);
    assert p7 + [] == p7;
    ShortBlobReads(l7, sender, m7, p7);
    WordReads(l6, epoch, m6, p6);
    ByteReads(l5, replyIndex, m5, [U64(epoch)] + p6);
    RawReads(l4, dek2, m4, p4);
    RawReads(Then(Fixed(60), l4), dek1, Cons(Raw(dek2), m4), [dek2] + p4);
    RawReads(Then(Fixed(60), Then(Fixed(60), l4)), replicas, Cons(Raw(dek1), Cons(Raw(dek2), m4)), [dek1] + ([dek2] + p4));
    assert [replicas] + ([dek1] + ([dek2] + p4)) ==
           [replicas, dek1, dek2, [replyIndex as byte], U64(epoch), U16(|sender|), sender, U32(|ciphertext|), ciphertext];
  }

  lemma CopyCommandBytes(writeCap: Bytes)
    requires |writeCap| < TWO32
    ensures Reads(COPY_COMMAND, Cons(Var(|writeCap|, writeCap), Nil), [U32(|writeCap|), writeCap])
  {
    EndReads();
    BlobReads(End, writeCap, Nil, []);
    assert [U32(|writeCap|), writeCap] + [] == [U32(|writeCap|), writeCap];
  }

  lemma CourierEnvelopeReplyBytes(envelopeHash: Bytes, replyIndex: nat, replyType: nat, payload: Bytes, errorCode: nat)
    requires |envelopeHash| == 32 && replyIndex < 256 && replyType <= 1 && |payload| < TWO32 && errorCode < 256
    ensures Reads(COURIER_ENVELOPE_REPLY,
                  Cons(Raw(envelopeHash), Cons(Num(replyIndex), Cons(Num(replyType), Cons(Var(|payload|, payload), Cons(Num(errorCode), Nil))))),
                  [envelopeHash, [replyIndex as byte], [replyType as byte], U32(|payload|), payload, [errorCode as byte]])
  {
    var l5 := Then(Uint(1), End);
    var l4 := Then(Blob(4), l5);
    var l3 := Then(Flag, l4);
    var m5 := Cons(Num(errorCode), Nil);
    var m4 := Cons(Var(|payload|, payload), m5);
    var m3 := Cons(Num(replyType), m4);
    var p4 := [U32(|payload|), payload] + ([[errorCode as byte]] + []);
    EndReads();
    ByteReads(End, errorCode, Nil, []);
    BlobReads(l5, payload, m5, [[errorCode as byte]] + []);
    ByteReads(l4, replyType, m4, p4);
    ByteReads(l3, replyIndex, m3, [[replyType as byte]] + p4);
    RawReads(Then(Uint(1), l3), envelopeHash, Cons(Num(replyIndex), m3), [[replyIndex as byte]] + ([[replyType as byte]] + p4));
    assert [envelopeHash] + ([[replyIndex as byte]] + ([[replyType as byte]] + p4)) ==
           [envelopeHash, [replyIndex as byte], [replyType as byte], U32(|payload|), payload, [errorCode as byte]];
  }

  lemma CopyCommandReplyBytes(status: nat, errorCode: nat, failedEnvelopeIndex: nat)
    requires status < 256 && errorCode < 256 && failedEnvelopeIndex < TWO64
    ensures Reads(COPY_COMMAND_REPLY, Cons(Num(status), Cons(Num(errorCode), Cons(Num(failedEnvelopeIndex), Nil))),
                  [[status as byte], [errorCode as byte], U64(failedEnvelopeIndex)])
  {
    var l3 := Then(Uint(8), End);
    var m3 := Cons(Num(failedEnvelopeIndex), Nil);
    EndReads();
    WordReads(End, failedEnvelopeIndex, Nil, []);
    ByteReads(l3, errorCode, m3, [U64(failedEnvelopeIndex)] + []);
    ByteReads(Then(Uint(1), l3), status, Cons(Num(errorCode), m3), [[errorCode as byte]] + ([U64(failedEnvelopeIndex)] + []));
    assert [[status as byte]] + ([[errorCode as byte]] + ([U64(failedEnvelopeIndex)] + [])) ==
           [[status as byte], [errorCode as byte], U64(failedEnvelopeIndex)];
  }

  lemma CopyStreamElementBytes(flags: nat, data: Bytes)
    requires flags < 256 && |data| < TWO32
    ensures Reads(COPY_STREAM_ELEMENT, Cons(Num(flags), Cons(Var(|data|, data), Nil)), [[flags as byte], U32(|data|), data])
  {
    EndReads();
    BlobReads(End, data, Nil, []);
    ByteReads(Then(Blob(4), End), flags, Cons(Var(|data|, data), Nil), [U32(|data|), data] + []);
    assert [[flags as byte]] + ([U32(|data|), data] + []) == [[flags as byte], U32(|data|), data];
  }

  // ---- Between the client and the replica ----

  lemma ReplicaReadBytes(boxID: Bytes)
    requires |boxID| == 32
    ensures Reads(REPLICA_READ, Cons(Raw(boxID), Nil), [boxID])
  {
    EndReads();
    RawReads(End, boxID, Nil, []);
    assert [boxID] + [] == [boxID];
  }

  lemma ReplicaWriteBytes(boxID: Bytes, signature: Bytes, payload: Bytes)
    requires |boxID| == 32 && |signature| == 64 && |payload| < TWO32
    ensures Reads(REPLICA_WRITE, Cons(Raw(boxID), Cons(Raw(signature), Cons(Var(|payload|, payload), Nil))),
                  [boxID, signature, U32(|payload|), payload])
  {
    var m3, p3 := Cons(Var(|payload|, payload), Nil), [U32(|payload|), payload] + [];
    EndReads();
    BlobReads(End, payload, Nil, []);
    RawReads(Then(Blob(4), End), signature, m3, p3);
    RawReads(Then(Fixed(64), Then(Blob(4), End)), boxID, Cons(Raw(signature), m3), [signature] + p3);
    assert [boxID] + ([signature] + p3) == [boxID, signature, U32(|payload|), payload];
  }

  lemma ReplicaReadReplyBytes(errorCode: nat, boxID: Bytes, signature: Bytes, payload: Bytes)
    requires errorCode < 256 && |boxID| == 32 && |signature| == 64 && |payload| < TWO32
    ensures Reads(REPLICA_READ_REPLY, Cons(Num(errorCode), Cons(Raw(boxID), Cons(Raw(signature), Cons(Var(|payload|, payload), Nil)))),
                  [[errorCode as byte], boxID, signature, U32(|payload|), payload])
  {
    var m := Cons(Raw(boxID), Cons(Raw(signature), Cons(Var(|payload|, payload), Nil)));
    ReplicaWriteBytes(boxID, signature, payload);
    ByteReads(REPLICA_WRITE, errorCode, m, [boxID, signature, U32(|payload|), payload]);
    assert [[errorCode as byte]] + [boxID, signature, U32(|payload|), payload] ==
           [[errorCode as byte], boxID, signature, U32(|payload|), payload];
  }

  lemma ReplicaWriteReplyBytes(errorCode: nat)
    requires errorCode < 256
    ensures Reads(REPLICA_WRITE_REPLY, Cons(Num(errorCode), Nil), [[errorCode as byte]])
  {
    EndReads();
    ByteReads(End, errorCode, Nil, []);
    assert [[errorCode as byte]] + [] == [[errorCode as byte]];
  }

  lemma BoxBytes(boxID: Bytes, payload: Bytes, signature: Bytes)
    requires |boxID| == 32 && |payload| < TWO32 && |signature| == 64
    ensures Reads(BOX, Cons(Raw(boxID), Cons(Var(|payload|, payload), Cons(Raw(signature), Nil))),
                  [boxID, U32(|payload|), payload, signature])
  {
    var m3, m2 := Cons(Raw(signature), Nil), Cons(Var(|payload|, payload), Cons(Raw(signature), Nil));
    EndReads();
    RawReads(End, signature, Nil, []);
    BlobReads(Then(Fixed(64), End), payload, m3, [signature] + []);
    RawReads(Then(Blob(4), Then(Fixed(64), End)), boxID, m2, [U32(|payload|), payload] + ([signature] + []));
    assert [boxID] + ([U32(|payload|), payload] + ([signature] + [])) == [boxID, U32(|payload|), payload, signature];
  }

  // ---- Unions ----

  lemma ArmReads(a: Layout, b: Layout, tag: byte, m: Message, parts: seq<Bytes>)
    requires tag <= 1 && Reads(if tag == 0 then a else b, m, parts)
    ensures Reads(Choice(a, b), Arm(tag as nat, m), [[tag]] + parts)
  {
    EncodeArm(a, b, tag, m, []);
    assert Encode(Choice(a, b), Arm(tag as nat, m)) + [] == Encode(Choice(a, b), Arm(tag as nat, m));
    JoinedCons([tag], parts);
  }

  /** Each union is its tag and the arm that the tag stands for. */
  lemma UnionBytes(m: Message, parts: seq<Bytes>)
    ensures Reads(COURIER_ENVELOPE, m, parts) ==> Reads(COURIER_QUERY, Arm(0, m), [[0]] + parts)
    ensures Reads(COPY_COMMAND, m, parts) ==> Reads(COURIER_QUERY, Arm(1, m), [[1]] + parts)
    ensures Reads(COURIER_ENVELOPE_REPLY, m, parts) ==> Reads(COURIER_QUERY_REPLY, Arm(0, m), [[0]] + parts)
    ensures Reads(COPY_COMMAND_REPLY, m, parts) ==> Reads(COURIER_QUERY_REPLY, Arm(1, m), [[1]] + parts)
    ensures Reads(REPLICA_READ, m, parts) ==> Reads(REPLICA_INNER_MESSAGE, Arm(0, m), [[0]] + parts)
    ensures Reads(REPLICA_WRITE, m, parts) ==> Reads(REPLICA_INNER_MESSAGE, Arm(1, m), [[1]] + parts)
    ensures Reads(REPLICA_READ_REPLY, m, parts) ==> Reads(REPLICA_REPLY_INNER_MESSAGE, Arm(0, m), [[0]] + parts)
    ensures Reads(REPLICA_WRITE_REPLY, m, parts) ==> Reads(REPLICA_REPLY_INNER_MESSAGE, Arm(1, m), [[1]] + parts)
  {
    if Reads(COURIER_ENVELOPE, m, parts) { ArmReads(COURIER_ENVELOPE, COPY_COMMAND, 0, m, parts); }
    if Reads(COPY_COMMAND, m, parts) { ArmReads(COURIER_ENVELOPE, COPY_COMMAND, 1, m, parts); }
    if Reads(COURIER_ENVELOPE_REPLY, m, parts) { ArmReads(COURIER_ENVELOPE_REPLY, COPY_COMMAND_REPLY, 0, m, parts); }
    if Reads(COPY_COMMAND_REPLY, m, parts) { ArmReads(COURIER_ENVELOPE_REPLY, COPY_COMMAND_REPLY, 1, m, parts); }
    if Reads(REPLICA_READ, m, parts) { ArmReads(REPLICA_READ, REPLICA_WRITE, 0, m, parts); }
    if Reads(REPLICA_WRITE, m, parts) { ArmReads(REPLICA_READ, REPLICA_WRITE, 1, m, parts); }
    if Reads(REPLICA_READ_REPLY, m, parts) { ArmReads(REPLICA_READ_REPLY, REPLICA_WRITE_REPLY, 0, m, parts); }
    if Reads(REPLICA_WRITE_REPLY, m, parts) { ArmReads(REPLICA_READ_REPLY, REPLICA_WRITE_REPLY, 1, m, parts); }
  }
}
