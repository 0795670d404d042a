/** Writing back what was read: the same tree, in no more bytes, and exactly when in the same bytes. */
module WireProofs {
  import opened Collections
  import opened Varint
  import opened Wire

  // ----- fields --------------------------------------------------------------------------

  /** What can be written and read: a possible field number, and a value of its size. */
  predicate Writable(raw: Raw) {
    && 0 < raw.field <= MAX_FIELD_NUMBER
    && match raw
       case RawVarint(_, value) => value < 0x1_0000_0000_0000_0000
       case RawI64(_, bytes) => |bytes| == 8
       case RawI32(_, bytes) => |bytes| == 4
       case RawLen(_, sub) => |sub| < 0x1_0000_0000_0000_0000
  }

  /** What is cut is writable, and its tag is its field and its wire type. */
  lemma CutIsWritable(bytes: seq<Byte>) returns (v: Read, value: Cut)
    requires CutField(bytes).Some?
    ensures ReadVarint(bytes) == Some(v) && v.length <= |bytes|
    ensures SplitTag(v.value) == Tag(value.raw.field, WireOf(value.raw)) && TagOf(value.raw) == v.value
    ensures CutValue(value.raw.field, WireOf(value.raw), bytes[v.length..]) == Some(value)
    ensures CutField(bytes) == Some(Cut(value.raw, v.length + value.length)) && Writable(value.raw)
  {
    v := ReadVarint(bytes).value;
    var tag, rest := SplitTag(v.value), bytes[v.length..];
    value := CutValue(tag.field, tag.wire, rest).value;
    if tag.wire == 0 || tag.wire == 2 {
      VarintFits(rest);
    }
  }

  /** `t` is read as the varint `v`, whatever follows. */
  ghost predicate Codes(t: seq<Byte>, v: nat) {
    forall rest: seq<Byte> :: ReadVarint(t + rest) == Some(Read(v, |t|))
  }

  /** `value` is read as the value of `raw`, whatever follows. */
  ghost predicate CodesValue(value: seq<Byte>, raw: Raw) {
    forall rest: seq<Byte> :: CutValue(raw.field, WireOf(raw), value + rest) == Some(Cut(raw, |value|))
  }

  /** `w` is read as the field `raw`, whatever follows. */
  ghost predicate CodesField(w: seq<Byte>, raw: Raw) {
    forall rest: seq<Byte> :: CutField(w + rest) == Some(Cut(raw, |w|))
  }

  lemma WrittenCodes(v: nat)
    requires v < 0x1_0000_0000_0000_0000
    ensures Codes(WriteVarint(v), v)
  {
    forall rest: seq<Byte> ensures ReadVarint(WriteVarint(v) + rest) == Some(Read(v, |WriteVarint(v)|)) {
      ReadsWritten(v, rest);
    }
  }

  lemma VarintCodes(field: nat, value: nat, t: seq<Byte>)
    requires Codes(t, value)
    ensures CodesValue(t, RawVarint(field, value))
  {
  }

  lemma FixedCodes(field: nat, bytes: seq<Byte>)
    ensures |bytes| == 8 ==> CodesValue(bytes, RawI64(field, bytes))
    ensures |bytes| == 4 ==> CodesValue(bytes, RawI32(field, bytes))
  {
    forall rest: seq<Byte> ensures (bytes + rest)[..|bytes|] == bytes {
    }
  }

  lemma LenCodes(field: nat, sub: seq<Byte>, length: seq<Byte>)
    requires Codes(length, |sub|)
    ensures CodesValue(length + sub, RawLen(field, sub))
  {
    forall rest: seq<Byte>
      ensures CutValue(field, 2, length + sub + rest) == Some(Cut(RawLen(field, sub), |length + sub|))
    {
      var all := length + (sub + rest);
      assert length + sub + rest == all && all[|length|..|length| + |sub|] == sub;
      assert ReadVarint(all) == Some(Read(|sub|, |length|));
    }
  }

  lemma ValueCodes(raw: Raw)
    requires Writable(raw)
    ensures CodesValue(WriteValue(raw), raw)
  {
    match raw
    case RawVarint(field, value) =>
      WrittenCodes(value);
      VarintCodes(field, value, WriteVarint(value));
    case RawI64(field, bytes) => FixedCodes(field, bytes);
    case RawI32(field, bytes) => FixedCodes(field, bytes);
    case RawLen(field, sub) =>
      WrittenCodes(|sub|);
      LenCodes(field, sub, WriteVarint(|sub|));
  }

  lemma TagSplits(raw: Raw)
    ensures SplitTag(TagOf(raw)) == Tag(raw.field, WireOf(raw))
  {
  }

  lemma CutFieldIs(raw: Raw, all: seq<Byte>, v: Read, rest: seq<Byte>, n: nat)
    requires ReadVarint(all) == Some(v) && SplitTag(v.value) == Tag(raw.field, WireOf(raw))
    requires 0 < raw.field <= MAX_FIELD_NUMBER && rest == all[v.length..]
    requires CutValue(raw.field, WireOf(raw), rest) == Some(Cut(raw, n))
    ensures CutField(all) == Some(Cut(raw, v.length + n))
  {
  }

  lemma Regroup(t: seq<Byte>, value: seq<Byte>, rest: seq<Byte>)
    ensures t + value + rest == t + (value + rest) && (t + (value + rest))[|t|..] == value + rest
  {
  }

  /** A tag in front of a value. */
  lemma TagThenValue(raw: Raw, t: seq<Byte>, value: seq<Byte>, rest: seq<Byte>)
    requires 0 < raw.field <= MAX_FIELD_NUMBER && Codes(t, TagOf(raw)) && CodesValue(value, raw)
    ensures CutField(t + value + rest) == Some(Cut(raw, |t + value|))
  {
    var later := value + rest;
    Regroup(t, value, rest);
    TagSplits(raw);
    CutFieldIs(raw, t + later, Read(TagOf(raw), |t|), later, |value|);
  }

  lemma BothCode(raw: Raw, t: seq<Byte>, value: seq<Byte>)
    requires 0 < raw.field <= MAX_FIELD_NUMBER && Codes(t, TagOf(raw)) && CodesValue(value, raw)
    ensures CodesField(t + value, raw)
  {
    forall rest: seq<Byte> ensures CutField(t + value + rest) == Some(Cut(raw, |t + value|)) {
      TagThenValue(raw, t, value, rest);
    }
  }

  /** CUTTING INVERTS WRITING, whatever follows. */
  lemma FieldReads(raw: Raw)
    requires Writable(raw)
    ensures CodesField(WriteField(raw), raw)
  {
    WrittenCodes(TagOf(raw));
    ValueCodes(raw);
    BothCode(raw, WriteVarint(TagOf(raw)), WriteValue(raw));
  }

  // ----- sizes ---------------------------------------------------------------------------

  lemma {:induction false} WriteGrows(a: nat, b: nat)
    requires a <= b
    ensures |WriteVarint(a)| <= |WriteVarint(b)|
    decreases b
  {
    if a >= 128 {
      WriteGrows(a / 128, b / 128);
    }
  }

  /** The varint at the front takes no more bytes than it needs. */
  predicate Shortest(bytes: seq<Byte>) {
    ReadVarint(bytes).Some? && |WriteVarint(ReadVarint(bytes).value.value)| == ReadVarint(bytes).value.length
  }

  /** ... and a value, if it is or has one. */
  predicate ShortestValue(wire: nat, bytes: seq<Byte>) {
    wire == 0 || wire == 2 ==> Shortest(bytes)
  }

  /** ... and both the tag and the value of the field at the front. */
  predicate ShortestField(bytes: seq<Byte>) {
    && Shortest(bytes)
    && ShortestValue(SplitTag(ReadVarint(bytes).value.value).wire, bytes[ReadVarint(bytes).value.length..])
  }

  /** A value written back with something no longer nested in it is no longer, and it is as long
      exactly when its varint was as short as can be and what is nested is as long. */
  lemma ValueSize(was: Cut, rest: seq<Byte>, raw: Raw)
    requires CutValue(was.raw.field, WireOf(was.raw), rest) == Some(was)
    requires raw == was.raw
          || (was.raw.RawLen? && raw.RawLen? && raw.field == was.raw.field && |raw.sub| <= |was.raw.sub|)
    ensures |WriteValue(raw)| <= was.length
    ensures |WriteValue(raw)| == was.length <==> ShortestValue(WireOf(was.raw), rest) && Size(raw) == Size(was.raw)
  {
    if WireOf(was.raw) == 0 {
      WrittenIsShortest(rest, 0);
    } else if WireOf(was.raw) == 2 {
      LenSize(was, rest, raw);
    }
  }

  lemma LenSize(was: Cut, rest: seq<Byte>, raw: Raw)
    requires was.raw.RawLen? && CutValue(was.raw.field, 2, rest) == Some(was)
    requires raw.RawLen? && |raw.sub| <= |was.raw.sub|
    ensures |WriteValue(raw)| <= was.length
    ensures |WriteValue(raw)| == was.length <==> Shortest(rest) && |raw.sub| == |was.raw.sub|
  {
    WrittenIsShortest(rest, 0);
    WriteGrows(|raw.sub|, |was.raw.sub|);
  }

  /** So for a field. */
  lemma RewrittenSize(bytes: seq<Byte>, raw: Raw)
    requires CutField(bytes).Some?
    requires var was := CutField(bytes).value.raw;
      raw == was || (was.RawLen? && raw.RawLen? && raw.field == was.field && |raw.sub| <= |was.sub|)
    ensures var cut := CutField(bytes).value;
      && |WriteField(raw)| <= cut.length
      && (|WriteField(raw)| == cut.length <==> ShortestField(bytes) && Size(raw) == Size(cut.raw))
  {
    var v, value := CutIsWritable(bytes);
    WrittenIsShortest(bytes, 0);
    ValueSize(value, bytes[v.length..], raw);
    assert TagOf(raw) == v.value;
  }

  lemma ValueSame(value: Cut, rest: seq<Byte>)
    requires CutValue(value.raw.field, WireOf(value.raw), rest) == Some(value) && ShortestValue(WireOf(value.raw), rest)
    ensures WriteValue(value.raw) == rest[..value.length]
  {
    if WireOf(value.raw) == 0 {
      WrittenIsShortest(rest, 0);
    } else if WireOf(value.raw) == 2 {
      WrittenIsShortest(rest, 0);
      var k := ReadVarint(rest).value.length;
      assert rest[..value.length] == rest[..k] + rest[k..value.length];
    }
  }

  /** ... and then it is the very bytes. */
  lemma RewrittenSame(bytes: seq<Byte>)
    requires CutField(bytes).Some? && |WriteField(CutField(bytes).value.raw)| == CutField(bytes).value.length
    ensures WriteField(CutField(bytes).value.raw) == bytes[..CutField(bytes).value.length]
  {
    var v, value := CutIsWritable(bytes);
    var rest := bytes[v.length..];
    RewrittenSize(bytes, value.raw);
    WrittenIsShortest(bytes, 0);
    ValueSame(value, rest);
    assert bytes[..v.length + value.length] == bytes[..v.length] + rest[..value.length];
  }

  // ----- trees ---------------------------------------------------------------------------

  lemma EncodeOne(node: Node, later: seq<Node>)
    ensures Encode([node] + later) == WriteField(RawOf(node)) + Encode(later)
  {
    assert ([node] + later)[1..] == later;
  }

  lemma DecodeOne(bytes: seq<Byte>, cut: Cut, rest: seq<Byte>, depth: nat)
    requires bytes != [] && CutField(bytes) == Some(cut) && rest == bytes[cut.length..] && Decode(rest, depth).Some?
    ensures Decode(bytes, depth) == Some([NodeOf(cut.raw, depth)] + Decode(rest, depth).value)
  {
  }

  /** Every varint of the message, at every depth, takes no more bytes than it needs. */
  predicate AllShortest(bytes: seq<Byte>, depth: nat)
    decreases Levels(depth), |bytes|, 3
  {
    bytes == [] || CutField(bytes).None? || (
      && ShortestField(bytes)
      && (SmallerThanField(bytes); NestedShortest(CutField(bytes).value.raw, depth))
      && AllShortest(bytes[CutField(bytes).value.length..], depth))
  }

  predicate NestedShortest(raw: Raw, depth: nat)
    decreases Levels(depth), Size(raw), 1
  {
    raw.RawLen? && ReadLen(raw.sub, depth).Message? && depth + 1 < MAX_DEPTH ==> AllShortest(raw.sub, depth + 1)
  }

  /** What is nested, written back: read as the same, and no longer. */
  ghost predicate NestedAgain(raw: Raw, again: Raw, depth: nat) {
    && NodeOf(again, depth) == NodeOf(raw, depth)
    && (again == raw || (raw.RawLen? && again.RawLen? && again.field == raw.field && |again.sub| <= |raw.sub|))
    && (Size(again) == Size(raw) <==> NestedShortest(raw, depth))
    && (NestedShortest(raw, depth) ==> again == raw)
  }

  lemma {:induction false} RawAgain(raw: Raw, depth: nat)
    requires Writable(raw)
    ensures NestedAgain(raw, RawOf(NodeOf(raw, depth)), depth)
    decreases Levels(depth), Size(raw), 1
  {
    if raw.RawLen? && depth + 1 < MAX_DEPTH && Decode(raw.sub, depth + 1).Some? {
      ReencodeNormalises(raw.sub, depth + 1);
    }
  }

  /** The front field and the rest, each written back. */
  lemma JoinsUp(bytes: seq<Byte>, cut: Cut, again: Raw, later: seq<Byte>, depth: nat)
    requires CutField(bytes) == Some(cut) && Writable(cut.raw) && NestedAgain(cut.raw, again, depth)
    requires var rest := bytes[cut.length..];
      |later| <= |rest| && (|later| == |rest| <==> AllShortest(rest, depth)) && (AllShortest(rest, depth) ==> later == rest)
    ensures var w := WriteField(again) + later;
      && |w| <= |bytes|
      && (|w| == |bytes| <==> AllShortest(bytes, depth))
      && (AllShortest(bytes, depth) ==> w == bytes)
      && CutField(w) == Some(Cut(again, |WriteField(again)|)) && w[|WriteField(again)|..] == later
  {
    RewrittenSize(bytes, again);
    FieldReads(again);
    if AllShortest(bytes, depth) {
      RewrittenSame(bytes);
      assert bytes == bytes[..cut.length] + bytes[cut.length..];
    }
  }

  /** WRITING BACK NORMALISES: a tree that was read, written with its varints in their fewest bytes
      and read again at the same depth, is the same tree; it takes no more bytes, and it is the very
      bytes it was read from exactly when every varint in them was as short as can be. */
  lemma {:induction false} ReencodeNormalises(bytes: seq<Byte>, depth: nat)
    requires Decode(bytes, depth).Some?
    ensures var nodes := Decode(bytes, depth).value;
      && Decode(Encode(nodes), depth) == Some(nodes)
      && |Encode(nodes)| <= |bytes|
      && (|Encode(nodes)| == |bytes| <==> AllShortest(bytes, depth))
      && (Encode(nodes) == bytes <==> AllShortest(bytes, depth))
    decreases Levels(depth), |bytes|, 3
  {
    if bytes != [] {
      var v, value := CutIsWritable(bytes);
      var cut := CutField(bytes).value;
      var rest := bytes[cut.length..];
      SmallerThanField(bytes);
      RawAgain(cut.raw, depth);
      ReencodeNormalises(rest, depth);
      var node, later := NodeOf(cut.raw, depth), Decode(rest, depth).value;
      var again := RawOf(node);
      DecodeOne(bytes, cut, rest, depth);
      JoinsUp(bytes, cut, again, Encode(later), depth);
      EncodeOne(node, later);
      DecodeOne(WriteField(again) + Encode(later), Cut(again, |WriteField(again)|), Encode(later), depth);
    }
  }
}
