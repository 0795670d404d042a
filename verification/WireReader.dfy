/** `decodeWire` and `readLen` as they are written, with what they look at counted. */
module WireReader {
  import opened Collections
  import opened Varint
  import opened Wire

  // ----- what is looked at ---------------------------------------------------------------

  /** Bytes looked at to cut the value of a field. */
  ghost function ValueLooks(wire: nat, bytes: seq<Byte>): nat {
    match wire
    case 0 => Looked(bytes, 0)
    case 1 => if |bytes| < 8 then 0 else 8
    case 5 => if |bytes| < 4 then 0 else 4
    case 2 => Looked(bytes, 0)
    case _ => 0
  }

  /** ... and to cut the field at the front. */
  ghost function FieldLooks(bytes: seq<Byte>): nat {
    var v := ReadVarint(bytes);
    if v.None? || !IsTag(SplitTag(v.value.value)) then Looked(bytes, 0)
    else Looked(bytes, 0) + ValueLooks(SplitTag(v.value.value).wire, bytes[v.value.length..])
  }

  /** ... and for what is nested in a field: every attempt, failed ones too; a value kept as text or
      bytes is looked at `w` times more. */
  ghost function NestedCost(raw: Raw, depth: nat, w: nat): nat
    decreases Levels(depth), Size(raw), 1
  {
    if !raw.RawLen? then 0
    else
      (if depth + 1 < MAX_DEPTH then Cost(raw.sub, depth + 1, w) else 0)
      + (if ReadLen(raw.sub, depth).Message? then 0 else Times(w, |raw.sub|))
  }

  ghost function Cost(bytes: seq<Byte>, depth: nat, w: nat): nat
    decreases Levels(depth), |bytes|, 3
  {
    if bytes == [] then 0
    else
      var f := CutField(bytes);
      if f.None? then FieldLooks(bytes)
      else
        SmallerThanField(bytes);
        FieldLooks(bytes) + NestedCost(f.value.raw, depth, w) + Cost(bytes[f.value.length..], depth, w)
  }

  function Times(a: nat, b: nat): nat
    decreases a
  {
    if a == 0 then 0 else b + Times(a - 1, b)
  }

  lemma {:induction false} TimesSum(a: nat, b: nat, c: nat)
    ensures Times(a, b + c) == Times(a, b) + Times(a, c)
  {
    if a > 0 {
      TimesSum(a - 1, b, c);
    }
  }

  lemma {:induction false} TimesMore(a: nat, b: nat, c: nat)
    ensures Times(a + b, c) == Times(a, c) + Times(b, c)
  {
    if a > 0 {
      TimesMore(a - 1, b, c);
    }
  }

  /** Looks allowed for each byte of a message at a depth. */
  function Rate(depth: nat, w: nat): nat {
    Times(Levels(depth), 1 + w)
  }

  lemma RateCovers(depth: nat, w: nat, n: nat)
    requires depth < MAX_DEPTH
    ensures Times(Rate(depth + 1, w), n) + Times(w, n) + n == Times(Rate(depth, w), n)
  {
    assert Levels(depth) == 1 + Levels(depth + 1);
    TimesMore(1 + w, Rate(depth + 1, w), n);
    TimesMore(1, w, n);
    assert Times(1, n) == n + Times(0, n);
  }

  /** Cutting looks at no more than the field is long, what is nested in it aside. */
  lemma LooksAreFew(bytes: seq<Byte>)
    ensures FieldLooks(bytes) <= |bytes|
    ensures CutField(bytes).Some? ==> FieldLooks(bytes) + Size(CutField(bytes).value.raw) <= CutField(bytes).value.length
  {
    var v := ReadVarint(bytes);
    if v.Some? {
      LookedIsLength(bytes, 0);
      var rest := bytes[v.value.length..];
      if ReadVarint(rest).Some? {
        LookedIsLength(rest, 0);
      }
    }
  }

  lemma {:induction false} NestedIsBounded(raw: Raw, depth: nat, w: nat)
    requires depth < MAX_DEPTH
    ensures NestedCost(raw, depth, w) + Size(raw) <= Times(Rate(depth, w), Size(raw))
    decreases Levels(depth), Size(raw), 1
  {
    RateCovers(depth, w, Size(raw));
    if raw.RawLen? && depth + 1 < MAX_DEPTH {
      CostIsBounded(raw.sub, depth + 1, w);
    }
  }

  /** What cutting a field, reading what is nested in it and reading on may cost. */
  lemma SumIsBounded(looks: nat, nested: nat, later: nat, size: nat, length: nat, total: nat, depth: nat, w: nat)
    requires depth < MAX_DEPTH && looks + size <= length <= total && nested + size <= Times(Rate(depth, w), size)
    requires later <= Times(Rate(depth, w), total - length)
    ensures looks + nested + later <= Times(Rate(depth, w), total)
  {
    RateCovers(depth, w, length - size);
    TimesSum(Rate(depth, w), size, length - size);
    TimesSum(Rate(depth, w), length, total - length);
  }

  /** DECODING IS CHEAP, however hostile the bytes: over all nested attempts, failed ones included, no
      more than (16 - depth) looks a byte, and (16 - depth) * (1 + w) if what is kept as text or bytes
      is looked at `w` times more. */
  lemma {:induction false} CostIsBounded(bytes: seq<Byte>, depth: nat, w: nat)
    requires depth < MAX_DEPTH
    ensures Cost(bytes, depth, w) <= Times(Rate(depth, w), |bytes|)
    decreases Levels(depth), |bytes|, 3
  {
    if bytes != [] {
      LooksAreFew(bytes);
      var f := CutField(bytes);
      if f.None? {
        RateCovers(depth, w, |bytes|);
      } else {
        SmallerThanField(bytes);
        NestedIsBounded(f.value.raw, depth, w);
        var rest := bytes[f.value.length..];
        CostIsBounded(rest, depth, w);
        SumIsBounded(FieldLooks(bytes), NestedCost(f.value.raw, depth, w), Cost(rest, depth, w), Size(f.value.raw),
                     f.value.length, |bytes|, depth, w);
      }
    }
  }

  /** ... in figures. */
  lemma TopLevelCost(bytes: seq<Byte>)
    ensures Cost(bytes, 0, 0) <= 16 * |bytes|
    ensures Cost(bytes, 0, 2) <= 48 * |bytes|
  {
    CostIsBounded(bytes, 0, 0);
    CostIsBounded(bytes, 0, 2);
    TimesIs(16, 1);
    TimesIs(16, 3);
    TimesIs(16, |bytes|);
    TimesIs(48, |bytes|);
  }

  lemma {:induction false} TimesIs(a: nat, b: nat)
    ensures Times(a, b) == a * b
  {
    if a > 0 {
      TimesIs(a - 1, b);
      assert a * b == b + (a - 1) * b;
    }
  }

  // ----- the loops -----------------------------------------------------------------------

  /** The value of a field whose tag has been read, at `pos`. */
  method CutValueAt(field: nat, wire: nat, bytes: seq<Byte>, pos: nat) returns (r: Option<Cut>, ghost looks: nat)
    requires pos <= |bytes|
    ensures r == CutValue(field, wire, bytes[pos..]) && looks == ValueLooks(wire, bytes[pos..])
  {
    looks := 0;
    match wire
    case 0 =>
      var v;
      v, looks := ReadVarintAt(bytes, pos);
      if v.None? {
        return None, looks;
      }
      return Some(Cut(RawVarint(field, v.value.value), v.value.length)), looks;
    case 1 =>
      if pos + 8 > |bytes| {
        return None, looks;
      }
      assert bytes[pos..pos + 8] == bytes[pos..][..8];
      return Some(Cut(RawI64(field, bytes[pos..pos + 8]), 8)), looks + 8;
    case 5 =>
      if pos + 4 > |bytes| {
        return None, looks;
      }
      assert bytes[pos..pos + 4] == bytes[pos..][..4];
      return Some(Cut(RawI32(field, bytes[pos..pos + 4]), 4)), looks + 4;
    case 2 =>
      var v;
      v, looks := ReadVarintAt(bytes, pos);
      if v.None? || v.value.value > |bytes| - pos - v.value.length {
        return None, looks;
      }
      var start := pos + v.value.length;
      var end := start + v.value.value;
      assert bytes[start..end] == bytes[pos..][v.value.length..v.value.length + v.value.value];
      return Some(Cut(RawLen(field, bytes[start..end]), end - pos)), looks;
    case _ => return None, looks;
  }

  /** The tag at `pos`, and the value after it. */
  method CutFieldAt(bytes: seq<Byte>, pos: nat) returns (r: Option<Cut>, ghost looks: nat)
    requires pos <= |bytes|
    ensures r == CutField(bytes[pos..]) && looks == FieldLooks(bytes[pos..])
  {
    var v, looked := ReadVarintAt(bytes, pos);
    if v.None? {
      return None, looked;
    }
    var tag := SplitTag(v.value.value);
    if tag.field == 0 || tag.field > MAX_FIELD_NUMBER {
      return None, looked;
    }
    assert bytes[pos..][v.value.length..] == bytes[pos + v.value.length..];
    var value, more := CutValueAt(tag.field, tag.wire, bytes, pos + v.value.length);
    looks := looked + more;
    r := if value.None? then None else Some(Cut(value.value.raw, v.value.length + value.value.length));
  }

  /** `readLen`. */
  method ReadLenOf(sub: seq<Byte>, depth: nat, ghost w: nat) returns (p: Payload, ghost cost: nat)
    ensures p == ReadLen(sub, depth)
    ensures forall field: nat :: cost == NestedCost(RawLen(field, sub), depth, w)
    decreases Levels(depth), |sub|, 0
  {
    cost := 0;
    if depth + 1 < MAX_DEPTH {
      var nested;
      nested, cost := DecodeWire(sub, depth + 1, w);
      if nested.Some? && nested.value != [] {
        return Message(nested.value), cost;
      }
    }
    return if IsText(sub) then Text(sub) else Hex(sub), cost + Times(w, |sub|);
  }

  /** The node for a field that has been cut. */
  method NodeFor(raw: Raw, depth: nat, ghost w: nat) returns (node: Node, ghost cost: nat)
    ensures node == NodeOf(raw, depth) && cost == NestedCost(raw, depth, w)
    decreases Levels(depth), Size(raw), 1
  {
    match raw
    case RawVarint(field, value) => return VarintNode(field, value), 0;
    case RawI64(field, bytes) => return I64Node(field, bytes), 0;
    case RawI32(field, bytes) => return I32Node(field, bytes), 0;
    case RawLen(field, sub) =>
      var payload, more := ReadLenOf(sub, depth, w);
      return LenNode(field, payload), more;
  }

  /** `nodes` put before what is read from here on, if it reads. */
  function After(nodes: seq<Node>, rest: Option<seq<Node>>): Option<seq<Node>> {
    if rest.None? then None else Some(nodes + rest.value)
  }

  /** With `nodes` read up to `pos` at a cost, the rest decides. */
  ghost predicate ReadSoFar(nodes: seq<Node>, pos: nat, cost: nat, bytes: seq<Byte>, depth: nat, w: nat)
    requires pos <= |bytes|
  {
    && After(nodes, Decode(bytes[pos..], depth)) == Decode(bytes, depth)
    && cost + Cost(bytes[pos..], depth, w) == Cost(bytes, depth, w)
  }

  lemma NothingRead(bytes: seq<Byte>, depth: nat, w: nat)
    ensures ReadSoFar([], 0, 0, bytes, depth, w)
  {
    assert bytes[0..] == bytes;
    var rest := Decode(bytes, depth);
    if rest.Some? {
      assert [] + rest.value == rest.value;
    }
  }

  lemma DecodeIs(bytes: seq<Byte>, depth: nat, w: nat, f: Cut, rest: seq<Byte>)
    requires bytes != [] && CutField(bytes) == Some(f) && rest == bytes[f.length..]
    ensures Decode(bytes, depth) == After([NodeOf(f.raw, depth)], Decode(rest, depth))
    ensures Cost(bytes, depth, w) == FieldLooks(bytes) + NestedCost(f.raw, depth, w) + Cost(rest, depth, w)
  {
  }

  lemma AfterAfter(nodes: seq<Node>, node: Node, rest: Option<seq<Node>>)
    ensures After(nodes, After([node], rest)) == After(nodes + [node], rest)
  {
    if rest.Some? {
      assert nodes + ([node] + rest.value) == nodes + [node] + rest.value;
    }
  }

  lemma OneMoreNode(nodes: seq<Node>, pos: nat, cost: nat, bytes: seq<Byte>, depth: nat, w: nat, f: Cut, pos2: nat)
    requires pos < |bytes| && CutField(bytes[pos..]) == Some(f) && ReadSoFar(nodes, pos, cost, bytes, depth, w)
    requires pos2 == pos + f.length
    ensures pos2 <= |bytes| && Size(f.raw) < |bytes|
    ensures ReadSoFar(nodes + [NodeOf(f.raw, depth)], pos2,
                      cost + FieldLooks(bytes[pos..]) + NestedCost(f.raw, depth, w), bytes, depth, w)
  {
    var rest := bytes[pos2..];
    SmallerThanField(bytes[pos..]);
    assert rest == bytes[pos..][f.length..];
    DecodeIs(bytes[pos..], depth, w, f, rest);
    AfterAfter(nodes, NodeOf(f.raw, depth), Decode(rest, depth));
  }

  lemma AllRead(nodes: seq<Node>, cost: nat, bytes: seq<Byte>, depth: nat, w: nat)
    requires ReadSoFar(nodes, |bytes|, cost, bytes, depth, w)
    ensures Decode(bytes, depth) == Some(nodes) && cost == Cost(bytes, depth, w)
  {
    assert bytes[|bytes|..] == [];
    assert nodes + [] == nodes;
  }

  lemma Unreadable(nodes: seq<Node>, pos: nat, cost: nat, bytes: seq<Byte>, depth: nat, w: nat)
    requires pos < |bytes| && CutField(bytes[pos..]) == None && ReadSoFar(nodes, pos, cost, bytes, depth, w)
    ensures Decode(bytes, depth) == None && cost + FieldLooks(bytes[pos..]) == Cost(bytes, depth, w)
  {
  }

  /** `decodeWire`. */
  method DecodeWire(bytes: seq<Byte>, depth: nat, ghost w: nat) returns (r: Option<seq<Node>>, ghost cost: nat)
    ensures r == Decode(bytes, depth) && cost == Cost(bytes, depth, w)
    decreases Levels(depth), |bytes|, 3
  {
    hide Decode, Cost, ReadSoFar, NodeOf, NestedCost, FieldLooks;
    var nodes: seq<Node>, pos := [], 0;
    cost := 0;
    NothingRead(bytes, depth, w);
    while pos < |bytes|
      invariant pos <= |bytes| && ReadSoFar(nodes, pos, cost, bytes, depth, w)
    {
      var f, looks := CutFieldAt(bytes, pos);
      if f.None? {
        Unreadable(nodes, pos, cost, bytes, depth, w);
        return None, cost + looks;
      }
      OneMoreNode(nodes, pos, cost, bytes, depth, w, f.value, pos + f.value.length);
      var node, more := NodeFor(f.value.raw, depth, w);
      nodes := nodes + [node];
      pos := pos + f.value.length;
      cost := cost + looks + more;
    }
    AllRead(nodes, cost, bytes, depth, w);
    return Some(nodes), cost;
  }
}
