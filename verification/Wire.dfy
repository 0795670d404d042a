/** packages/rivian/src/protobuf.ts: a protobuf message read without its schema ("Message Structure"
    of the Protocol Buffers encoding guide). Values are kept as numbers and bytes; the source renders
    them as decimal strings, text and hex. */
module Wire {
  import opened Collections
  import opened Varint

  const MAX_DEPTH := 16
  const MAX_FIELD_NUMBER := 0x1fff_ffff

  datatype Node =
    | VarintNode(field: nat, value: nat)
    | I64Node(field: nat, raw: seq<Byte>)
    | I32Node(field: nat, raw: seq<Byte>)
    | LenNode(field: nat, payload: Payload)

  /** What a length-delimited value was taken for. */
  datatype Payload = Message(nodes: seq<Node>) | Text(text: seq<Byte>) | Hex(bytes: seq<Byte>)

  // ----- text ----------------------------------------------------------------------------

  predicate IsTail(b: Byte) { 0x80 <= b <= 0xBF }

  /** How long a well-formed UTF-8 sequence at the front is; 0 if there is none. */
  function Utf8Length(s: seq<Byte>): (n: nat)
    ensures n <= |s|
  {
    if s == [] then 0
    else if s[0] < 0x80 then 1
    else if 0xC2 <= s[0] <= 0xDF then if |s| > 1 && IsTail(s[1]) then 2 else 0
    else if 0xE0 <= s[0] <= 0xEF then
      if |s| > 2 && IsTail(s[1]) && IsTail(s[2])
         && (s[0] == 0xE0 ==> s[1] >= 0xA0) && (s[0] == 0xED ==> s[1] < 0xA0) then 3 else 0
    else if 0xF0 <= s[0] <= 0xF4 then
      if |s| > 3 && IsTail(s[1]) && IsTail(s[2]) && IsTail(s[3])
         && (s[0] == 0xF0 ==> s[1] >= 0x90) && (s[0] == 0xF4 ==> s[1] < 0x90) then 4 else 0
    else 0
  }

  /** Some C0, DEL or C1 character, TAB, LF and CR aside. */
  predicate IsControl(s: seq<Byte>) {
    s != [] && (
      || (s[0] < 0x20 && s[0] != 0x09 && s[0] != 0x0A && s[0] != 0x0D) || s[0] == 0x7F
      || (s[0] == 0xC2 && |s| > 1 && s[1] < 0xA0))
  }

  /** Decodable as UTF-8, and printable. */
  predicate IsText(s: seq<Byte>) {
    s == [] || (Utf8Length(s) > 0 && !IsControl(s) && IsText(s[Utf8Length(s)..]))
  }

  // ----- cutting -------------------------------------------------------------------------

  /** A field as it lies on the wire: what is nested in it is still bytes. */
  datatype Raw =
    | RawVarint(field: nat, value: nat)
    | RawI64(field: nat, raw: seq<Byte>)
    | RawI32(field: nat, raw: seq<Byte>)
    | RawLen(field: nat, sub: seq<Byte>)

  /** A field, and how many bytes it took. */
  datatype Cut = Cut(raw: Raw, length: nat)

  /** The value of a field whose tag has been read. */
  function CutValue(field: nat, wire: nat, bytes: seq<Byte>): (r: Option<Cut>)
    ensures r.Some? ==> r.value.length <= |bytes|
  {
    match wire
    case 0 =>
      var v := ReadVarint(bytes);
      if v.None? then None else Some(Cut(RawVarint(field, v.value.value), v.value.length))
    case 1 => if |bytes| < 8 then None else Some(Cut(RawI64(field, bytes[..8]), 8))
    case 5 => if |bytes| < 4 then None else Some(Cut(RawI32(field, bytes[..4]), 4))
    case 2 =>
      var v := ReadVarint(bytes);
      if v.None? || v.value.value > |bytes| - v.value.length then None
      else
        var end := v.value.length + v.value.value;
        Some(Cut(RawLen(field, bytes[v.value.length..end]), end))
    case _ => None
  }

  /** What a tag varint packs: a field number times eight, plus a wire type. */
  datatype Tag = Tag(field: nat, wire: nat)

  function SplitTag(v: nat): Tag {
    Tag(v / 8, v % 8)
  }

  predicate IsTag(tag: Tag) {
    0 < tag.field <= MAX_FIELD_NUMBER
  }

  /** The field at the front of `bytes`. */
  function CutField(bytes: seq<Byte>): (r: Option<Cut>)
    ensures r.Some? ==> 0 < r.value.length <= |bytes|
  {
    var v := ReadVarint(bytes);
    if v.None? then None
    else
      var tag := SplitTag(v.value.value);
      if !IsTag(tag) then None
      else
        var r := CutValue(tag.field, tag.wire, bytes[v.value.length..]);
        if r.None? then None else Some(Cut(r.value.raw, v.value.length + r.value.length))
  }

  // ----- reading -------------------------------------------------------------------------

  function Levels(depth: nat): nat {
    if depth < MAX_DEPTH then MAX_DEPTH - depth else 0
  }

  /** `readLen`: nested fields if the bytes decode to any, a string failing that, or raw bytes. */
  function ReadLen(sub: seq<Byte>, depth: nat): Payload
    decreases Levels(depth), |sub|, 0
  {
    var nested := if depth + 1 < MAX_DEPTH then Decode(sub, depth + 1) else None;
    if nested.Some? && nested.value != [] then Message(nested.value)
    else if IsText(sub) then Text(sub)
    else Hex(sub)
  }

  function Size(raw: Raw): nat {
    if raw.RawLen? then |raw.sub| else 0
  }

  function NodeOf(raw: Raw, depth: nat): Node
    decreases Levels(depth), Size(raw), 1
  {
    match raw
    case RawVarint(field, value) => VarintNode(field, value)
    case RawI64(field, bytes) => I64Node(field, bytes)
    case RawI32(field, bytes) => I32Node(field, bytes)
    case RawLen(field, sub) => LenNode(field, ReadLen(sub, depth))
  }

  /** `decodeWire`: every byte belongs to a field, or it is not a message. */
  function Decode(bytes: seq<Byte>, depth: nat): Option<seq<Node>>
    decreases Levels(depth), |bytes|, 3
  {
    if bytes == [] then Some([])
    else
      var f := CutField(bytes);
      if f.None? then None
      else
        SmallerThanField(bytes);
        var rest := Decode(bytes[f.value.length..], depth);
        if rest.None? then None else Some([NodeOf(f.value.raw, depth)] + rest.value)
  }

  /** What is nested in a field is shorter than the field. */
  lemma SmallerThanField(bytes: seq<Byte>)
    ensures CutField(bytes).Some? ==> Size(CutField(bytes).value.raw) < |bytes|
  {
  }

  // ----- writing -------------------------------------------------------------------------

  function WireOf(raw: Raw): nat {
    match raw
    case RawVarint(_, _) => 0
    case RawI64(_, _) => 1
    case RawLen(_, _) => 2
    case RawI32(_, _) => 5
  }

  function TagOf(raw: Raw): nat {
    raw.field * 8 + WireOf(raw)
  }

  function WriteValue(raw: Raw): seq<Byte> {
    match raw
    case RawVarint(_, value) => WriteVarint(value)
    case RawI64(_, bytes) => bytes
    case RawI32(_, bytes) => bytes
    case RawLen(_, sub) => WriteVarint(|sub|) + sub
  }

  /** A field written, its varints in their fewest bytes. */
  function WriteField(raw: Raw): seq<Byte> {
    WriteVarint(TagOf(raw)) + WriteValue(raw)
  }

  function WritePayload(p: Payload): seq<Byte>
    decreases p
  {
    match p
    case Message(nodes) => Encode(nodes)
    case Text(text) => text
    case Hex(bytes) => bytes
  }

  function RawOf(node: Node): Raw
    decreases node, 0
  {
    match node
    case VarintNode(field, value) => RawVarint(field, value)
    case I64Node(field, raw) => RawI64(field, raw)
    case I32Node(field, raw) => RawI32(field, raw)
    case LenNode(field, payload) => RawLen(field, WritePayload(payload))
  }

  /** A tree written back. */
  function Encode(nodes: seq<Node>): seq<Byte>
    decreases nodes
  {
    if nodes == [] then [] else WriteField(RawOf(nodes[0])) + Encode(nodes[1..])
  }
}
