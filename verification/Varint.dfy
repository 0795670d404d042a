/** Base 128 varints, as packages/rivian/src/protobuf.ts reads them ("Base 128 Varints" of the
    Protocol Buffers encoding guide). */
module Varint {
  import opened Collections

  type Byte = x: int | 0 <= x < 256

  const MAX_GROUPS := 10

  /** A value read, and how many bytes it took. */
  datatype Read = Read(value: nat, length: nat)

  /** The groups from the `i`th on: seven bits each, lowest first, ten at most, and of the tenth only
      one bit. */
  function Groups(bytes: seq<Byte>, i: nat): (r: Option<Read>)
    ensures r.Some? ==> 0 < r.value.length <= |bytes|
    decreases |bytes|
  {
    if i >= MAX_GROUPS || bytes == [] || (i == MAX_GROUPS - 1 && bytes[0] > 1) then None
    else if bytes[0] < 128 then Some(Read(bytes[0], 1))
    else
      var rest := Groups(bytes[1..], i + 1);
      if rest.None? then None else Some(Read(bytes[0] - 128 + 128 * rest.value.value, rest.value.length + 1))
  }

  /** The varint at the front of `bytes`. */
  function ReadVarint(bytes: seq<Byte>): Option<Read> {
    Groups(bytes, 0)
  }

  /** How many bytes are looked at, whether or not there is a varint. */
  function Looked(bytes: seq<Byte>, i: nat): (n: nat)
    ensures n <= |bytes|
    decreases |bytes|
  {
    if i >= MAX_GROUPS || bytes == [] then 0
    else if bytes[0] < 128 || (i == MAX_GROUPS - 1 && bytes[0] > 1) then 1
    else 1 + Looked(bytes[1..], i + 1)
  }

  lemma {:induction false} LookedIsLength(bytes: seq<Byte>, i: nat)
    requires Groups(bytes, i).Some?
    ensures Looked(bytes, i) == Groups(bytes, i).value.length
    decreases MAX_GROUPS - i
  {
    if bytes[0] >= 128 {
      LookedIsLength(bytes[1..], i + 1);
    }
  }

  /** What the groups from the `i`th on can hold. */
  function Room(i: nat): nat
    decreases MAX_GROUPS - i
  {
    if i >= MAX_GROUPS then 0 else if i == MAX_GROUPS - 1 then 2 else 128 * Room(i + 1)
  }

  lemma RoomIs()
    ensures Room(0) == 0x1_0000_0000_0000_0000
  {
    assert Room(5) == 128 * Room(6) == 128 * 128 * Room(7) == 128 * 128 * 128 * Room(8);
    assert Room(0) == 128 * Room(1) == 128 * 128 * Room(2) == 128 * 128 * 128 * Room(3);
    assert Room(3) == 128 * Room(4) == 128 * 128 * Room(5);
  }

  lemma {:induction false} GroupsFit(bytes: seq<Byte>, i: nat)
    requires Groups(bytes, i).Some?
    ensures Groups(bytes, i).value.value < Room(i) && i < MAX_GROUPS
    decreases MAX_GROUPS - i
  {
    if bytes[0] >= 128 {
      GroupsFit(bytes[1..], i + 1);
    } else if i < MAX_GROUPS - 1 {
      RoomIsEnough(i);
    }
  }

  lemma {:induction false} RoomIsEnough(i: nat)
    requires i < MAX_GROUPS - 1
    ensures Room(i) >= 128
    decreases MAX_GROUPS - i
  {
    if i < MAX_GROUPS - 2 {
      RoomIsEnough(i + 1);
    }
  }

  /** No value of 2^64 or more is ever read. */
  lemma VarintFits(bytes: seq<Byte>)
    requires ReadVarint(bytes).Some?
    ensures ReadVarint(bytes).value.value < 0x1_0000_0000_0000_0000
  {
    GroupsFit(bytes, 0);
    RoomIs();
  }

  // ----- writing -------------------------------------------------------------------------

  /** The fewest bytes that say `v`. */
  function WriteVarint(v: nat): (bytes: seq<Byte>)
    ensures bytes != []
  {
    if v < 128 then [v] else [v % 128 + 128] + WriteVarint(v / 128)
  }

  lemma {:induction false} GroupsOfWritten(v: nat, suffix: seq<Byte>, i: nat)
    requires v < Room(i)
    ensures Groups(WriteVarint(v) + suffix, i) == Some(Read(v, |WriteVarint(v)|))
    decreases v
  {
    var bytes := WriteVarint(v) + suffix;
    if v >= 128 {
      assert i < MAX_GROUPS - 1 && v / 128 < Room(i + 1);
      GroupsOfWritten(v / 128, suffix, i + 1);
      assert bytes[1..] == WriteVarint(v / 128) + suffix;
    }
  }

  /** READING INVERTS WRITING, whatever follows. */
  lemma ReadsWritten(v: nat, suffix: seq<Byte>)
    requires v < 0x1_0000_0000_0000_0000
    ensures ReadVarint(WriteVarint(v) + suffix) == Some(Read(v, |WriteVarint(v)|))
  {
    RoomIs();
    GroupsOfWritten(v, suffix, 0);
  }

  /** What is read is written in no more bytes, and in the same bytes if in as many. */
  lemma {:induction false} WrittenIsShortest(bytes: seq<Byte>, i: nat)
    requires Groups(bytes, i).Some?
    ensures var r := Groups(bytes, i).value;
      && |WriteVarint(r.value)| <= r.length
      && (|WriteVarint(r.value)| == r.length ==> WriteVarint(r.value) == bytes[..r.length])
    decreases MAX_GROUPS - i
  {
    if bytes[0] >= 128 {
      var rest := Groups(bytes[1..], i + 1).value;
      WrittenIsShortest(bytes[1..], i + 1);
      var v := bytes[0] - 128 + 128 * rest.value;
      assert v / 128 == rest.value && v % 128 == bytes[0] - 128;
      if v >= 128 {
        assert WriteVarint(v) == [bytes[0]] + WriteVarint(rest.value);
        assert bytes[..rest.length + 1] == [bytes[0]] + bytes[1..][..rest.length];
      }
    }
  }

  // ----- the loop ------------------------------------------------------------------------

  function Pow128(i: nat): nat {
    if i == 0 then 1 else 128 * Pow128(i - 1)
  }

  lemma NotNegative(a: nat, b: nat)
    ensures a * b >= 0
  {
  }

  /** `value` with `rest` put above its first `i` groups. */
  function Above(value: nat, rest: nat, i: nat): nat {
    NotNegative(Pow128(i), rest);
    value + Pow128(i) * rest
  }

  lemma Shifted(value: nat, low: nat, rest: nat, i: nat)
    ensures low * Pow128(i) >= 0
    ensures Above(value, low + 128 * rest, i) == Above(value + low * Pow128(i), rest, i + 1)
  {
    NotNegative(low, Pow128(i));
    assert Pow128(i) * (low + 128 * rest) == low * Pow128(i) + Pow128(i) * (128 * rest);
    assert Pow128(i) * (128 * rest) == (128 * Pow128(i)) * rest;
  }

  /** What is read in all, once `i` groups have come to `value`. */
  function Resumed(bytes: seq<Byte>, i: nat, value: nat): Option<Read>
    requires i <= |bytes|
  {
    var rest := Groups(bytes[i..], i);
    if rest.None? then None else Some(Read(Above(value, rest.value.value, i), rest.value.length + i))
  }

  lemma OneGroup(bytes: seq<Byte>, i: nat, value: nat)
    requires i < |bytes| && i < MAX_GROUPS && !(i == MAX_GROUPS - 1 && bytes[i] > 1)
    ensures (bytes[i] % 128) * Pow128(i) >= 0
    ensures Resumed(bytes, i, value) ==
      if bytes[i] < 128 then Some(Read(value + (bytes[i] % 128) * Pow128(i), i + 1))
      else Resumed(bytes, i + 1, value + (bytes[i] % 128) * Pow128(i))
  {
    var low := bytes[i] % 128;
    var rest := Groups(bytes[i + 1..], i + 1);
    assert bytes[i..][0] == bytes[i] && bytes[i..][1..] == bytes[i + 1..];
    Shifted(value, low, if rest.Some? then rest.value.value else 0, i);
    Shifted(value, low, 0, i);
  }

  /** `readVarint`: the value at `pos`, and the bytes it took; `looked` counts the bytes looked at. */
  method ReadVarintAt(bytes: seq<Byte>, pos: nat) returns (r: Option<Read>, ghost looked: nat)
    requires pos <= |bytes|
    ensures r == ReadVarint(bytes[pos..]) && looked == Looked(bytes[pos..], 0)
  {
    ghost var rest := bytes[pos..];
    var value: nat := 0;
    looked := 0;
    assert rest[0..] == rest;
    for i := 0 to MAX_GROUPS
      invariant i <= |rest| && looked == i
      invariant ReadVarint(rest) == Resumed(rest, i, value)
      invariant Looked(rest, 0) == i + Looked(rest[i..], i)
    {
      if pos + i >= |bytes| {
        return None, looked;
      }
      var byte := bytes[pos + i];
      looked := looked + 1;
      assert rest[i..][0] == byte && rest[i..][1..] == rest[i + 1..];
      if i == 9 && byte > 1 {
        return None, looked;
      }
      OneGroup(rest, i, value);
      value := value + byte % 128 * Pow128(i);
      if byte < 128 {
        return Some(Read(value, i + 1)), looked;
      }
    }
    return None, looked;
  }
}
