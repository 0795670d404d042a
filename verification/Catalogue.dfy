/** packages/rivian/src/catalogue.ts: the names fit for a query, and the cutting of a
    property list into groups. */
module Catalogue {
  import opened Collections

  const MAX_GROUP_SIZE := 16

  predicate IsNameStart(c: char) {
    c == '_' || 'A' <= c <= 'Z' || 'a' <= c <= 'z'
  }

  /** What GraphQL's grammar calls a Name. */
  predicate IsQueryable(name: string) {
    && |name| > 0
    && IsNameStart(name[0])
    && forall i | 0 < i < |name| :: IsNameStart(name[i]) || '0' <= name[i] <= '9'
  }

  /** `names` cut every `size` names. */
  function Chunks(names: seq<string>, size: nat): seq<seq<string>>
    requires size >= 1
  {
    if names == [] then []
    else if |names| <= size then [names]
    else [names[..size]] + Chunks(names[size..], size)
  }

  /** Cutting loses nothing and reorders nothing, and makes as few groups as can be. */
  lemma {:induction false} ChunksPartition(names: seq<string>, size: nat)
    requires size >= 1
    ensures Flatten(Chunks(names, size)) == names
    ensures forall i | 0 <= i < |Chunks(names, size)| :: 1 <= |Chunks(names, size)[i]| <= size
    ensures forall i | 0 <= i < |Chunks(names, size)| - 1 :: |Chunks(names, size)[i]| == size
    ensures (|Chunks(names, size)| - 1) * size < |names| || names == []
    ensures |names| <= |Chunks(names, size)| * size
    decreases |names|
  {
    var cs := Chunks(names, size);
    if |names| > size {
      var rest := Chunks(names[size..], size);
      ChunksPartition(names[size..], size);
      assert cs == [names[..size]] + rest && cs[1..] == rest;
      assert |cs| * size == size + |rest| * size;
      assert (|cs| - 1) * size == (|rest| - 1) * size + size;
      assert names == names[..size] + names[size..];
      forall i | 0 <= i < |cs|
        ensures 1 <= |cs[i]| <= size
      {
        if i > 0 { assert cs[i] == rest[i - 1]; }
      }
      forall i | 0 <= i < |cs| - 1
        ensures |cs[i]| == size
      {
        if i > 0 { assert cs[i] == rest[i - 1]; }
      }
    } else if names != [] {
      assert Flatten([names]) == names + Flatten<string>([]);
    }
  }

  /** One more slice. */
  lemma ChunksStep(groups: seq<seq<string>>, names: seq<string>, i: nat, size: nat)
    requires i < |names| && size >= 1
    ensures groups + Chunks(names[i..], size) ==
      if i + size <= |names| then groups + [names[i..i + size]] + Chunks(names[i + size..], size)
      else groups + [names[i..|names|]]
  {
    var rest := names[i..];
    if i + size < |names| {
      assert rest[..size] == names[i..i + size] && rest[size..] == names[i + size..];
      assert groups + ([rest[..size]] + Chunks(rest[size..], size)) == groups + [rest[..size]] + Chunks(rest[size..], size);
    } else {
      assert Chunks(rest, size) == [rest] && rest == names[i..|names|];
      assert i + size == |names| ==> names[i + size..] == [];
    }
  }

  /** `groupProperties`. `None` is the `RangeError` for a size that is not 1..16. */
  method GroupProperties(names: seq<string>, size: int) returns (r: Option<seq<seq<string>>>)
    ensures r.None? <==> size < 1 || size > MAX_GROUP_SIZE
    ensures r.Some? ==> r.value == Chunks(names, size)
  {
    if size < 1 || size > MAX_GROUP_SIZE {
      return None;
    }
    var groups: seq<seq<string>> := [];
    var i := 0;
    while i < |names|
      invariant 0 <= i
      invariant i <= |names| ==> groups + Chunks(names[i..], size) == Chunks(names, size)
      invariant i > |names| ==> groups == Chunks(names, size)
    {
      var end := if i + size < |names| then i + size else |names|;
      ChunksStep(groups, names, i, size);
      groups := groups + [names[i..end]];
      i := i + size;
    }
    return Some(groups);
  }
}
