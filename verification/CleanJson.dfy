/** What `cleanStrings` of packages/rivian/src/envelope.ts means: every string of a JSON value
    cleaned, keys included, by recursion on the value. */
module CleanJson {
  import opened Collections
  import opened CleanText

  /** A JSON value. An object is its members in the order they were set; `Cut` stands for what lies
      below the depth a value is looked at to. */
  datatype Json = Str(s: Text) | Plain(x: int) | Cut | Arr(items: seq<Json>) | Obj(members: seq<Member<Json>>)

  datatype Member<+T> = Member(key: Text, value: T)

  /** Setting a key that is there keeps its place; a new key goes last. */
  function Put<T>(members: seq<Member<T>>, key: Text, value: T): seq<Member<T>> {
    if members == [] then [Member(key, value)]
    else if members[0].key == key then [Member(key, value)] + members[1..]
    else [members[0]] + Put(members[1..], key, value)
  }

  function CleanValue(j: Json): Json
    decreases j
  {
    match j
    case Str(s) => Str(CleanString(s))
    case Arr(items) => Arr(CleanItems(items))
    case Obj(members) => Obj(CleanMembers(members))
    case _ => j
  }

  function CleanItems(items: seq<Json>): seq<Json>
    decreases items
  {
    if items == [] then [] else CleanItems(items[..|items| - 1]) + [CleanValue(items[|items| - 1])]
  }

  /** The members in turn, each replacing any earlier one whose key comes out equal. */
  function CleanMembers(members: seq<Member<Json>>): seq<Member<Json>>
    decreases members
  {
    if members == [] then []
    else
      var last := members[|members| - 1];
      Put(CleanMembers(members[..|members| - 1]), CleanString(last.key), CleanValue(last.value))
  }

  /** Where a key is, or how many members there are if it is not. */
  function Place<T>(members: seq<Member<T>>, key: Text): (k: nat)
    ensures k <= |members|
  {
    if members == [] || members[0].key == key then 0 else 1 + Place(members[1..], key)
  }

  lemma {:induction false} PutPlace<T>(members: seq<Member<T>>, key: Text, value: T)
    ensures var k := Place(members, key);
      Put(members, key, value) ==
        if k < |members| then members[k := Member(key, value)] else members + [Member(key, value)]
  {
    if members != [] && members[0].key != key {
      var rest, m := members[1..], Member(key, value);
      PutPlace(rest, key, value);
      var k := Place(rest, key);
      if k < |rest| {
        assert [members[0]] + rest[k := m] == members[k + 1 := m];
      } else {
        assert [members[0]] + (rest + [m]) == members + [m];
      }
    } else if members != [] {
      assert [Member(key, value)] + members[1..] == members[0 := Member(key, value)];
    }
  }

  /** Where a key is does not depend on the values. */
  lemma {:induction false} SamePlace<A, B>(a: seq<Member<A>>, b: seq<Member<B>>, key: Text)
    requires |a| == |b| && forall i | 0 <= i < |a| :: a[i].key == b[i].key
    ensures Place(a, key) == Place(b, key)
  {
    if a != [] {
      SamePlace(a[1..], b[1..], key);
    }
  }

  // ----- what it leaves ------------------------------------------------------------------

  ghost predicate AllStorable(j: Json)
    decreases j
  {
    match j
    case Str(s) => Storable(s)
    case Arr(items) => forall i | 0 <= i < |items| :: AllStorable(items[i])
    case Obj(members) =>
      && (forall i | 0 <= i < |members| :: Storable(members[i].key) && AllStorable(members[i].value))
      && DistinctKeys(members)
    case _ => true
  }

  ghost predicate DistinctKeys<T>(members: seq<Member<T>>) {
    forall i, j | 0 <= i < j < |members| :: members[i].key != members[j].key
  }

  lemma {:induction false} PutKeeps<T>(members: seq<Member<T>>, key: Text, value: T)
    ensures forall m | m in Put(members, key, value) :: m in members || m == Member(key, value)
    ensures forall m | m in Put(members, key, value) :: m.key == key || exists was :: was in members && was.key == m.key
    ensures DistinctKeys(members) ==> DistinctKeys(Put(members, key, value))
  {
    if members != [] && members[0].key != key {
      PutKeeps(members[1..], key, value);
      var rest := Put(members[1..], key, value);
      if DistinctKeys(members) {
        forall j | 0 <= j < |rest| ensures rest[j].key != members[0].key {
          assert rest[j] in rest;
        }
      }
    } else if members != [] {
      assert forall m | m in members[1..] :: m in members;
    }
  }

  /** NOTHING IS LEFT that JSONB refuses, in any string or key, at any depth. */
  lemma {:induction false} CleanedIsStorable(j: Json)
    ensures AllStorable(CleanValue(j))
    decreases j
  {
    match j
    case Str(s) => CleanIsStorable(s);
    case Arr(items) => ItemsAreStorable(items);
    case Obj(members) =>
      MembersAreStorable(members);
      var clean := CleanMembers(members);
      forall i | 0 <= i < |clean| ensures Storable(clean[i].key) && AllStorable(clean[i].value) {
        assert clean[i] in clean && StorableMember(clean[i]);
      }
    case _ =>
  }

  lemma {:induction false} ItemsAreStorable(items: seq<Json>)
    ensures |CleanItems(items)| == |items|
    ensures forall i | 0 <= i < |items| :: AllStorable(CleanItems(items)[i])
    decreases items
  {
    if items != [] {
      ItemsAreStorable(items[..|items| - 1]);
      CleanedIsStorable(items[|items| - 1]);
    }
  }

  ghost predicate StorableMember(m: Member<Json>) {
    Storable(m.key) && AllStorable(m.value)
  }

  lemma {:induction false} MembersAreStorable(members: seq<Member<Json>>)
    ensures DistinctKeys(CleanMembers(members))
    ensures forall m | m in CleanMembers(members) :: StorableMember(m)
    decreases members
  {
    if members != [] {
      var init, last := members[..|members| - 1], members[|members| - 1];
      MembersAreStorable(init);
      CleanIsStorable(last.key);
      CleanedIsStorable(last.value);
      PutKeeps(CleanMembers(init), CleanString(last.key), CleanValue(last.value));
    }
  }

  /** A NEW key goes last. */
  lemma {:induction false} PutNew<T>(members: seq<Member<T>>, key: Text, value: T)
    requires forall m | m in members :: m.key != key
    ensures Put(members, key, value) == members + [Member(key, value)]
  {
    if members != [] {
      assert members[0] in members;
      PutNew(members[1..], key, value);
      assert members == [members[0]] + members[1..];
    }
  }

  /** A value with nothing to clean is left as it is. */
  lemma {:induction false} StorableIsKept(j: Json)
    requires AllStorable(j)
    ensures CleanValue(j) == j
    decreases j
  {
    match j
    case Str(s) => UnchangedIff(s);
    case Arr(items) => ItemsAreKept(items);
    case Obj(members) => MembersAreKept(members);
    case _ =>
  }

  lemma {:induction false} ItemsAreKept(items: seq<Json>)
    requires forall i | 0 <= i < |items| :: AllStorable(items[i])
    ensures CleanItems(items) == items
    decreases items
  {
    if items != [] {
      ItemsAreKept(items[..|items| - 1]);
      StorableIsKept(items[|items| - 1]);
      assert items == items[..|items| - 1] + [items[|items| - 1]];
    }
  }

  lemma {:induction false} MembersAreKept(members: seq<Member<Json>>)
    requires forall i | 0 <= i < |members| :: Storable(members[i].key) && AllStorable(members[i].value)
    requires DistinctKeys(members)
    ensures CleanMembers(members) == members
    decreases members
  {
    if members != [] {
      var init, last := members[..|members| - 1], members[|members| - 1];
      MembersAreKept(init);
      UnchangedIff(last.key);
      StorableIsKept(last.value);
      PutNew(init, last.key, last.value);
      assert members == init + [last];
    }
  }

  /** CLEANING TWICE IS CLEANING ONCE: ingest may clean what the connector has cleaned. */
  lemma CleanValueTwice(j: Json)
    ensures CleanValue(CleanValue(j)) == CleanValue(j)
  {
    CleanedIsStorable(j);
    StorableIsKept(CleanValue(j));
  }
}
