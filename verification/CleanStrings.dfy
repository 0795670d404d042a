/** `cleanStrings` as it is written: an explicit stack of containers yet to be read, and copies of
    them filled in place. A value is whatever the heap holds: a container may be reached twice, or
    from within itself. */
module CleanStrings {
  import opened Collections
  import opened CleanText
  import opened CleanJson

  datatype Val = Text(s: CleanText.Text) | Scalar(x: int) | Ref(c: Container)

  datatype Node = ArrNode(items: seq<Val>) | ObjNode(members: seq<Member<Val>>)

  class Container {
    var node: Node

    constructor (node: Node)
      ensures this.node == node
    {
      this.node := node;
    }
  }

  // ----- the heap, and what it says ------------------------------------------------------

  predicate ValIn(v: Val, world: set<Container>) {
    v.Ref? ==> v.c in world
  }

  predicate NodeIn(n: Node, world: set<Container>) {
    match n
    case ArrNode(items) => forall i | 0 <= i < |items| :: ValIn(items[i], world)
    case ObjNode(members) => forall i | 0 <= i < |members| :: ValIn(members[i].value, world)
  }

  /** Everything reached from `world` is in it. */
  ghost predicate Closed(world: set<Container>)
    reads world
  {
    forall c | c in world :: NodeIn(c.node, world)
  }

  /** The value as it reads, looked at to depth `n`. */
  ghost function Read(v: Val, n: nat, world: set<Container>): Json
    requires ValIn(v, world) && Closed(world)
    reads world
    decreases n, 1, 0
  {
    match v
    case Text(s) => Str(s)
    case Scalar(x) => Plain(x)
    case Ref(c) =>
      if n == 0 then Cut
      else
        match c.node
        case ArrNode(items) => Arr(ReadItems(items, n - 1, world))
        case ObjNode(members) => Obj(ReadMembers(members, n - 1, world))
  }

  ghost function ReadItems(items: seq<Val>, n: nat, world: set<Container>): (r: seq<Json>)
    requires (forall i | 0 <= i < |items| :: ValIn(items[i], world)) && Closed(world)
    ensures |r| == |items|
    reads world
    decreases n, 2, |items|
  {
    if items == [] then []
    else ReadItems(items[..|items| - 1], n, world) + [Read(items[|items| - 1], n, world)]
  }

  ghost function ReadMembers(members: seq<Member<Val>>, n: nat, world: set<Container>): (r: seq<Member<Json>>)
    requires (forall i | 0 <= i < |members| :: ValIn(members[i].value, world)) && Closed(world)
    ensures |r| == |members|
    ensures forall i | 0 <= i < |r| :: r[i] == Member(members[i].key, Read(members[i].value, n, world))
    reads world
    decreases n, 2, |members|
  {
    if members == [] then []
    else
      var last := members[|members| - 1];
      ReadMembers(members[..|members| - 1], n, world) + [Member(last.key, Read(last.value, n, world))]
  }

  // ----- the copy ------------------------------------------------------------------------

  type Copies = map<Container, Container>

  predicate Copied(v: Val, copies: Copies) {
    v.Ref? ==> v.c in copies
  }

  function CopyVal(v: Val, copies: Copies): Val
    requires Copied(v, copies)
  {
    match v
    case Text(s) => Text(CleanString(s))
    case Scalar(x) => v
    case Ref(c) => Ref(copies[c])
  }

  function CopyItems(items: seq<Val>, copies: Copies): seq<Val>
    requires forall i | 0 <= i < |items| :: Copied(items[i], copies)
  {
    seq(|items|, i requires 0 <= i < |items| => CopyVal(items[i], copies))
  }

  function CopyMembers(members: seq<Member<Val>>, copies: Copies): seq<Member<Val>>
    requires forall i | 0 <= i < |members| :: Copied(members[i].value, copies)
  {
    if members == [] then []
    else
      var last := members[|members| - 1];
      Put(CopyMembers(members[..|members| - 1], copies), CleanString(last.key), CopyVal(last.value, copies))
  }

  predicate NodeCopied(n: Node, copies: Copies) {
    match n
    case ArrNode(items) => forall i | 0 <= i < |items| :: Copied(items[i], copies)
    case ObjNode(members) => forall i | 0 <= i < |members| :: Copied(members[i].value, copies)
  }

  function CopyNode(n: Node, copies: Copies): Node
    requires NodeCopied(n, copies)
  {
    match n
    case ArrNode(items) => ArrNode(CopyItems(items, copies))
    case ObjNode(members) => ObjNode(CopyMembers(members, copies))
  }

  function EmptyLike(n: Node): Node {
    if n.ArrNode? then ArrNode([]) else ObjNode([])
  }

  // ----- the copy reads as the clean value -----------------------------------------------

  /** Every container reached has its copy, and every copy is its container's, cleaned. */
  ghost predicate IsCopy(copies: Copies)
    reads copies.Keys, copies.Values
  {
    && (forall c | c in copies :: NodeCopied(c.node, copies) && copies[c].node == CopyNode(c.node, copies))
    && (forall c | c in copies :: copies[c] in copies.Values)
  }

  lemma CopyNodeIn(n: Node, copies: Copies)
    requires NodeCopied(n, copies)
    ensures NodeIn(CopyNode(n, copies), copies.Values) && NodeIn(n, copies.Keys)
  {
    if n.ObjNode? {
      CopyMembersIn(n.members, copies);
    }
  }

  lemma {:induction false} CopyMembersIn(members: seq<Member<Val>>, copies: Copies)
    requires forall i | 0 <= i < |members| :: Copied(members[i].value, copies)
    ensures forall m | m in CopyMembers(members, copies) :: ValIn(m.value, copies.Values)
  {
    if members != [] {
      var init, last := members[..|members| - 1], members[|members| - 1];
      CopyMembersIn(init, copies);
      PutKeeps(CopyMembers(init, copies), CleanString(last.key), CopyVal(last.value, copies));
    }
  }

  lemma CopyIsClosed(copies: Copies)
    requires IsCopy(copies)
    ensures Closed(copies.Keys) && Closed(copies.Values)
  {
    forall c | c in copies ensures NodeIn(c.node, copies.Keys) && NodeIn(copies[c].node, copies.Values) {
      CopyNodeIn(c.node, copies);
    }
  }

  /** Reading commutes with setting a member. */
  lemma ReadPut(members: seq<Member<Val>>, key: CleanText.Text, v: Val, n: nat, world: set<Container>)
    requires Closed(world) && ValIn(v, world)
    requires forall i | 0 <= i < |members| :: ValIn(members[i].value, world)
    ensures var put := Put(members, key, v);
      && (forall i | 0 <= i < |put| :: ValIn(put[i].value, world))
      && ReadMembers(put, n, world) == Put(ReadMembers(members, n, world), key, Read(v, n, world))
  {
    var read := ReadMembers(members, n, world);
    PutPlace(members, key, v);
    PutPlace(read, key, Read(v, n, world));
    SamePlace(members, read, key);
  }

  lemma ReadArr(c: Container, n: nat, world: set<Container>)
    requires c in world && Closed(world) && c.node.ArrNode? && n > 0
    ensures Read(Ref(c), n, world) == Arr(ReadItems(c.node.items, n - 1, world))
  {
  }

  lemma ReadObj(c: Container, n: nat, world: set<Container>)
    requires c in world && Closed(world) && c.node.ObjNode? && n > 0
    ensures Read(Ref(c), n, world) == Obj(ReadMembers(c.node.members, n - 1, world))
  {
  }

  /** THE COPY IS THE CLEAN VALUE: to every depth, what the copy says is the recursive clean of what
      the value says. */
  lemma {:induction false} CopyReadsClean(v: Val, n: nat, copies: Copies)
    requires IsCopy(copies) && Copied(v, copies)
    ensures Closed(copies.Keys) && Closed(copies.Values) && ValIn(CopyVal(v, copies), copies.Values)
    ensures Read(CopyVal(v, copies), n, copies.Values) == CleanValue(Read(v, n, copies.Keys))
    decreases n, 1, 0
  {
    CopyIsClosed(copies);
    if v.Ref? && n > 0 {
      if v.c.node.ArrNode? {
        ArrReadsClean(v.c, n, copies);
      } else {
        ObjReadsClean(v.c, n, copies);
      }
    }
  }

  lemma {:induction false} ArrReadsClean(c: Container, n: nat, copies: Copies)
    requires IsCopy(copies) && Closed(copies.Keys) && Closed(copies.Values)
    requires c in copies && copies[c] in copies.Values && c.node.ArrNode? && n > 0
    ensures Read(Ref(copies[c]), n, copies.Values) == CleanValue(Read(Ref(c), n, copies.Keys))
    decreases n, 0, 0
  {
    ItemsReadClean(c.node.items, n - 1, copies);
    ReadArr(c, n, copies.Keys);
    ReadArr(copies[c], n, copies.Values);
  }

  lemma {:induction false} ObjReadsClean(c: Container, n: nat, copies: Copies)
    requires IsCopy(copies) && Closed(copies.Keys) && Closed(copies.Values)
    requires c in copies && copies[c] in copies.Values && c.node.ObjNode? && n > 0
    ensures Read(Ref(copies[c]), n, copies.Values) == CleanValue(Read(Ref(c), n, copies.Keys))
    decreases n, 0, 0
  {
    MembersReadClean(c.node.members, n - 1, copies);
    ReadObj(c, n, copies.Keys);
    ReadObj(copies[c], n, copies.Values);
  }

  lemma CopyItemsLast(items: seq<Val>, copies: Copies)
    requires items != [] && forall i | 0 <= i < |items| :: Copied(items[i], copies)
    ensures var copied := CopyItems(items, copies);
      copied[..|copied| - 1] == CopyItems(items[..|items| - 1], copies) && copied[|copied| - 1] == CopyVal(items[|items| - 1], copies)
  {
  }

  lemma {:induction false} ItemsReadClean(items: seq<Val>, n: nat, copies: Copies)
    requires IsCopy(copies) && Closed(copies.Keys) && Closed(copies.Values)
    requires forall i | 0 <= i < |items| :: Copied(items[i], copies)
    ensures ReadItems(CopyItems(items, copies), n, copies.Values) == CleanItems(ReadItems(items, n, copies.Keys))
    decreases n, 2, |items|
  {
    if items != [] {
      var init, last := items[..|items| - 1], items[|items| - 1];
      ItemsReadClean(init, n, copies);
      CopyReadsClean(last, n, copies);
      CopyItemsLast(items, copies);
      assert CleanItems(ReadItems(items, n, copies.Keys))
        == CleanItems(ReadItems(init, n, copies.Keys)) + [CleanValue(Read(last, n, copies.Keys))];
    }
  }

  lemma {:induction false} MembersReadClean(members: seq<Member<Val>>, n: nat, copies: Copies)
    requires IsCopy(copies) && Closed(copies.Keys) && Closed(copies.Values)
    requires forall i | 0 <= i < |members| :: Copied(members[i].value, copies)
    ensures forall i | 0 <= i < |CopyMembers(members, copies)| :: ValIn(CopyMembers(members, copies)[i].value, copies.Values)
    ensures ReadMembers(CopyMembers(members, copies), n, copies.Values) == CleanMembers(ReadMembers(members, n, copies.Keys))
    decreases n, 2, |members|
  {
    if members != [] {
      var init, last := members[..|members| - 1], members[|members| - 1];
      MembersReadClean(init, n, copies);
      CopyReadsClean(last.value, n, copies);
      ReadPut(CopyMembers(init, copies), CleanString(last.key), CopyVal(last.value, copies), n, copies.Values);
      var read := ReadMembers(members, n, copies.Keys);
      assert read[..|members| - 1] == ReadMembers(init, n, copies.Keys);
    }
  }

  // ----- more copies change no copy ------------------------------------------------------

  predicate Extends(more: Copies, copies: Copies) {
    forall c | c in copies :: c in more && more[c] == copies[c]
  }

  lemma CopyValMore(v: Val, copies: Copies, more: Copies)
    requires Copied(v, copies) && Extends(more, copies)
    ensures Copied(v, more) && CopyVal(v, more) == CopyVal(v, copies)
  {
  }

  lemma CopyNodeMore(n: Node, copies: Copies, more: Copies)
    requires NodeCopied(n, copies) && Extends(more, copies)
    ensures NodeCopied(n, more) && CopyNode(n, more) == CopyNode(n, copies)
  {
    if n.ObjNode? {
      CopyMembersMore(n.members, copies, more);
    }
  }

  lemma {:induction false} CopyMembersMore(members: seq<Member<Val>>, copies: Copies, more: Copies)
    requires (forall i | 0 <= i < |members| :: Copied(members[i].value, copies)) && Extends(more, copies)
    ensures forall i | 0 <= i < |members| :: Copied(members[i].value, more)
    ensures CopyMembers(members, more) == CopyMembers(members, copies)
  {
    if members != [] {
      CopyMembersMore(members[..|members| - 1], copies, more);
    }
  }

  // ----- the work ------------------------------------------------------------------------

  datatype Task = Task(source: Container, copy: Container)

  /** A copy outside the source for each container reached, no copy made twice. */
  ghost predicate Separate(copies: Copies, world: set<Container>) {
    && copies.Keys <= world
    && (forall c | c in copies :: copies[c] !in world)
    && (forall c, d | c in copies && d in copies && copies[c] == copies[d] :: c == d)
  }

  /** What is waiting to be filled: each container once, its copy empty. */
  ghost predicate Waits(pending: seq<Task>, copies: Copies)
    reads copies.Keys, copies.Values
  {
    && (forall i | 0 <= i < |pending| ::
          && pending[i].source in copies && copies[pending[i].source] == pending[i].copy
          && copies[pending[i].source] in copies.Values
          && pending[i].copy.node == EmptyLike(pending[i].source.node))
    && (forall i, j | 0 <= i < j < |pending| :: pending[i].source != pending[j].source)
  }

  function Sources(pending: seq<Task>): set<Container> {
    set i | 0 <= i < |pending| :: pending[i].source
  }

  /** Copies not in `todo` are filled. */
  ghost predicate Filled(copies: Copies, todo: set<Container>)
    reads copies.Keys, copies.Values
  {
    forall c | c in copies && c !in todo ::
      copies[c] in copies.Values && NodeCopied(c.node, copies) && copies[c].node == CopyNode(c.node, copies)
  }

  /** `copyOf`: strings are cleaned, and a container met for the first time is given an empty copy
      and put on the stack. */
  method CopyOf(v: Val, copies: Copies, pending: seq<Task>, ghost world: set<Container>)
    returns (w: Val, more: Copies, stack: seq<Task>)
    requires ValIn(v, world) && Separate(copies, world)
    requires forall c | c in copies :: allocated(copies[c])
    ensures Extends(more, copies) && Separate(more, world) && Copied(v, more) && w == CopyVal(v, more)
    ensures if v.Ref? && v.c !in copies
      then
        && fresh(more[v.c]) && more == copies[v.c := more[v.c]]
        && more[v.c].node == EmptyLike(v.c.node)
        && stack == pending + [Task(v.c, more[v.c])]
      else more == copies && stack == pending
  {
    more, stack := copies, pending;
    match v
    case Text(s) => w := Text(CleanString(s));
    case Scalar(x) => w := v;
    case Ref(c) =>
      if c !in copies {
        var copy := new Container(EmptyLike(c.node));
        more := copies[c := copy];
        stack := pending + [Task(c, copy)];
      }
      w := Ref(more[c]);
  }

  /** A copy more, waiting to be filled, disturbs nothing. */
  lemma MoreToDo(copies: Copies, pending: seq<Task>, more: Copies, stack: seq<Task>, source: Container, c: Container)
    requires Filled(copies, Sources(pending) + {source}) && Waits(pending, copies)
    requires c !in copies && more.Keys == copies.Keys + {c} && Extends(more, copies)
    requires stack == pending + [Task(c, more[c])] && more[c].node == EmptyLike(c.node)
    ensures Filled(more, Sources(stack) + {source}) && Waits(stack, more)
  {
    assert stack[|pending|].source == c;
    forall t | t in Sources(stack) ensures t in Sources(pending) || t == c {
    }
    forall t | t in Sources(pending) || t == c ensures t in Sources(stack) {
      if t in Sources(pending) {
        var i :| 0 <= i < |pending| && pending[i].source == t;
        assert stack[i].source == t;
      }
    }
    forall d | d in more && d !in Sources(stack) + {source}
      ensures more[d] in more.Values && NodeCopied(d.node, more) && more[d].node == CopyNode(d.node, more)
    {
      assert d in copies && d !in Sources(pending) + {source};
      CopyNodeMore(d.node, copies, more);
    }
  }

  /** Between two pops of the stack. */
  ghost predicate Underway(copies: Copies, pending: seq<Task>, world: set<Container>)
    reads copies.Keys, copies.Values
  {
    Separate(copies, world) && Waits(pending, copies) && Filled(copies, Sources(pending))
  }

  /** While `source` is being read, all of it up to something filled in. */
  ghost predicate Filling(copies: Copies, pending: seq<Task>, world: set<Container>, source: Container)
    reads copies.Keys, copies.Values
  {
    && Separate(copies, world) && Waits(pending, copies) && Filled(copies, Sources(pending) + {source})
    && source in copies && source !in Sources(pending)
  }

  /** Pops yet to come: what is on the stack, and what may yet be put there. */
  ghost function Left(copies: Copies, pending: seq<Task>, world: set<Container>): nat {
    |pending| + |world - copies.Keys|
  }

  lemma OneLess(copies: Copies, world: set<Container>, c: Container, copy: Container)
    requires c in world && c !in copies
    ensures |world - copies[c := copy].Keys| == |world - copies.Keys| - 1
  {
    assert world - copies[c := copy].Keys == (world - copies.Keys) - {c};
  }

  /** `copyOf`, while `source` is being read. */
  method Visit(v: Val, copies: Copies, pending: seq<Task>, source: Container, ghost world: set<Container>)
    returns (w: Val, more: Copies, stack: seq<Task>)
    requires ValIn(v, world) && Filling(copies, pending, world, source)
    requires forall c | c in copies :: allocated(copies[c])
    ensures Filling(more, stack, world, source) && Extends(more, copies) && Copied(v, more) && w == CopyVal(v, more)
    ensures Left(more, stack, world) <= Left(copies, pending, world)
    ensures forall c | c in more && c !in copies :: fresh(more[c])
  {
    w, more, stack := CopyOf(v, copies, pending, world);
    if more != copies {
      MoreToDo(copies, pending, more, stack, source, v.c);
      OneLess(copies, world, v.c, more[v.c]);
    }
  }

  /** What is written to the copy being filled shows in no other. */
  method Write(source: Container, copy: Container, node: Node, ghost copies: Copies, ghost pending: seq<Task>,
               ghost world: set<Container>)
    requires Filling(copies, pending, world, source) && copies[source] == copy
    modifies copy
    ensures Filling(copies, pending, world, source) && copy.node == node
  {
    copy.node := node;
    assert forall c | c in copies && c != source :: copies[c] != copy;
    assert forall i | 0 <= i < |pending| :: pending[i].source in Sources(pending);
  }

  /** All of `source` has been read. */
  lemma Done(source: Container, copies: Copies, pending: seq<Task>, world: set<Container>)
    requires Filling(copies, pending, world, source)
    requires NodeCopied(source.node, copies) && copies[source].node == CopyNode(source.node, copies)
    ensures Underway(copies, pending, world)
  {
    assert copies[source] in copies.Values;
  }

  lemma OneMoreItem(items: seq<Val>, i: nat, copies: Copies, more: Copies)
    requires i < |items| && Extends(more, copies) && Copied(items[i], more)
    requires forall j | 0 <= j < i :: Copied(items[j], copies)
    ensures forall j | 0 <= j < i + 1 :: Copied(items[j], more)
    ensures CopyItems(items[..i + 1], more) == CopyItems(items[..i], copies) + [CopyVal(items[i], more)]
  {
  }

  /** The array is read through, each item copied as it comes. */
  method FillArray(source: Container, copy: Container, copies: Copies, pending: seq<Task>, ghost world: set<Container>)
    returns (more: Copies, stack: seq<Task>)
    requires Closed(world) && Filling(copies, pending, world, source) && copies[source] == copy
    requires source.node.ArrNode? && copy.node == ArrNode([])
    requires forall c | c in copies :: allocated(copies[c])
    modifies copy
    ensures Underway(more, stack, world) && Extends(more, copies)
    ensures Left(more, stack, world) <= Left(copies, pending, world)
    ensures forall c | c in more && c !in copies :: fresh(more[c])
  {
    more, stack := copies, pending;
    var items := source.node.items;
    assert forall j | 0 <= j < |items| :: ValIn(items[j], world);
    for i := 0 to |items|
      invariant source.node == ArrNode(items)
      invariant Filling(more, stack, world, source) && Extends(more, copies) && more[source] == copy
      invariant forall j | 0 <= j < i :: Copied(items[j], more)
      invariant copy.node == ArrNode(CopyItems(items[..i], more))
      invariant Left(more, stack, world) <= Left(copies, pending, world)
      invariant forall c | c in more && c !in copies :: fresh(more[c])
      modifies copy
    {
      ghost var was := more;
      var w;
      w, more, stack := Visit(items[i], more, stack, source, world);
      OneMoreItem(items, i, was, more);
      Write(source, copy, ArrNode(copy.node.items + [w]), more, stack, world);
    }
    assert items[..|items|] == items;
    Done(source, more, stack, world);
  }

  lemma OneMoreMember(members: seq<Member<Val>>, i: nat, copies: Copies, more: Copies)
    requires i < |members| && Extends(more, copies) && Copied(members[i].value, more)
    requires forall j | 0 <= j < i :: Copied(members[j].value, copies)
    ensures forall j | 0 <= j < i + 1 :: Copied(members[j].value, more)
    ensures CopyMembers(members[..i + 1], more)
      == Put(CopyMembers(members[..i], copies), CleanString(members[i].key), CopyVal(members[i].value, more))
  {
    var init := members[..i];
    CopyMembersMore(init, copies, more);
    assert members[..i + 1][..i] == init;
  }

  /** Member `i` is set on the copy. */
  method SetMember(members: seq<Member<Val>>, i: nat, source: Container, copy: Container, copies: Copies,
                   pending: seq<Task>, ghost world: set<Container>)
    returns (more: Copies, stack: seq<Task>)
    requires i < |members| && source.node == ObjNode(members) && ValIn(members[i].value, world)
    requires Filling(copies, pending, world, source) && copies[source] == copy
    requires forall j | 0 <= j < i :: Copied(members[j].value, copies)
    requires copy.node == ObjNode(CopyMembers(members[..i], copies))
    requires forall c | c in copies :: allocated(copies[c])
    modifies copy
    ensures source.node == ObjNode(members)
    ensures Extends(more, copies) && Filling(more, stack, world, source)
    ensures forall j | 0 <= j < i + 1 :: Copied(members[j].value, more)
    ensures copy.node == ObjNode(CopyMembers(members[..i + 1], more))
    ensures Left(more, stack, world) <= Left(copies, pending, world)
    ensures forall c | c in more && c !in copies :: fresh(more[c])
  {
    assert source in copies && source != copy;
    hide Filling, Left, Put, CleanString;
    var w;
    w, more, stack := Visit(members[i].value, copies, pending, source, world);
    OneMoreMember(members, i, copies, more);
    Write(source, copy, ObjNode(Put(copy.node.members, CleanString(members[i].key), w)), more, stack, world);
  }

  /** The object's members are set on the copy one after another, under their cleaned keys. */
  method FillObject(source: Container, copy: Container, copies: Copies, pending: seq<Task>, ghost world: set<Container>)
    returns (more: Copies, stack: seq<Task>)
    requires Closed(world) && Filling(copies, pending, world, source) && copies[source] == copy
    requires source.node.ObjNode? && copy.node == ObjNode([])
    requires forall c | c in copies :: allocated(copies[c])
    modifies copy
    ensures Underway(more, stack, world) && Extends(more, copies)
    ensures Left(more, stack, world) <= Left(copies, pending, world)
    ensures forall c | c in more && c !in copies :: fresh(more[c])
  {
    more, stack := copies, pending;
    var members := source.node.members;
    assert source in copies && forall j | 0 <= j < |members| :: ValIn(members[j].value, world);
    hide Filling, Left, Underway, Put, CleanString;
    for i := 0 to |members|
      invariant source.node == ObjNode(members)
      invariant Extends(more, copies) && Filling(more, stack, world, source) && more[source] == copy
      invariant forall j | 0 <= j < i :: Copied(members[j].value, more)
      invariant copy.node == ObjNode(CopyMembers(members[..i], more))
      invariant Left(more, stack, world) <= Left(copies, pending, world)
      invariant forall c | c in more && c !in copies :: fresh(more[c])
      modifies copy
    {
      more, stack := SetMember(members, i, source, copy, more, stack, world);
    }
    assert members[..|members|] == members;
    Done(source, more, stack, world);
  }

  /** A container popped off the stack. */
  lemma Popped(copies: Copies, pending: seq<Task>, world: set<Container>)
    requires Underway(copies, pending, world) && pending != []
    ensures Filling(copies, pending[..|pending| - 1], world, pending[|pending| - 1].source)
  {
    var task, rest := pending[|pending| - 1], pending[..|pending| - 1];
    assert pending == rest + [task];
    forall t | t in Sources(pending) ensures t in Sources(rest) || t == task.source {
      var i :| 0 <= i < |pending| && pending[i].source == t;
      assert i < |rest| ==> rest[i].source == t;
    }
    forall t | t in Sources(rest) ensures t in Sources(pending) && t != task.source {
      var i :| 0 <= i < |rest| && rest[i].source == t;
      assert pending[i].source == t;
    }
  }

  /** Nothing left on the stack: every container reached has its copy, filled. */
  lemma AllFilled(copies: Copies, world: set<Container>)
    requires Underway(copies, [], world)
    ensures IsCopy(copies)
  {
  }

  /** One container popped off the stack and filled. */
  method FillNext(copies: Copies, pending: seq<Task>, ghost world: set<Container>, ghost value: Val)
    returns (more: Copies, stack: seq<Task>)
    requires Copied(value, copies)
    requires Closed(world) && Underway(copies, pending, world) && pending != []
    requires forall c | c in copies :: allocated(copies[c])
    modifies pending[|pending| - 1].copy
    ensures Underway(more, stack, world) && Extends(more, copies)
    ensures Copied(value, more) && CopyVal(value, more) == CopyVal(value, copies)
    ensures Left(more, stack, world) < Left(copies, pending, world)
    ensures forall c | c in more && c !in copies :: fresh(more[c])
  {
    Popped(copies, pending, world);
    var task := pending[|pending| - 1];
    if task.source.node.ArrNode? {
      more, stack := FillArray(task.source, task.copy, copies, pending[..|pending| - 1], world);
    } else {
      more, stack := FillObject(task.source, task.copy, copies, pending[..|pending| - 1], world);
    }
    CopyValMore(value, copies, more);
  }

  /** The value itself is a container met for the first time, or there is none. */
  lemma Begun(v: Val, copies: Copies, pending: seq<Task>, world: set<Container>)
    requires Separate(copies, world)
    requires if v.Ref? then copies.Keys == {v.c} && pending == [Task(v.c, copies[v.c])] else copies == map[] && pending == []
    requires v.Ref? ==> copies[v.c].node == EmptyLike(v.c.node)
    ensures Underway(copies, pending, world)
  {
    if v.Ref? {
      assert pending[0].source in Sources(pending);
      assert copies[v.c] in copies.Values;
    }
  }

  lemma CopyReadsCleanThroughout(v: Val, copies: Copies)
    requires IsCopy(copies) && Copied(v, copies)
    ensures Closed(copies.Keys) && Closed(copies.Values) && ValIn(CopyVal(v, copies), copies.Values)
    ensures forall n: nat :: Read(CopyVal(v, copies), n, copies.Values) == CleanValue(Read(v, n, copies.Keys))
  {
    CopyReadsClean(v, 0, copies);
    forall n: nat ensures Read(CopyVal(v, copies), n, copies.Values) == CleanValue(Read(v, n, copies.Keys)) {
      CopyReadsClean(v, n, copies);
    }
  }

  /** The value itself, copied or put on the stack. */
  method Begin(value: Val, ghost world: set<Container>) returns (root: Val, copies: Copies, pending: seq<Task>)
    requires Closed(world) && ValIn(value, world)
    ensures Underway(copies, pending, world) && Copied(value, copies) && root == CopyVal(value, copies)
    ensures forall c | c in copies :: fresh(copies[c])
  {
    root, copies, pending := CopyOf(value, map[], [], world);
    Begun(value, copies, pending, world);
  }

  /** `cleanStrings`: every container reached is copied, outside what was given. */
  method CopyAll(value: Val, ghost world: set<Container>) returns (root: Val, copies: Copies)
    requires Closed(world) && ValIn(value, world)
    ensures IsCopy(copies) && Copied(value, copies) && root == CopyVal(value, copies)
    ensures copies.Keys <= world && forall c | c in copies :: fresh(copies[c])
  {
    var pending: seq<Task>;
    root, copies, pending := Begin(value, world);
    while pending != []
      invariant Underway(copies, pending, world) && Copied(value, copies) && root == CopyVal(value, copies)
      invariant forall c | c in copies :: fresh(copies[c])
      decreases Left(copies, pending, world)
    {
      assert fresh(pending[|pending| - 1].copy);
      copies, pending := FillNext(copies, pending, world, value);
    }
    AllFilled(copies, world);
  }

  /** What comes back is new, and to every depth it reads as the recursive clean of what was given,
      which is left as it was. */
  method CleanStrings(value: Val, ghost world: set<Container>) returns (root: Val, ghost made: Copies)
    requires Closed(world) && ValIn(value, world)
    ensures made.Keys <= world && forall c | c in made :: fresh(made[c])
    ensures Closed(made.Keys) && Closed(made.Values) && ValIn(value, made.Keys) && ValIn(root, made.Values)
    ensures forall n: nat :: Read(root, n, made.Values) == CleanValue(Read(value, n, made.Keys))
  {
    var copies;
    root, copies := CopyAll(value, world);
    made := copies;
    CopyReadsCleanThroughout(value, made);
  }
}
