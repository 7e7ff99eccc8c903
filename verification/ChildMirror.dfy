/** The root's list of child nodes (app_mesh_lite_comm.c) and the bridge's copy of it
    (app_bridge.c), which hears of changes only through the event queue. */
module ChildMirror {
  import opened CStrings
  import opened LinkedLists
  import opened Seqs

  const TTL: nat := 120 + 10
  const KEY := 17 // MAC_MAX_LEN - 1

  /** A MAC and an IP address as strings. */
  datatype Child = Child(mac: string, ip: string)

  datatype Entry = Entry(child: Child, level: nat, ttl: nat)

  datatype Event = Join(child: Child) | Leave(child: Child)

  /** Both lists compare the first 17 characters of a MAC string. */
  function Key(mac: string): string
  {
    CString(mac, KEY)
  }

  /** Of a MAC address in its text form, 17 characters, that is all. */
  lemma MacIsItsKey(a: string, b: string)
    requires |a| >= 17 && |b| >= 17 && '\0' !in a && '\0' !in b
    ensures Key(a) == Key(b) <==> a[..17] == b[..17]
  {
    CStringUnique(a, KEY, a[..17]);
    CStringUnique(b, KEY, b[..17]);
  }

  function SameMac(mac: string): Child -> bool
  {
    (c: Child) => Key(c.mac) == Key(mac)
  }

  function EntryOf(mac: string): Entry -> bool
  {
    (e: Entry) => Key(e.child.mac) == Key(mac)
  }

  function ChildOf(): Entry -> Child
  {
    (e: Entry) => e.child
  }

  function Refreshed(): Entry -> Entry
  {
    (e: Entry) => e.(ttl := TTL)
  }

  function Alive(): Entry -> bool
  {
    (e: Entry) => e.ttl > 0
  }

  function Older(): Entry -> Entry
  {
    (e: Entry) => if e.ttl > 0 then e.(ttl := e.ttl - 1) else e
  }

  /** What the copy should show: MAC and IP of every entry, in order. */
  function Shown(entries: seq<Entry>): seq<Child>
  {
    Apply(ChildOf(), entries)
  }

  function Handled(children: seq<Child>, e: Event): seq<Child>
  {
    match e
    case Join(c) => if IndexOf(SameMac(c.mac), children) < |children| then children else [c] + children
    case Leave(c) => RemoveAt(SameMac(c.mac), children)
  }

  function Handler(): (seq<Child>, Event) -> seq<Child>
  {
    (children: seq<Child>, e: Event) => Handled(children, e)
  }

  /** The copy once every pending event has been handled. */
  function Replay(children: seq<Child>, queue: seq<Event>): seq<Child>
  {
    Fold(Handler(), children, queue)
  }

  function LeaveOf(): Entry -> Event
  {
    (e: Entry) => Leave(e.child)
  }

  function Leaves(entries: seq<Entry>): seq<Event>
  {
    Apply(LeaveOf(), entries)
  }

  ghost predicate NoMac(mac: string, children: seq<Child>)
  {
    forall c :: c in children ==> Key(c.mac) != Key(mac)
  }

  /** No two children have the same MAC. */
  ghost predicate OnePerMac(children: seq<Child>)
  {
    children != [] ==> NoMac(children[0].mac, children[1..]) && OnePerMac(children[1..])
  }

  lemma {:induction false} NoMacFiltered(mac: string, keep: Entry -> bool, entries: seq<Entry>)
    requires NoMac(mac, Shown(entries))
    ensures NoMac(mac, Shown(Filter(keep, entries)))
  {
    forall c | c in Shown(Filter(keep, entries)) ensures Key(c.mac) != Key(mac) {
      var i :| 0 <= i < |Filter(keep, entries)| && Filter(keep, entries)[i].child == c;
      FilterMembers(keep, entries, Filter(keep, entries)[i]);
      var j :| 0 <= j < |entries| && entries[j] == Filter(keep, entries)[i];
      assert Shown(entries)[j] == c;
    }
  }

  lemma {:induction false} OnePerMacFiltered(keep: Entry -> bool, entries: seq<Entry>)
    requires OnePerMac(Shown(entries))
    ensures OnePerMac(Shown(Filter(keep, entries)))
  {
    if entries != [] {
      var e, rest := entries[0], entries[1..];
      assert Shown(entries)[1..] == Shown(rest);
      OnePerMacFiltered(keep, rest);
      if keep(e) {
        NoMacFiltered(e.child.mac, keep, rest);
        ApplyCons(ChildOf(), e, Filter(keep, rest));
        assert Filter(keep, entries) == [e] + Filter(keep, rest);
      } else {
        assert Filter(keep, entries) == Filter(keep, rest);
      }
    }
  }

  lemma {:induction false} LeavesOthers(c: Child, children: seq<Child>, gone: seq<Entry>)
    requires NoMac(c.mac, Shown(gone))
    ensures Replay([c] + children, Leaves(gone)) == [c] + Replay(children, Leaves(gone))
    decreases |gone|
  {
    if gone != [] {
      var p := SameMac(gone[0].child.mac);
      assert gone[0].child == Shown(gone)[0] && !p(c);
      assert Shown(gone[1..]) == Shown(gone)[1..];
      assert ([c] + children)[1..] == children;
      RemoveBehind(p, c, children);
      LeavesOthers(c, RemoveAt(p, children), gone[1..]);
    }
  }

  lemma RemoveBehind<T>(p: T -> bool, x: T, s: seq<T>)
    requires !p(x)
    ensures RemoveAt(p, [x] + s) == [x] + RemoveAt(p, s)
  {
    var k := IndexOf(p, s);
    assert ([x] + s)[1..] == s;
    assert IndexOf(p, [x] + s) == k + 1;
    if k < |s| {
      assert Without([x] + s, k + 1) == [x] + Without(s, k);
    }
  }

  lemma RemoveHead<T>(p: T -> bool, x: T, s: seq<T>)
    requires p(x)
    ensures RemoveAt(p, [x] + s) == s
  {
  }

  lemma SweepKeepsHead(e: Entry, rest: seq<Entry>)
    requires NoMac(e.child.mac, Shown(rest))
    requires Replay(Shown(rest), Leaves(Filter(Not(Alive()), rest))) == Shown(Filter(Alive(), rest))
    ensures Replay([e.child] + Shown(rest), Leaves(Filter(Not(Alive()), rest))) == [e.child] + Shown(Filter(Alive(), rest))
  {
    var gone := Filter(Not(Alive()), rest);
    NoMacFiltered(e.child.mac, Not(Alive()), rest);
    LeavesOthers(e.child, Shown(rest), gone);
  }

  lemma LeaveHead(c: Child, children: seq<Child>, queue: seq<Event>)
    ensures Replay([c] + children, [Leave(c)] + queue) == Replay(children, queue)
  {
    RemoveHead(SameMac(c.mac), c, children);
    assert ([Leave(c)] + queue)[1..] == queue;
  }

  /** Handling the leave events of a sweep on a copy of the list removes exactly the swept
      entries and keeps the order of the others. */
  lemma {:induction false} SweepMirrored(entries: seq<Entry>)
    requires OnePerMac(Shown(entries))
    ensures Replay(Shown(entries), Leaves(Filter(Not(Alive()), entries))) == Shown(Filter(Alive(), entries))
    decreases |entries|
  {
    if entries != [] {
      var e, rest := entries[0], entries[1..];
      assert Shown(entries) == [e.child] + Shown(rest) && Shown(entries)[1..] == Shown(rest);
      SweepMirrored(rest);
      if Alive()(e) {
        assert Filter(Not(Alive()), entries) == Filter(Not(Alive()), rest);
        assert Filter(Alive(), entries) == [e] + Filter(Alive(), rest);
        SweepKeepsHead(e, rest);
        ApplyCons(ChildOf(), e, Filter(Alive(), rest));
      } else {
        assert Filter(Not(Alive()), entries) == [e] + Filter(Not(Alive()), rest);
        assert Filter(Alive(), entries) == Filter(Alive(), rest);
        ApplyCons(LeaveOf(), e, Filter(Not(Alive()), rest));
        LeaveHead(e.child, Shown(rest), Leaves(Filter(Not(Alive()), rest)));
      }
    }
  }

  /** An update of the ttl shows nothing. */
  lemma RefreshShowsNothing(entries: seq<Entry>, mac: string)
    ensures Shown(UpdateAt(EntryOf(mac), Refreshed(), entries)) == Shown(entries)
  {
  }

  lemma AgeShowsNothing(entries: seq<Entry>)
    ensures Shown(Apply(Older(), entries)) == Shown(entries)
  {
  }

  /** Looking a MAC up in the entries or in what they show is the same. */
  lemma SameIndex(entries: seq<Entry>, mac: string)
    ensures IndexOf(SameMac(mac), Shown(entries)) == IndexOf(EntryOf(mac), entries)
  {
  }

  lemma ReplayOne(children: seq<Child>, queue: seq<Event>, e: Event)
    ensures Replay(children, queue + [e]) == Handled(Replay(children, queue), e)
  {
    FoldConcat(Handler(), children, queue, [e]);
    assert [e][1..] == [];
  }

  lemma ReplayFirst(children: seq<Child>, queue: seq<Event>)
    requires queue != []
    ensures Replay(Handled(children, queue[0]), queue[1..]) == Replay(children, queue)
    ensures |queue| == 1 ==> Replay(children, queue) == Handled(children, queue[0])
  {
  }

  /** A new entry at the head and its join event keep the mirror. */
  lemma AddMirrored(children: seq<Child>, queue: seq<Event>, entries: seq<Entry>, e: Entry)
    requires Replay(children, queue) == Shown(entries) && OnePerMac(Shown(entries))
    requires IndexOf(EntryOf(e.child.mac), entries) == |entries|
    ensures Replay(children, queue + [Join(e.child)]) == Shown([e] + entries) && OnePerMac(Shown([e] + entries))
  {
    SameIndex(entries, e.child.mac);
    ApplyCons(ChildOf(), e, entries);
    ReplayOne(children, queue, Join(e.child));
    assert ([e.child] + Shown(entries))[1..] == Shown(entries);
    forall c | c in Shown(entries) ensures Key(c.mac) != Key(e.child.mac) {
      assert !SameMac(e.child.mac)(c);
    }
  }

  // ---- the list of the root as soft state

  /** esp_mesh_lite_child_node_info_add on the entries. */
  function Added(entries: seq<Entry>, level: nat, child: Child): seq<Entry>
  {
    if Find(entries, child.mac) == None then [Entry(child, level, TTL)] + entries
    else UpdateAt(EntryOf(child.mac), Refreshed(), entries)
  }

  /** The sweep of root_timer_cb. */
  function Evicted(entries: seq<Entry>): seq<Entry>
  {
    Apply(Older(), Filter(Alive(), entries))
  }

  function Find(entries: seq<Entry>, mac: string): Option<Entry>
  {
    var k := IndexOf(EntryOf(mac), entries);
    if k < |entries| then Some(entries[k]) else None
  }

  datatype Op = Report(level: nat, child: Child) | Sweep

  function Run(ops: seq<Op>): seq<Entry>
  {
    if ops == [] then [] else OneMore(Run(ops[..|ops| - 1]), ops[|ops| - 1])
  }

  function OneMore(entries: seq<Entry>, op: Op): seq<Entry>
  {
    match op
    case Report(level, child) => Added(entries, level, child)
    case Sweep => Evicted(entries)
  }

  function Sweeps(ops: seq<Op>): nat
  {
    if ops == [] then 0 else Sweeps(ops[..|ops| - 1]) + if ops[|ops| - 1].Sweep? then 1 else 0
  }

  predicate Reports(op: Op, mac: string)
  {
    op.Report? && Key(op.child.mac) == Key(mac)
  }

  /** ops[i] is the last report of mac. */
  ghost predicate LastReport(ops: seq<Op>, i: int, mac: string)
  {
    0 <= i < |ops| && Reports(ops[i], mac) && forall j :: i < j < |ops| ==> !Reports(ops[j], mac)
  }

  lemma FindCons(s: seq<Entry>, mac: string)
    requires s != []
    ensures Find(s, mac) == if Key(s[0].child.mac) == Key(mac) then Some(s[0]) else Find(s[1..], mac)
  {
  }

  lemma FindNone(s: seq<Entry>, mac: string)
    requires NoMac(mac, Shown(s))
    ensures Find(s, mac) == None
  {
    forall i | 0 <= i < |s| ensures !EntryOf(mac)(s[i]) {
      assert Shown(s)[i] == s[i].child;
    }
  }

  lemma {:induction false} FindFiltered(keep: Entry -> bool, s: seq<Entry>, mac: string)
    requires OnePerMac(Shown(s))
    ensures Find(Filter(keep, s), mac) == if Find(s, mac).Some? && keep(Find(s, mac).value) then Find(s, mac) else None
  {
    if s != [] {
      assert Shown(s)[1..] == Shown(s[1..]);
      FindCons(s, mac);
      FilterCons(keep, s);
      FindFiltered(keep, s[1..], mac);
      if keep(s[0]) {
        FindCons(Filter(keep, s), mac);
      } else if Key(s[0].child.mac) == Key(mac) {
        FindNone(s[1..], mac);
      }
    }
  }

  lemma {:induction false} FindAged(s: seq<Entry>, mac: string)
    ensures Find(Apply(Older(), s), mac) ==
      if Find(s, mac) == None then None else Some(Older()(Find(s, mac).value))
  {
    if s != [] {
      FindCons(s, mac);
      FindCons(Apply(Older(), s), mac);
      assert Apply(Older(), s)[1..] == Apply(Older(), s[1..]);
      FindAged(s[1..], mac);
    }
  }

  lemma {:induction false} FindRefreshed(s: seq<Entry>, at: string, mac: string)
    requires Find(s, at).Some?
    ensures var t := UpdateAt(EntryOf(at), Refreshed(), s);
      Find(t, mac) == if Key(at) == Key(mac) then Some(Refreshed()(Find(s, at).value)) else Find(s, mac)
  {
    UpdateAtCons(EntryOf(at), Refreshed(), s);
    FindCons(s, at);
    FindCons(s, mac);
    FindCons(UpdateAt(EntryOf(at), Refreshed(), s), mac);
    if Key(s[0].child.mac) != Key(at) {
      FindRefreshed(s[1..], at, mac);
    }
  }

  lemma FindAdded(s: seq<Entry>, level: nat, child: Child, mac: string)
    ensures Find(Added(s, level, child), mac) ==
      if Key(child.mac) != Key(mac) then Find(s, mac)
      else if Find(s, mac) == None then Some(Entry(child, level, TTL))
      else Some(Find(s, mac).value.(ttl := TTL))
  {
    SameKey(s, child.mac, mac);
    if Find(s, child.mac) == None {
      FindCons([Entry(child, level, TTL)] + s, mac);
    } else {
      FindRefreshed(s, child.mac, mac);
    }
  }

  lemma {:induction false} SameKey(s: seq<Entry>, a: string, b: string)
    ensures Key(a) == Key(b) ==> Find(s, a) == Find(s, b)
  {
    if s != [] {
      FindCons(s, a);
      FindCons(s, b);
      SameKey(s[1..], a, b);
    }
  }

  lemma {:induction false} RunOnePerMac(ops: seq<Op>)
    ensures OnePerMac(Shown(Run(ops)))
  {
    if ops != [] {
      var entries := Run(ops[..|ops| - 1]);
      RunOnePerMac(ops[..|ops| - 1]);
      match ops[|ops| - 1]
      case Report(level, child) =>
        if Find(entries, child.mac) == None {
          assert Fold(Handler(), Shown(entries), []) == Shown(entries);
          AddMirrored(Shown(entries), [], entries, Entry(child, level, TTL));
        } else {
          RefreshShowsNothing(entries, child.mac);
        }
      case Sweep =>
        OnePerMacFiltered(Alive(), entries);
        AgeShowsNothing(Filter(Alive(), entries));
    }
  }

  lemma SweepsSince(ops: seq<Op>, from: nat)
    requires from < |ops|
    ensures Sweeps(ops[from..]) == Sweeps(ops[..|ops| - 1][from..]) + if ops[|ops| - 1].Sweep? then 1 else 0
  {
    assert ops[from..][..|ops| - from - 1] == ops[..|ops| - 1][from..];
  }

  /** What a sweep leaves of a child. */
  lemma FindEvicted(s: seq<Entry>, mac: string)
    requires OnePerMac(Shown(s))
    ensures Find(Evicted(s), mac) == match Find(s, mac)
      case None => None
      case Some(e) => if e.ttl == 0 then None else Some(e.(ttl := e.ttl - 1))
  {
    FindFiltered(Alive(), s, mac);
    FindAged(Filter(Alive(), s), mac);
  }

  /** The life a child has left. */
  predicate LeftAfter(e: Option<Entry>, sweeps: nat)
  {
    if sweeps <= 130 then e.Some? && e.value.ttl == 130 - sweeps else e == None
  }

  /** On every interleaving of reports and sweeps a child that was reported is in the list iff
      at most 130 sweeps have passed since its last report, and its time to live says how many
      it has left. */
  lemma {:induction false} ReportedChild(ops: seq<Op>, mac: string, i: nat)
    requires LastReport(ops, i, mac)
    ensures LeftAfter(Find(Run(ops), mac), Sweeps(ops[i + 1..]))
  {
    var before, op := ops[..|ops| - 1], ops[|ops| - 1];
    if i == |before| {
      assert ops[i + 1..] == [];
      JustReported(Run(before), op, mac);
    } else {
      LastReportEarlier(ops, mac, i);
      ReportedChild(before, mac, i);
      SweepsSince(ops, i + 1);
      RunOnePerMac(before);
      LeftAfterOne(Run(before), op, mac, Sweeps(before[i + 1..]));
    }
  }

  lemma LastReportEarlier(ops: seq<Op>, mac: string, i: nat)
    requires LastReport(ops, i, mac) && i < |ops| - 1
    ensures LastReport(ops[..|ops| - 1], i, mac) && !Reports(ops[|ops| - 1], mac)
  {
  }

  lemma JustReported(s: seq<Entry>, op: Op, mac: string)
    requires Reports(op, mac)
    ensures LeftAfter(Find(OneMore(s, op), mac), 0)
  {
    FindAdded(s, op.level, op.child, mac);
  }

  lemma LeftAfterOne(s: seq<Entry>, op: Op, mac: string, sweeps: nat)
    requires OnePerMac(Shown(s)) && LeftAfter(Find(s, mac), sweeps) && !Reports(op, mac)
    ensures LeftAfter(Find(OneMore(s, op), mac), sweeps + if op.Sweep? then 1 else 0)
  {
    match op
    case Report(level, child) => FindAdded(s, level, child, mac);
    case Sweep => FindEvicted(s, mac);
  }

  lemma {:induction false} NeverReported(ops: seq<Op>, mac: string)
    requires forall j :: 0 <= j < |ops| ==> !Reports(ops[j], mac)
    ensures Find(Run(ops), mac) == None
  {
    if ops != [] {
      var last := |ops| - 1;
      var entries := Run(ops[..last]);
      NeverReported(ops[..last], mac);
      match ops[last]
      case Report(level, child) => FindAdded(entries, level, child, mac);
      case Sweep =>
        RunOnePerMac(ops[..last]);
        FindEvicted(entries, mac);
    }
  }

  lemma {:induction false} NoLastReport(ops: seq<Op>, mac: string)
    requires !exists i :: LastReport(ops, i, mac)
    ensures forall j :: 0 <= j < |ops| ==> !Reports(ops[j], mac)
  {
    if ops != [] {
      var last := |ops| - 1;
      assert !LastReport(ops, last, mac);
      forall i ensures !LastReport(ops[..last], i, mac) {
        assert LastReport(ops[..last], i, mac) ==> LastReport(ops, i, mac);
      }
      NoLastReport(ops[..last], mac);
    }
  }

  /** The soft-state law of the child list. */
  lemma PresentIff(ops: seq<Op>, mac: string)
    ensures Find(Run(ops), mac).Some? <==> exists i :: LastReport(ops, i, mac) && Sweeps(ops[i + 1..]) <= 130
  {
    if i :| LastReport(ops, i, mac) && Sweeps(ops[i + 1..]) <= 130 {
      ReportedChild(ops, mac, i);
    } else if i :| LastReport(ops, i, mac) {
      ReportedChild(ops, mac, i);
    } else {
      NoLastReport(ops, mac);
      NeverReported(ops, mac);
    }
  }

  /** Report i is the one that brought the child into the list, where it has been since. */
  ghost predicate Brought(ops: seq<Op>, i: int, mac: string)
  {
    && 0 <= i < |ops| && Reports(ops[i], mac) && Find(Run(ops[..i]), mac) == None
    && forall n {:trigger InAt(ops, n, mac)} :: i < n <= |ops| ==> InAt(ops, n, mac)
  }

  ghost predicate InAt(ops: seq<Op>, n: int, mac: string)
  {
    0 <= n <= |ops| && Find(Run(ops[..n]), mac).Some?
  }

  /** What is in the list is what that report said: later ones refresh the child, but do not
      change its address or level. */
  lemma {:induction false} FirstReportStands(ops: seq<Op>, mac: string) returns (i: nat)
    requires Find(Run(ops), mac).Some?
    ensures Brought(ops, i, mac)
    ensures Find(Run(ops), mac).value.child == ops[i].child && Find(Run(ops), mac).value.level == ops[i].level
  {
    var last := |ops| - 1;
    var before := ops[..last];
    RunOnePerMac(before);
    OneStands(Run(before), ops[last], mac);
    if Find(Run(before), mac).Some? {
      i := FirstReportStands(before, mac);
      BroughtStays(ops, i, mac);
    } else {
      i := last;
      BroughtNow(ops, mac);
    }
  }

  lemma OneStands(s: seq<Entry>, op: Op, mac: string)
    requires OnePerMac(Shown(s)) && Find(OneMore(s, op), mac).Some?
    ensures var was, now := Find(s, mac), Find(OneMore(s, op), mac).value;
      if was.Some? then now.child == was.value.child && now.level == was.value.level
      else Reports(op, mac) && now.child == op.child && now.level == op.level
  {
    match op
    case Report(level, child) => FindAdded(s, level, child, mac);
    case Sweep => FindEvicted(s, mac);
  }

  lemma BroughtNow(ops: seq<Op>, mac: string)
    requires ops != [] && Reports(ops[|ops| - 1], mac)
    requires Find(Run(ops[..|ops| - 1]), mac) == None && Find(Run(ops), mac).Some?
    ensures Brought(ops, |ops| - 1, mac)
  {
    assert ops[..|ops|] == ops && InAt(ops, |ops|, mac);
  }

  lemma BroughtStays(ops: seq<Op>, i: nat, mac: string)
    requires ops != [] && Brought(ops[..|ops| - 1], i, mac) && Find(Run(ops), mac).Some?
    ensures Brought(ops, i, mac)
  {
    var before := ops[..|ops| - 1];
    assert before[..i] == ops[..i];
    assert InAt(ops, |ops|, mac) by {
      assert ops[..|ops|] == ops;
    }
    forall n | i < n < |ops| ensures InAt(ops, n, mac) {
      InAtEarlier(ops, n, mac);
    }
  }

  lemma InAtEarlier(ops: seq<Op>, n: nat, mac: string)
    requires n < |ops|
    ensures InAt(ops, n, mac) == InAt(ops[..|ops| - 1], n, mac)
  {
    assert ops[..|ops| - 1][..n] == ops[..n];
  }

  // ---- the code

  /** The two lists, each under its own mutex, and the event queue between them. */
  class Bridge {
    const nodes: List<Entry>
    const children: List<Child>
    var queue: seq<Event>

    /** The mirror: handling what is pending would make the copy show exactly the entries,
        in their order. */
    ghost predicate Valid()
      reads this, nodes, nodes.repr, children, children.repr
    {
      && nodes.Valid() && children.Valid()
      && OnePerMac(Shown(nodes.values))
      && Replay(children.values, queue) == Shown(nodes.values)
    }

    constructor ()
      ensures Valid() && nodes.values == [] && children.values == [] && queue == []
      ensures fresh(nodes) && fresh(children) && fresh(nodes.repr) && fresh(children.repr)
    {
      nodes := new List();
      children := new List();
      queue := [];
    }

    /** esp_mesh_lite_child_node_info_add. */
    method AddNode(level: nat, child: Child) returns (added: bool)
      requires Valid()
      modifies nodes, nodes.repr, `queue
      ensures Valid() && fresh(nodes.repr - old(nodes.repr))
      ensures added == (Find(old(nodes.values), child.mac) == None)
      ensures nodes.values == Added(old(nodes.values), level, child)
      ensures queue == if added then old(queue) + [Join(child)] else old(queue)
    {
      RefreshShowsNothing(nodes.values, child.mac);
      var found := nodes.UpdateFirst(EntryOf(child.mac), Refreshed());
      if found.Some? {
        return false;
      }
      AddMirrored(children.values, queue, nodes.values, Entry(child, level, TTL));
      nodes.PushFront(Entry(child, level, TTL));
      queue := queue + [Join(child)];
      return true;
    }

    /** root_timer_cb; isRoot: the level is not above ROOT; free: the mutex could be taken without
        waiting. */
    method RootTimer(isRoot: bool, free: bool)
      requires Valid()
      modifies nodes, nodes.repr, `queue
      ensures Valid() && nodes.repr == old(nodes.repr)
      ensures nodes.values == if isRoot && free then Evicted(old(nodes.values)) else old(nodes.values)
      ensures queue == if isRoot && free then old(queue) + Leaves(Filter(Not(Alive()), old(nodes.values))) else old(queue)
    {
      if !isRoot || !free {
        return;
      }
      SweepMirrored(nodes.values);
      OnePerMacFiltered(Alive(), nodes.values);
      AgeShowsNothing(Filter(Alive(), nodes.values));
      var removed := nodes.Sweep(Alive(), Older());
      FoldConcat(Handler(), children.values, queue, Leaves(removed));
      queue := queue + Leaves(removed);
    }

    method AddChildInfo(child: Child)
      requires children.Valid()
      modifies children, children.repr
      ensures children.Valid() && fresh(children.repr - old(children.repr))
      ensures children.values == Handled(old(children.values), Join(child))
    {
      var found := children.FindFirst(SameMac(child.mac));
      if found.None? {
        children.PushFront(child);
      }
    }

    method RemoveChildInfo(mac: string)
      requires children.Valid()
      modifies children, children.repr
      ensures children.Valid() && fresh(children.repr - old(children.repr))
      ensures children.values == RemoveAt(SameMac(mac), old(children.values))
    {
      var _ := children.RemoveFirst(SameMac(mac));
    }

    method OnEvent(e: Event)
      requires children.Valid()
      modifies children, children.repr
      ensures children.Valid() && fresh(children.repr - old(children.repr))
      ensures children.values == Handled(old(children.values), e)
    {
      match e
      case Join(child) => AddChildInfo(child);
      case Leave(child) => RemoveChildInfo(child.mac);
    }

    /** esp_mesh_lite_handler takes the oldest pending event. */
    method HandleEvent()
      requires Valid() && queue != []
      modifies children, children.repr, `queue
      ensures Valid() && fresh(children.repr - old(children.repr))
      ensures queue == old(queue)[1..] && children.values == Handled(old(children.values), old(queue)[0])
      ensures queue == [] ==> children.values == Shown(nodes.values)
    {
      ReplayFirst(children.values, queue);
      var e := queue[0];
      queue := queue[1..];
      OnEvent(e);
    }
  }
}
