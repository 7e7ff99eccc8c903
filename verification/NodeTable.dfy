/** The mesh node table of esp_mesh_lite.c: a list of nodes with a time to live, and the
    handlers that update, age, replace and report it. The first half specifies each
    operation as a function on the sequence of entries, newest first; the class at the end
    performs them on the linked list. */
module NodeTables {
  import opened Seqs
  import opened LinkedLists
  import opened Words

  newtype Mac = x: int | 0 <= x < 0x1_0000_0000_0000

  const ROOT: U8 := 1
  const BUFFER: U32 := 10 // MESH_LITE_REPORT_INTERVAL_BUFFER

  datatype Info = Info(level: U8, ip: U32)
  datatype Entry = Entry(mac: Mac, info: Info, ttl: U32)

  /** A node record on the wire; mac is None when the mac bytes are absent. */
  datatype NodeData = NodeData(mac: Option<Mac>, level: U32, ip: U32)

  datatype Event = Join(mac: Mac, info: Info) | Change(mac: Mac, info: Info) | Leave(mac: Mac, info: Info)

  datatype Ret = Ok | Fail | NotSupported | DuplicateAddition

  function Received(level: U32, ip: U32): Info
  {
    Info(level % 0x100, ip) // the handler's level parameter is 8 bits wide
  }

  // ---- the operations on the sequence of entries

  function IsMac(mac: Mac): Entry -> bool
  {
    (e: Entry) => e.mac == mac
  }

  function Refresh(info: Info, ttl: U32): Entry -> Entry
  {
    (e: Entry) => Entry(e.mac, info, ttl)
  }

  /** The entry a walk from the head finds for mac. */
  function First(s: seq<Entry>, mac: Mac): Option<Entry>
  {
    var k := IndexOf(IsMac(mac), s);
    if k < |s| then Some(s[k]) else None
  }

  /** esp_mesh_lite_node_info_update: refresh in place, or insert at the head. */
  function UpdateList(s: seq<Entry>, mac: Mac, info: Info, ttl: U32): seq<Entry>
  {
    if First(s, mac) == None then [Entry(mac, info, ttl)] + s else UpdateAt(IsMac(mac), Refresh(info, ttl), s)
  }

  function UpdateEvents(s: seq<Entry>, mac: Mac, info: Info): seq<Event>
  {
    match First(s, mac)
    case None => [Join(mac, info)]
    case Some(was) => if was.info == info then [] else [Change(mac, info)]
  }

  function Marked(): Entry -> Entry
  {
    (e: Entry) => e.(ttl := BUFFER)
  }

  function AboveBuffer(): Entry -> bool
  {
    (e: Entry) => e.ttl > BUFFER
  }

  function Unexpired(): Entry -> bool
  {
    (e: Entry) => e.ttl != 0
  }

  function Older(): Entry -> Entry
  {
    (e: Entry) => if e.ttl == 0 then e else e.(ttl := e.ttl - 1)
  }

  function LeaveOf(): Entry -> Event
  {
    (e: Entry) => Leave(e.mac, e.info)
  }

  function Leaves(s: seq<Entry>): seq<Event>
  {
    Apply(LeaveOf(), s)
  }

  /** What one record of a message does, and the events it posts. */
  function Turn(s: seq<Entry>, d: NodeData, ttl: U32): (seq<Entry>, seq<Event>)
  {
    match d.mac
    case None => (s, [])
    case Some(mac) =>
      var info := Received(d.level, d.ip);
      (UpdateList(s, mac, info, ttl), UpdateEvents(s, mac, info))
  }

  /** The loop over a message's records. */
  function UpdateAll(s: seq<Entry>, msg: seq<NodeData>, ttl: U32): (seq<Entry>, seq<Event>)
  {
    if msg == [] then (s, [])
    else
      var (t, ev) := UpdateAll(s, msg[..|msg| - 1], ttl);
      var (u, more) := Turn(t, msg[|msg| - 1], ttl);
      (u, ev + more)
  }

  lemma UpdateAllStep(s: seq<Entry>, msg: seq<NodeData>, n: nat, ttl: U32)
    requires n < |msg|
    ensures var (t, ev) := UpdateAll(s, msg[..n], ttl);
      UpdateAll(s, msg[..n + 1], ttl) == (Turn(t, msg[n], ttl).0, ev + Turn(t, msg[n], ttl).1)
  {
    assert msg[..n + 1][..n] == msg[..n];
  }

  /** mesh_lite_update_nodes_list below the root: mark, update, sweep. */
  function Snapshot(s: seq<Entry>, msg: seq<NodeData>, ttl: U32): (seq<Entry>, seq<Event>)
  {
    if msg == [] then (s, []) else SweepBelow(UpdateAll(Apply(Marked(), s), msg, ttl))
  }

  function SweepBelow(run: (seq<Entry>, seq<Event>)): (seq<Entry>, seq<Event>)
  {
    (Filter(AboveBuffer(), run.0), run.1 + Leaves(Filter(Not(AboveBuffer()), run.0)))
  }

  /** root_timer_cb: drop the expired, age the rest. */
  function Tick(s: seq<Entry>): seq<Entry>
  {
    Apply(Older(), Filter(Unexpired(), s))
  }

  // ---- what a table and a message mean

  ghost predicate Unique(s: seq<Entry>)
  {
    forall i, j :: 0 <= i < j < |s| ==> s[i].mac != s[j].mac
  }

  /** The table as a map; in a duplicate-free list every entry counts. */
  function Content(s: seq<Entry>): map<Mac, Info>
  {
    if s == [] then map[] else Content(s[1..])[s[0].mac := s[0].info]
  }

  /** What a message says: the last record of each MAC address. */
  function Meaning(msg: seq<NodeData>): map<Mac, Info>
  {
    if msg == [] then map[]
    else
      var m := Meaning(msg[..|msg| - 1]);
      var d := msg[|msg| - 1];
      match d.mac
      case None => m
      case Some(mac) => m[mac := Received(d.level, d.ip)]
  }

  /** What a listener of the posted events believes the table to be. */
  function Replay(m: map<Mac, Info>, events: seq<Event>): map<Mac, Info>
  {
    if events == [] then m
    else
      var prior := Replay(m, events[..|events| - 1]);
      match events[|events| - 1]
      case Join(mac, info) => prior[mac := info]
      case Change(mac, info) => prior[mac := info]
      case Leave(mac, _) => prior - {mac}
  }

  /** Joins minus leaves. */
  function Population(events: seq<Event>): int
  {
    if events == [] then 0
    else
      Population(events[..|events| - 1]) +
      match events[|events| - 1]
      case Join(_, _) => 1
      case Change(_, _) => 0
      case Leave(_, _) => -1
  }

  // ---- facts about lookups

  lemma FirstCons(s: seq<Entry>, mac: Mac)
    requires s != []
    ensures First(s, mac) == if s[0].mac == mac then Some(s[0]) else First(s[1..], mac)
  {
  }

  lemma {:induction false} ContentIsFirst(s: seq<Entry>, mac: Mac)
    ensures First(s, mac) == None <==> mac !in Content(s)
    ensures mac in Content(s) ==> First(s, mac).value.info == Content(s)[mac] && First(s, mac).value in s
  {
    if s != [] {
      FirstCons(s, mac);
      ContentIsFirst(s[1..], mac);
    }
  }

  lemma {:induction false} FirstUpdate(s: seq<Entry>, mac: Mac, info: Info, ttl: U32, x: Mac)
    ensures First(UpdateList(s, mac, info, ttl), x) ==
            if x == mac then Some(Entry(mac, info, ttl)) else First(s, x)
  {
    if s == [] || First(s, mac) == None {
      FirstCons([Entry(mac, info, ttl)] + s, x);
    } else {
      UpdateAtCons(IsMac(mac), Refresh(info, ttl), s);
      FirstCons(s, x);
      FirstCons(UpdateList(s, mac, info, ttl), x);
      if s[0].mac != mac {
        FirstUpdate(s[1..], mac, info, ttl, x);
      }
    }
  }

  lemma {:induction false} UpdateUnique(s: seq<Entry>, mac: Mac, info: Info, ttl: U32)
    requires Unique(s)
    ensures Unique(UpdateList(s, mac, info, ttl))
  {
    var k := IndexOf(IsMac(mac), s);
    if k == |s| {
      assert forall i :: 0 <= i < |s| ==> !IsMac(mac)(s[i]);
    } else {
      assert IsMac(mac)(s[k]);
    }
  }

  lemma HeadAlone(s: seq<Entry>)
    requires Unique(s) && s != []
    ensures Unique(s[1..]) && First(s[1..], s[0].mac) == None
  {
  }

  /** In a table without duplicates a filter keeps or hides each address as a whole. */
  lemma {:induction false} FirstFiltered(p: Entry -> bool, s: seq<Entry>, mac: Mac)
    requires Unique(s)
    ensures First(Filter(p, s), mac) ==
            if First(s, mac) != None && p(First(s, mac).value) then First(s, mac) else None
  {
    if s != [] {
      HeadAlone(s);
      FirstCons(s, mac);
      FilterCons(p, s);
      FirstFiltered(p, s[1..], mac);
      if p(s[0]) {
        FirstCons(Filter(p, s), mac);
      }
    }
  }

  lemma {:induction false} FilterUnique(p: Entry -> bool, s: seq<Entry>)
    requires Unique(s)
    ensures Unique(Filter(p, s))
  {
    if s != [] {
      assert Unique(s[1..]);
      FilterUnique(p, s[1..]);
      forall e | e in Filter(p, s[1..]) ensures e.mac != s[0].mac {
        FilterMembers(p, s[1..], e);
      }
    }
  }

  /** Ageing or marking changes neither addresses nor what is known about them. */
  lemma {:induction false} ContentApply(f: Entry -> Entry, s: seq<Entry>)
    requires forall e :: f(e).mac == e.mac && f(e).info == e.info
    ensures Content(Apply(f, s)) == Content(s)
    ensures Unique(s) ==> Unique(Apply(f, s))
  {
    if s != [] {
      ContentApply(f, s[1..]);
    }
  }

  lemma ContentUpdate(s: seq<Entry>, mac: Mac, info: Info, ttl: U32)
    ensures Content(UpdateList(s, mac, info, ttl)) == Content(s)[mac := info]
  {
    var t := UpdateList(s, mac, info, ttl);
    forall x
      ensures x in Content(t) <==> x in Content(s)[mac := info]
      ensures x in Content(t) ==> Content(t)[x] == Content(s)[mac := info][x]
    {
      FirstUpdate(s, mac, info, ttl, x);
      ContentIsFirst(s, x);
      ContentIsFirst(t, x);
    }
  }

  // ---- replace by message

  /** While the loop runs, the entries above the buffer are what the message said so far. */
  lemma {:induction false} UpdateAllMeaning(s: seq<Entry>, msg: seq<NodeData>, ttl: U32)
    requires Unique(s) && ttl > BUFFER && forall e :: e in s ==> e.ttl == BUFFER
    ensures var t := UpdateAll(s, msg, ttl).0;
      Unique(t) && Content(Filter(AboveBuffer(), t)) == Meaning(msg)
  {
    if msg == [] {
      FilterAllOut(AboveBuffer(), s);
    } else {
      var before := msg[..|msg| - 1];
      UpdateAllMeaning(s, before, ttl);
      var d, t := msg[|msg| - 1], UpdateAll(s, before, ttl).0;
      if d.mac.Some? {
        var mac, info := d.mac.value, Received(d.level, d.ip);
        var t' := UpdateList(t, mac, info, ttl);
        UpdateUnique(t, mac, info, ttl);
        var c, c' := Content(Filter(AboveBuffer(), t)), Content(Filter(AboveBuffer(), t'));
        forall x
          ensures x in c' <==> x in c[mac := info]
          ensures x in c' ==> c'[x] == c[mac := info][x]
        {
          FirstUpdate(t, mac, info, ttl, x);
          FirstFiltered(AboveBuffer(), t, x);
          FirstFiltered(AboveBuffer(), t', x);
          ContentIsFirst(Filter(AboveBuffer(), t), x);
          ContentIsFirst(Filter(AboveBuffer(), t'), x);
        }
      }
    }
  }

  lemma {:induction false} FilterAllOut<T>(p: T -> bool, s: seq<T>)
    requires forall e :: e in s ==> !p(e)
    ensures Filter(p, s) == [] && Filter(Not(p), s) == s
  {
    if s != [] {
      FilterAllOut(p, s[1..]);
    }
  }

  lemma {:induction false} UpdateAllLow(s: seq<Entry>, msg: seq<NodeData>, ttl: U32)
    requires ttl == BUFFER && forall e :: e in s ==> e.ttl == BUFFER
    ensures forall e :: e in UpdateAll(s, msg, ttl).0 ==> e.ttl == BUFFER
  {
    if msg != [] {
      UpdateAllLow(s, msg[..|msg| - 1], ttl);
    }
  }

  lemma SnapshotMeaning(s: seq<Entry>, msg: seq<NodeData>, ttl: U32)
    requires Unique(s) && msg != [] && ttl > BUFFER
    ensures var t := Snapshot(s, msg, ttl).0; Unique(t) && Content(t) == Meaning(msg)
  {
    ContentApply(Marked(), s);
    UpdateAllMeaning(Apply(Marked(), s), msg, ttl);
    FilterUnique(AboveBuffer(), UpdateAll(Apply(Marked(), s), msg, ttl).0);
  }

  lemma SnapshotEmpties(s: seq<Entry>, msg: seq<NodeData>)
    requires msg != []
    ensures Snapshot(s, msg, BUFFER).0 == [] && Content(Snapshot(s, msg, BUFFER).0) == map[]
  {
    UpdateAllLow(Apply(Marked(), s), msg, BUFFER);
    FilterAllOut(AboveBuffer(), UpdateAll(Apply(Marked(), s), msg, BUFFER).0);
  }

  /** A non-empty snapshot replaces the whole table by what it says, whatever the table
      held before, exactly when the report interval is positive or the snapshot names no
      address; with interval 0 every refreshed entry is swept away as well. */
  lemma SnapshotReplaces(s: seq<Entry>, msg: seq<NodeData>, interval: U32, ttl: U32, t: seq<Entry>)
    requires Unique(s) && msg != [] && ttl == interval + BUFFER && t == Snapshot(s, msg, ttl).0
    ensures Unique(t)
    ensures Content(t) == Meaning(msg) <==> interval > 0 || Meaning(msg) == map[]
    ensures interval == 0 ==> t == []
  {
    if interval > 0 {
      SnapshotMeaning(s, msg, ttl);
    } else {
      SnapshotEmpties(s, msg);
      assert t == [] && Content(t) == map[];
    }
  }

  // ---- the posted events rebuild the table

  lemma {:induction false} ReplayConcat(m: map<Mac, Info>, a: seq<Event>, b: seq<Event>)
    ensures Replay(m, a + b) == Replay(Replay(m, a), b)
    ensures Population(a + b) == Population(a) + Population(b)
  {
    if b == [] {
      assert a + b == a;
    } else {
      assert (a + b)[..|a + b| - 1] == a + b[..|b| - 1];
      ReplayConcat(m, a, b[..|b| - 1]);
    }
  }

  lemma UpdateReplay(s: seq<Entry>, mac: Mac, info: Info, ttl: U32)
    ensures Replay(Content(s), UpdateEvents(s, mac, info)) == Content(UpdateList(s, mac, info, ttl))
    ensures Population(UpdateEvents(s, mac, info)) == |UpdateList(s, mac, info, ttl)| - |s|
  {
    ContentUpdate(s, mac, info, ttl);
    ContentIsFirst(s, mac);
    var ev := UpdateEvents(s, mac, info);
    if ev == [] {
      assert Content(s)[mac := info] == Content(s);
    } else {
      assert ev[..0] == [];
    }
  }

  /** An update is announced exactly when it changes what the table says: as a JOIN for a new
      address, as a CHANGE for new information, and not at all when it only refreshes. */
  lemma UpdateAnnounced(s: seq<Entry>, mac: Mac, info: Info, ttl: U32)
    ensures var was, now := Content(s), Content(UpdateList(s, mac, info, ttl));
      && UpdateEvents(s, mac, info) ==
           (if mac !in was then [Join(mac, info)] else if was[mac] != info then [Change(mac, info)] else [])
      && (UpdateEvents(s, mac, info) == [] <==> now == was)
  {
    ContentUpdate(s, mac, info, ttl);
    ContentIsFirst(s, mac);
    var was := Content(s);
    if was[mac := info] == was {
      assert mac in was && was[mac] == info;
    } else {
      assert !(mac in was && was[mac] == info);
    }
  }

  lemma {:induction false} UpdateAllReplay(s: seq<Entry>, msg: seq<NodeData>, ttl: U32)
    ensures var (t, ev) := UpdateAll(s, msg, ttl);
      Replay(Content(s), ev) == Content(t) && Population(ev) == |t| - |s|
  {
    if msg != [] {
      UpdateAllReplay(s, msg[..|msg| - 1], ttl);
      var (t, ev) := UpdateAll(s, msg[..|msg| - 1], ttl);
      var d := msg[|msg| - 1];
      if d.mac.Some? {
        UpdateReplay(t, d.mac.value, Received(d.level, d.ip), ttl);
        ReplayConcat(Content(s), ev, UpdateEvents(t, d.mac.value, Received(d.level, d.ip)));
      } else {
        assert ev + [] == ev;
      }
    }
  }

  lemma {:induction false} ReplayFrame(m: map<Mac, Info>, gone: seq<Event>, mac: Mac, info: Info)
    requires forall ev :: ev in gone ==> ev.mac != mac
    ensures Replay(m[mac := info], gone) == Replay(m, gone)[mac := info]
  {
    if gone != [] {
      ReplayFrame(m, gone[..|gone| - 1], mac, info);
      assert gone[|gone| - 1].mac != mac;
    }
  }

  lemma {:induction false} SweepReplay(p: Entry -> bool, s: seq<Entry>)
    requires Unique(s)
    ensures Replay(Content(s), Leaves(Filter(Not(p), s))) == Content(Filter(p, s))
  {
    if s != [] {
      HeadAlone(s);
      SweepReplay(p, s[1..]);
      FilterCons(p, s);
      FilterCons(Not(p), s);
      var rest := Filter(Not(p), s[1..]);
      if p(s[0]) {
        forall e | e in rest ensures e.mac != s[0].mac {
          FilterMembers(Not(p), s[1..], e);
        }
        ReplayFrame(Content(s[1..]), Leaves(rest), s[0].mac, s[0].info);
      } else {
        ContentIsFirst(s[1..], s[0].mac);
        LeaveFirst(Content(s[1..]), s[0], rest);
      }
    }
  }

  lemma LeaveFirst(m: map<Mac, Info>, e: Entry, rest: seq<Entry>)
    requires e.mac !in m
    ensures Replay(m[e.mac := e.info], Leaves([e] + rest)) == Replay(m, Leaves(rest))
  {
    var gone := [Leave(e.mac, e.info)];
    assert Leaves([e] + rest) == gone + Leaves(rest);
    assert gone[..0] == [] && m[e.mac := e.info] - {e.mac} == m;
    ReplayConcat(m[e.mac := e.info], gone, Leaves(rest));
  }

  lemma {:induction false} SweepPopulation(p: Entry -> bool, s: seq<Entry>)
    ensures Population(Leaves(Filter(Not(p), s))) == |Filter(p, s)| - |s|
  {
    if s != [] {
      SweepPopulation(p, s[1..]);
      FilterCons(p, s);
      FilterCons(Not(p), s);
      if !p(s[0]) {
        var gone := [Leave(s[0].mac, s[0].info)];
        assert Leaves(Filter(Not(p), s)) == gone + Leaves(Filter(Not(p), s[1..]));
        assert gone[..0] == [];
        ReplayConcat(map[], gone, Leaves(Filter(Not(p), s[1..])));
      }
    }
  }

  /** One sweep keeps the bookkeeping: no address twice, the posted events rebuild the
      table, and their population is its size. */
  lemma SweepFacts(keep: Entry -> bool, age: Entry -> Entry, s: seq<Entry>, posted: seq<Event>)
    requires forall e :: age(e).mac == e.mac && age(e).info == e.info
    requires Unique(s) && Replay(map[], posted) == Content(s) && Population(posted) == |s|
    ensures var t, gone := Apply(age, Filter(keep, s)), Filter(Not(keep), s);
      && Unique(t) && |t| + |gone| == |s|
      && Replay(map[], posted + Leaves(gone)) == Content(t)
      && Population(posted + Leaves(gone)) == |t|
  {
    FilterSplit(keep, s);
    FilterUnique(keep, s);
    ContentApply(age, Filter(keep, s));
    SweepReplay(keep, s);
    SweepPopulation(keep, s);
    ReplayConcat(map[], posted, Leaves(Filter(Not(keep), s)));
  }

  lemma {:induction false} FilterSplit<T>(p: T -> bool, s: seq<T>)
    ensures |Filter(p, s)| + |Filter(Not(p), s)| == |s|
  {
    if s != [] {
      FilterSplit(p, s[1..]);
      FilterCons(p, s);
      FilterCons(Not(p), s);
    }
  }

  // ---- what a whole message announces

  lemma {:induction false} UpdateAllFirst(s: seq<Entry>, msg: seq<NodeData>, ttl: U32, x: Mac)
    ensures First(UpdateAll(s, msg, ttl).0, x) ==
            if x in Meaning(msg) then Some(Entry(x, Meaning(msg)[x], ttl)) else First(s, x)
  {
    if msg != [] {
      var before, d := msg[..|msg| - 1], msg[|msg| - 1];
      UpdateAllFirst(s, before, ttl, x);
      if d.mac.Some? {
        FirstUpdate(UpdateAll(s, before, ttl).0, d.mac.value, Received(d.level, d.ip), ttl, x);
      }
    }
  }

  lemma {:induction false} UpdateAllUnique(s: seq<Entry>, msg: seq<NodeData>, ttl: U32)
    requires Unique(s)
    ensures Unique(UpdateAll(s, msg, ttl).0)
  {
    if msg != [] {
      var before, d := msg[..|msg| - 1], msg[|msg| - 1];
      UpdateAllUnique(s, before, ttl);
      if d.mac.Some? {
        UpdateUnique(UpdateAll(s, before, ttl).0, d.mac.value, Received(d.level, d.ip), ttl);
      }
    }
  }

  ghost predicate Joined(events: seq<Event>, mac: Mac)
  {
    exists info :: Join(mac, info) in events
  }

  ghost predicate Left(events: seq<Event>, mac: Mac)
  {
    exists info :: Leave(mac, info) in events
  }

  lemma {:induction false} UpdateAllJoins(s: seq<Entry>, msg: seq<NodeData>, ttl: U32, mac: Mac)
    ensures var ev := UpdateAll(s, msg, ttl).1;
      && (Joined(ev, mac) <==> mac !in Content(s) && mac in Meaning(msg))
      && !Left(ev, mac)
  {
    if msg != [] {
      var before, d := msg[..|msg| - 1], msg[|msg| - 1];
      UpdateAllJoins(s, before, ttl, mac);
      if d.mac.Some? {
        var (t, ev) := UpdateAll(s, before, ttl);
        var more := UpdateEvents(t, d.mac.value, Received(d.level, d.ip));
        UpdateAllFirst(s, before, ttl, d.mac.value);
        ContentIsFirst(s, d.mac.value);
        JoinedConcat(ev, more, mac);
        if First(t, d.mac.value) == None {
          assert Join(d.mac.value, Received(d.level, d.ip)) in more;
        }
      }
    }
  }

  lemma JoinedConcat(a: seq<Event>, b: seq<Event>, mac: Mac)
    ensures Joined(a + b, mac) <==> Joined(a, mac) || Joined(b, mac)
    ensures Left(a + b, mac) <==> Left(a, mac) || Left(b, mac)
  {
    if info :| Join(mac, info) in a { assert Join(mac, info) in a + b; }
    if info :| Join(mac, info) in b { assert Join(mac, info) in a + b; }
    if info :| Leave(mac, info) in a { assert Leave(mac, info) in a + b; }
    if info :| Leave(mac, info) in b { assert Leave(mac, info) in a + b; }
  }

  lemma LeavesOf(s: seq<Entry>, mac: Mac)
    requires Unique(s)
    ensures !Joined(Leaves(s), mac)
    ensures Left(Leaves(s), mac) <==> First(s, mac) != None
  {
    var k := IndexOf(IsMac(mac), s);
    if k < |s| {
      assert Leaves(s)[k] == Leave(mac, s[k].info);
    } else {
      assert forall i :: 0 <= i < |s| ==> !IsMac(mac)(s[i]);
    }
  }

  /** What a snapshot announces: JOIN for exactly the addresses it adds, LEAVE for exactly those
      it no longer names; and every entry it leaves has the full time to live. */
  lemma SnapshotAnnounces(s: seq<Entry>, msg: seq<NodeData>, ttl: U32, mac: Mac)
    requires Unique(s) && msg != [] && ttl > BUFFER
    ensures var (t, ev) := Snapshot(s, msg, ttl);
      && (Joined(ev, mac) <==> mac !in Content(s) && mac in Meaning(msg))
      && (Left(ev, mac) <==> mac in Content(s) && mac !in Meaning(msg))
      && First(t, mac) == if mac in Meaning(msg) then Some(Entry(mac, Meaning(msg)[mac], ttl)) else None
  {
    var marked := Apply(Marked(), s);
    var (t, ev) := UpdateAll(marked, msg, ttl);
    ContentApply(Marked(), s);
    UpdateAllUnique(marked, msg, ttl);
    UpdateAllJoins(marked, msg, ttl, mac);
    UpdateAllFirst(marked, msg, ttl, mac);
    FirstFiltered(AboveBuffer(), t, mac);
    FirstFiltered(Not(AboveBuffer()), t, mac);
    FilterUnique(Not(AboveBuffer()), t);
    LeavesOf(Filter(Not(AboveBuffer()), t), mac);
    JoinedConcat(ev, Leaves(Filter(Not(AboveBuffer()), t)), mac);
    ContentIsFirst(marked, mac);
    MarkedFirst(s, mac);
  }

  lemma MemberFirst(s: seq<Entry>, e: Entry)
    requires Unique(s) && e in s
    ensures First(s, e.mac) == Some(e)
  {
    var i :| 0 <= i < |s| && s[i] == e;
    var k := IndexOf(IsMac(e.mac), s);
    assert IsMac(e.mac)(s[i]);
  }

  lemma {:induction false} FilterAllIn<T>(p: T -> bool, s: seq<T>)
    requires forall e :: e in s ==> p(e)
    ensures Filter(p, s) == s && Filter(Not(p), s) == []
  {
    if s != [] {
      FilterAllIn(p, s[1..]);
    }
  }

  lemma MarkedFirst(s: seq<Entry>, mac: Mac)
    ensures First(Apply(Marked(), s), mac) != None ==> First(Apply(Marked(), s), mac).value.ttl == BUFFER
  {
  }

  /** Every record of the message says what the table says already. */
  ghost predicate Agrees(s: seq<Entry>, msg: seq<NodeData>)
  {
    forall i :: 0 <= i < |msg| && msg[i].mac.Some? ==>
      msg[i].mac.value in Content(s) && Content(s)[msg[i].mac.value] == Received(msg[i].level, msg[i].ip)
  }

  lemma {:induction false} UpdateAllQuiet(s: seq<Entry>, msg: seq<NodeData>, ttl: U32)
    requires Agrees(s, msg)
    ensures UpdateAll(s, msg, ttl).1 == [] && Content(UpdateAll(s, msg, ttl).0) == Content(s)
  {
    if msg != [] {
      var before, d := msg[..|msg| - 1], msg[|msg| - 1];
      assert Agrees(s, before);
      UpdateAllQuiet(s, before, ttl);
      if d.mac.Some? {
        var t := UpdateAll(s, before, ttl).0;
        UpdateAnnounced(t, d.mac.value, Received(d.level, d.ip), ttl);
      }
    }
  }

  /** A snapshot that says what is known already, of every known address, is silent. */
  lemma SnapshotQuiet(s: seq<Entry>, msg: seq<NodeData>, ttl: U32)
    requires Unique(s) && ttl > BUFFER && Agrees(s, msg) && Content(s).Keys <= Meaning(msg).Keys
    ensures Snapshot(s, msg, ttl).1 == [] && Content(Snapshot(s, msg, ttl).0) == Content(s)
  {
    if msg != [] {
      var marked := Apply(Marked(), s);
      var t := UpdateAll(marked, msg, ttl).0;
      ContentApply(Marked(), s);
      UpdateAllQuiet(marked, msg, ttl);
      UpdateAllUnique(marked, msg, ttl);
      forall e | e in t ensures AboveBuffer()(e) {
        MemberFirst(t, e);
        ContentIsFirst(t, e.mac);
        UpdateAllFirst(marked, msg, ttl, e.mac);
      }
      FilterAllIn(AboveBuffer(), t);
    }
  }

  // ---- the handlers on the linked list

  /** The node's table: node_info_list, nodes_num, and the events posted since start-up.
      Valid() holds between any two handlers, so what it says of the posted events and of
      nodes_num holds on every run. */
  class NodeTable {
    const interval: U32 // CONFIG_MESH_LITE_REPORT_INTERVAL
    const ttl: U32      // time to live of a refreshed entry
    const list: List<Entry>
    var nodesNum: nat
    var posted: seq<Event>

    ghost predicate Valid()
      reads this, list, list.repr
    {
      && list.Valid()
      && ttl == interval + BUFFER
      && Unique(list.values)
      && nodesNum == |list.values|
      && Replay(map[], posted) == Content(list.values)
      && Population(posted) == nodesNum
    }

    /** What the node knows. */
    ghost function Known(): map<Mac, Info>
      reads list
    {
      Content(list.values)
    }

    /** esp_mesh_lite_init: the node starts with its own address, level 0 and no IP. */
    constructor (interval: U32, self: Mac)
      requires interval + BUFFER < 0x1_0000_0000
      ensures Valid() && fresh(list) && fresh(list.repr)
      ensures this.interval == interval && ttl == interval + 10 && Known() == map[self := Info(0, 0)]
    {
      this.interval := interval;
      ttl := interval + BUFFER;
      list := new List();
      nodesNum, posted := 0, [];
      new;
      assert list.values == [] && Known() == map[] && posted == [];
      var _ := NodeInfoUpdate(0, self, 0);
      assert Known() == map[][self := Info(0, 0)];
    }

    method NodeInfoUpdate(level: U8, mac: Mac, ip: U32) returns (ret: Ret)
      requires Valid()
      modifies this, list, list.repr
      ensures Valid() && fresh(list.repr - old(list.repr))
      ensures list.values == UpdateList(old(list.values), mac, Info(level, ip), ttl)
      ensures posted == old(posted) + UpdateEvents(old(list.values), mac, Info(level, ip))
      ensures Known() == old(Known())[mac := Info(level, ip)]
      ensures posted == old(posted) +
        if mac !in old(Known()) then [Join(mac, Info(level, ip))] else if old(Known())[mac] != Info(level, ip) then [Change(mac, Info(level, ip))] else []
      ensures ret == if Known() != old(Known()) then Ok else DuplicateAddition
    {
      ghost var was := list.values;
      ghost var before := posted;
      var info := Info(level, ip);
      var found := list.UpdateFirst(IsMac(mac), Refresh(info, ttl));
      match found {
        case Some(e) =>
          if e.info != info {
            posted := posted + [Change(mac, info)];
            ret := Ok;
          } else {
            ret := DuplicateAddition;
          }
        case None =>
          list.PushFront(Entry(mac, info, ttl));
          nodesNum := nodesNum + 1;
          posted := posted + [Join(mac, info)];
          ret := Ok;
      }
      UpdateUnique(was, mac, info, ttl);
      ContentUpdate(was, mac, info, ttl);
      UpdateAnnounced(was, mac, info, ttl);
      UpdateReplay(was, mac, info, ttl);
      ReplayConcat(map[], before, UpdateEvents(was, mac, info));
    }

    /** root_timer_cb; free says whether the mutex could be taken at once. */
    method RootTimer(level: U8, free: bool)
      requires Valid()
      modifies this, list, list.repr
      ensures Valid() && list.repr == old(list.repr)
      ensures list.values == if level <= ROOT && free then Tick(old(list.values)) else old(list.values)
      ensures posted == old(posted) + if level <= ROOT && free then Leaves(Filter(Not(Unexpired()), old(list.values))) else []
    {
      if level > ROOT || !free {
        return;
      }
      Expel(Unexpired(), Older());
    }

    /** The unlinking loop both sweeps share, posting a leave event for each victim. */
    method Expel(keep: Entry -> bool, age: Entry -> Entry)
      requires Valid()
      requires forall e :: age(e).mac == e.mac && age(e).info == e.info
      modifies this, list, list.repr
      ensures Valid() && list.repr == old(list.repr)
      ensures list.values == Apply(age, Filter(keep, old(list.values)))
      ensures posted == old(posted) + Leaves(Filter(Not(keep), old(list.values)))
    {
      ghost var was := list.values;
      ghost var before := posted;
      var removed := list.Sweep(keep, age);
      SweepFacts(keep, age, was, before);
      nodesNum := nodesNum - |removed|;
      posted := posted + Leaves(removed);
    }

    /** esp_mesh_lite_report_info: record oneself at the root, send a report elsewhere. */
    method ReportInfo(level: U8, self: Mac, ip: U32) returns (sent: Option<NodeData>)
      requires Valid()
      modifies this, list, list.repr
      ensures Valid() && fresh(list.repr - old(list.repr))
      ensures list.values == if level == ROOT then UpdateList(old(list.values), self, Info(ROOT, ip), ttl) else old(list.values)
      ensures posted == old(posted) + if level == ROOT then UpdateEvents(old(list.values), self, Info(ROOT, ip)) else []
      ensures sent == if level > ROOT then Some(NodeData(Some(self), level, ip)) else None
    {
      sent := None;
      if level == ROOT {
        var _ := NodeInfoUpdate(ROOT, self, ip);
      } else if level > ROOT {
        sent := Some(NodeData(Some(self), level, ip));
      }
    }

    /** mesh_lite_report_nodes_handler; a changed table is broadcast to the children. */
    method ReportNodesHandler(level: U8, req: Option<NodeData>) returns (ret: Ret, broadcast: Option<seq<NodeData>>)
      requires Valid()
      modifies this, list, list.repr
      ensures Valid() && fresh(list.repr - old(list.repr))
      ensures level != ROOT ==> ret == NotSupported
      ensures var accepted := level == ROOT && req.Some? && req.value.mac.Some? && req.value.level > 0 && req.value.ip > 0;
        && (accepted ==>
              && ret == Ok
              && list.values == UpdateList(old(list.values), req.value.mac.value, Received(req.value.level, req.value.ip), ttl))
        && (!accepted ==> ret != Ok && list.values == old(list.values) && posted == old(posted))
      ensures broadcast == if Known() != old(Known()) then Some(Records(list.values)) else None
    {
      ret, broadcast := Fail, None;
      if level != ROOT {
        return NotSupported, None;
      }
      if req.Some? && req.value.mac.Some? && req.value.level > 0 && req.value.ip > 0 {
        ret := NodeInfoUpdate(req.value.level % 0x100, req.value.mac.value, req.value.ip);
        if ret == Ok {
          broadcast := UpdateNodesInfoToChildren();
        } else if ret == DuplicateAddition {
          ret := Ok;
        }
      }
    }

    /** The snapshot the root broadcasts: one record per entry; nothing for an empty table. */
    method UpdateNodesInfoToChildren() returns (msg: Option<seq<NodeData>>)
      requires Valid()
      ensures msg == if list.values == [] then None else Some(Records(list.values))
    {
      msg := None;
      if nodesNum > 0 {
        var entries := list.ToSeq();
        msg := Some(Records(entries));
      }
    }

    /** mesh_lite_update_nodes_list. The mutex is released between marking, each update and
        the sweep; OtherTasks stands for whatever runs in those gaps. */
    method UpdateNodesList(level: U8, req: Option<seq<NodeData>>, self: Mac, ip: U32) returns (ret: Ret, relayed: bool)
      requires Valid()
      modifies this, list, list.repr
      ensures Valid() && fresh(list.repr - old(list.repr))
      ensures level <= ROOT <==> ret == NotSupported
      ensures ret != Fail && (relayed <==> level > ROOT)
      ensures var msg := if req.Some? && level > ROOT then req.value else [];
        && list.values == Snapshot(old(list.values), msg, ttl).0
        && posted == old(posted) + Snapshot(old(list.values), msg, ttl).1
        && (interval > 0 && msg != [] ==> Known() == Meaning(msg))
        && (msg == [] ==> list.values == old(list.values) && posted == old(posted))
    {
      ret, relayed := Ok, false;
      if level <= ROOT {
        return NotSupported, false;
      }
      if req.Some? && |req.value| > 0 {
        ret := Replace(level, req.value, self, ip);
      }
      relayed := true;
    }

    method Replace(level: U8, msg: seq<NodeData>, self: Mac, ip: U32) returns (ret: Ret)
      requires Valid() && level > ROOT && msg != []
      modifies this, list, list.repr
      ensures Valid() && fresh(list.repr - old(list.repr))
      ensures list.values == Snapshot(old(list.values), msg, ttl).0
      ensures posted == old(posted) + Snapshot(old(list.values), msg, ttl).1
      ensures interval > 0 ==> Known() == Meaning(msg)
      ensures ret.Ok? || ret.DuplicateAddition?
    {
      ghost var was := list.values;
      ghost var before := posted;
      MarkAll();
      OtherTasks(level, self, ip);
      ret := UpdateLoop(level, msg, self, ip);
      SweepMarked(before, UpdateAll(Apply(Marked(), was), msg, ttl));
      if interval > 0 {
        SnapshotMeaning(was, msg, ttl);
      }
    }

    method MarkAll()
      requires Valid()
      modifies this, list, list.repr
      ensures Valid() && list.repr == old(list.repr) && posted == old(posted)
      ensures list.values == Apply(Marked(), old(list.values))
    {
      ContentApply(Marked(), list.values);
      list.MapAll(Marked());
    }

    /** The sweep at the end of the handler. */
    method SweepMarked(ghost before: seq<Event>, ghost run: (seq<Entry>, seq<Event>))
      requires Valid()
      requires list.values == run.0 && posted == before + run.1
      modifies this, list, list.repr
      ensures Valid() && list.repr == old(list.repr)
      ensures list.values == SweepBelow(run).0 && posted == before + SweepBelow(run).1
    {
      SweepBelowIs(before, run);
      Expel(AboveBuffer(), SameEntry());
    }

    method UpdateLoop(level: U8, msg: seq<NodeData>, self: Mac, ip: U32) returns (ret: Ret)
      requires Valid() && level > ROOT
      modifies this, list, list.repr
      ensures Valid() && fresh(list.repr - old(list.repr))
      ensures list.values == UpdateAll(old(list.values), msg, ttl).0
      ensures posted == old(posted) + UpdateAll(old(list.values), msg, ttl).1
      ensures ret.Ok? || ret.DuplicateAddition?
    {
      ghost var was := list.values;
      ret := Ok;
      for n := 0 to |msg|
        invariant Valid() && fresh(list.repr - old(list.repr)) && (ret.Ok? || ret.DuplicateAddition?)
        invariant list.values == UpdateAll(was, msg[..n], ttl).0
        invariant posted == old(posted) + UpdateAll(was, msg[..n], ttl).1
      {
        UpdateAllStep(was, msg, n, ttl);
        ghost var ev := UpdateAll(was, msg[..n], ttl).1;
        ghost var more := Turn(list.values, msg[n], ttl).1;
        ret := UpdateOne(level, msg[n], self, ip, ret);
        assert (old(posted) + ev) + more == old(posted) + (ev + more);
      }
      assert msg[..|msg|] == msg;
    }

    /** One turn of the loop, and whatever runs before the next. */
    method UpdateOne(level: U8, d: NodeData, self: Mac, ip: U32, last: Ret) returns (ret: Ret)
      requires Valid() && level > ROOT
      modifies this, list, list.repr
      ensures Valid() && fresh(list.repr - old(list.repr))
      ensures list.values == Turn(old(list.values), d, ttl).0 && posted == old(posted) + Turn(old(list.values), d, ttl).1
      ensures ret == last || ret.Ok? || ret.DuplicateAddition?
    {
      ret := last;
      if d.mac.Some? {
        ret := NodeInfoUpdate(d.level % 0x100, d.mac.value, d.ip);
      }
      OtherTasks(level, self, ip);
    }

    /** The other tasks of a non-root node: timers and reports, any number of times. They
        take the mutex but leave the table alone. */
    method OtherTasks(level: U8, self: Mac, ip: U32)
      requires Valid() && level > ROOT
      modifies this, list, list.repr
      ensures Valid() && fresh(list.repr - old(list.repr))
      ensures list.values == old(list.values) && posted == old(posted)
    {
      var turns: nat := *;
      while turns > 0
        invariant Valid() && fresh(list.repr - old(list.repr))
        invariant list.values == old(list.values) && posted == old(posted)
      {
        if {
          case true => RootTimer(level, true);
          case true => RootTimer(level, false);
          case true => var _ := ReportInfo(level, self, ip);
        }
        turns := turns - 1;
      }
    }
  }

  function RecordOf(): Entry -> NodeData
  {
    (e: Entry) => NodeData(Some(e.mac), e.info.level, e.info.ip)
  }

  function Records(s: seq<Entry>): seq<NodeData>
  {
    Apply(RecordOf(), s)
  }

  function SameEntry(): Entry -> Entry
  {
    (e: Entry) => e
  }

  lemma ApplySame(s: seq<Entry>)
    ensures Apply(SameEntry(), s) == s
  {
  }

  lemma SweepBelowIs(before: seq<Event>, run: (seq<Entry>, seq<Event>))
    ensures Apply(SameEntry(), Filter(AboveBuffer(), run.0)) == SweepBelow(run).0
    ensures before + run.1 + Leaves(Filter(Not(AboveBuffer()), run.0)) == before + SweepBelow(run).1
  {
    ApplySame(Filter(AboveBuffer(), run.0));
  }

  /** A broadcast snapshot says exactly what its sender's table holds. */
  lemma {:induction false} RecordsMeaning(s: seq<Entry>)
    requires Unique(s)
    ensures Meaning(Records(s)) == Content(s)
  {
    if s != [] {
      var last := |s| - 1;
      RecordsMeaning(s[..last]);
      assert Records(s)[..last] == Records(s[..last]);
      ContentSnoc(s[..last], s[last]);
      assert s == s[..last] + [s[last]];
    }
  }

  lemma {:induction false} ContentSnoc(s: seq<Entry>, e: Entry)
    requires Unique(s + [e])
    ensures Content(s + [e]) == Content(s)[e.mac := e.info]
  {
    if s != [] {
      assert (s + [e])[1..] == s[1..] + [e];
      assert (s + [e])[0].mac != (s + [e])[|s|].mac;
      ContentSnoc(s[1..], e);
    }
  }
}
