/** The root broadcasts snapshots of its table; every other node replaces its table by each
    snapshot it handles and passes the message on to its own children, so that snapshots
    travel down a tree of any depth. Roles are fixed and the report interval is positive. */
module Replication {
  import opened Seqs
  import opened NodeTables
  import opened Words

  type Msg = seq<NodeData>

  /** Nodes are numbers, the root is 0; depth witnesses that parents form a tree. */
  datatype Tree = Tree(parent: map<nat, nat>, depth: map<nat, nat>, self: map<nat, Mac>) {
    ghost predicate Valid()
    {
      && 0 !in parent && depth.Keys == self.Keys == parent.Keys
      && forall c {:trigger parent[c]} :: c in parent ==>
           parent[c] == 0 || (parent[c] in parent && depth[parent[c]] < depth[c])
    }
  }

  /** history: the root's table at each broadcast. sent: everything ever put on the air.
      queues: what is in flight to each node on a lossless FIFO link. handled: what each
      node has processed so far. */
  datatype Net = Net(root: seq<Entry>, history: seq<seq<Entry>>, tables: map<nat, seq<Entry>>,
                     sent: set<(nat, Msg)>, queues: map<nat, seq<Msg>>, handled: map<nat, seq<Msg>>)

  /** Hear delivers any message sent earlier, so messages get lost, duplicated and
      reordered; Receive delivers the head of the node's FIFO link. */
  datatype Action = RootReport(mac: Mac, info: Info) | RootSweep | Broadcast | Hear(node: nat, msg: Msg) | Receive(node: nat)

  ghost predicate Init(t: Tree, n: Net)
  {
    && t.Valid() && n.tables.Keys == n.queues.Keys == n.handled.Keys == t.parent.Keys
    && Unique(n.root) && n.history == [] && n.sent == {}
    && forall c :: c in t.parent ==>
         n.queues[c] == [] && n.handled[c] == [] && Unique(n.tables[c]) && Content(n.tables[c]) == Own(t, c)
  }

  function Own(t: Tree, c: nat): map<Mac, Info>
    requires c in t.self
  {
    map[t.self[c] := Info(0, 0)]
  }

  function Transmit(t: Tree, n: Net, from: nat, msg: Msg): Net
  {
    n.(sent := n.sent + set c | c in t.parent && t.parent[c] == from :: (c, msg),
       queues := map c | c in n.queues :: n.queues[c] + if c in t.parent && t.parent[c] == from then [msg] else [])
  }

  /** mesh_lite_update_nodes_list on node c: replace the table, then relay. */
  function Handle(t: Tree, ttl: U32, n: Net, c: nat, msg: Msg): Net
    requires c in n.tables && c in n.handled
  {
    Transmit(t, Stored(ttl, n, c, msg), c, msg)
  }

  function Stored(ttl: U32, n: Net, c: nat, msg: Msg): Net
    requires c in n.tables && c in n.handled
  {
    n.(tables := n.tables[c := Snapshot(n.tables[c], msg, ttl).0],
       handled := n.handled[c := n.handled[c] + [msg]])
  }

  /** One action; an action that is not possible changes nothing. */
  function Step(t: Tree, ttl: U32, n: Net, a: Action): Net
  {
    match a
    case RootReport(mac, info) => n.(root := UpdateList(n.root, mac, info, ttl))
    case RootSweep => n.(root := Tick(n.root))
    case Broadcast =>
      if n.root == [] then n
      else Transmit(t, n.(history := n.history + [n.root]), 0, Records(n.root))
    case Hear(c, msg) =>
      if (c, msg) in n.sent && c in n.tables && c in n.handled then Handle(t, ttl, n, c, msg) else n
    case Receive(c) =>
      if c in n.queues && n.queues[c] != [] && c in n.tables && c in n.handled
      then Handle(t, ttl, Popped(n, c), c, n.queues[c][0])
      else n
  }

  function Run(t: Tree, ttl: U32, n: Net, acts: seq<Action>): Net
  {
    if acts == [] then n else Step(t, ttl, Run(t, ttl, n, acts[..|acts| - 1]), acts[|acts| - 1])
  }

  // ---- safety: no table ever holds anything but its own entry or an old root table

  ghost predicate IsSnapshot(history: seq<seq<Entry>>, k: int)
  {
    0 <= k < |history| && history[k] != [] && Unique(history[k])
  }

  ghost predicate FromRoot(history: seq<seq<Entry>>, msg: Msg)
  {
    exists k :: IsSnapshot(history, k) && msg == Records(history[k])
  }

  /** The table is exactly what the root's table was at some broadcast. */
  ghost predicate HoldsSnapshot(history: seq<seq<Entry>>, table: seq<Entry>)
  {
    exists k :: IsSnapshot(history, k) && Content(table) == Content(history[k])
  }

  ghost predicate Shaped(t: Tree, n: Net)
  {
    t.Valid() && n.tables.Keys == n.queues.Keys == n.handled.Keys == t.parent.Keys
  }

  /** Whatever is on the air or queued was broadcast by the root. */
  ghost predicate Authentic(n: Net)
  {
    && (forall p :: p in n.sent ==> FromRoot(n.history, p.1))
    && (forall c, m :: c in n.queues && m in n.queues[c] ==> FromRoot(n.history, m))
  }

  ghost predicate GoodTable(t: Tree, n: Net, c: nat)
    requires c in n.tables && c in t.self
  {
    Unique(n.tables[c]) && (Content(n.tables[c]) == Own(t, c) || HoldsSnapshot(n.history, n.tables[c]))
  }

  ghost predicate Safe(t: Tree, n: Net)
  {
    && Shaped(t, n) && Unique(n.root) && Authentic(n)
    && (forall k :: 0 <= k < |n.history| ==> IsSnapshot(n.history, k))
    && forall c {:trigger GoodTable(t, n, c)} :: c in t.parent ==> GoodTable(t, n, c)
  }

  lemma TransmitSafe(t: Tree, n: Net, from: nat, msg: Msg)
    requires Safe(t, n) && FromRoot(n.history, msg)
    ensures Safe(t, Transmit(t, n, from, msg))
  {
    var n' := Transmit(t, n, from, msg);
    assert Authentic(n');
    forall c | c in t.parent ensures GoodTable(t, n', c) {
      assert GoodTable(t, n, c);
    }
  }

  lemma StoreSafe(t: Tree, ttl: U32, n: Net, c: nat, msg: Msg)
    requires Safe(t, n) && ttl > BUFFER && c in n.tables && FromRoot(n.history, msg)
    ensures Safe(t, Stored(ttl, n, c, msg))
    ensures Content(Stored(ttl, n, c, msg).tables[c]) == Meaning(msg)
  {
    var k :| IsSnapshot(n.history, k) && msg == Records(n.history[k]);
    RecordsMeaning(n.history[k]);
    assert GoodTable(t, n, c);
    SnapshotMeaning(n.tables[c], msg, ttl);
    forall d | d in t.parent ensures GoodTable(t, Stored(ttl, n, c, msg), d) {
      assert GoodTable(t, n, d);
    }
  }

  lemma HandleSafe(t: Tree, ttl: U32, n: Net, c: nat, msg: Msg)
    requires Safe(t, n) && ttl > BUFFER && c in n.tables && FromRoot(n.history, msg)
    ensures Safe(t, Handle(t, ttl, n, c, msg))
  {
    StoreSafe(t, ttl, n, c, msg);
    TransmitSafe(t, Stored(ttl, n, c, msg), c, msg);
  }

  /** What came from the root still does when the history has grown. */
  lemma HistoryGrows(t: Tree, n: Net, last: seq<Entry>)
    requires Safe(t, n) && Unique(last) && last != []
    ensures Safe(t, n.(history := n.history + [last]))
  {
    var h' := n.history + [last];
    forall k | 0 <= k < |h'| ensures IsSnapshot(h', k) {
      assert k < |n.history| ==> IsSnapshot(n.history, k);
    }
    forall m | FromRoot(n.history, m) ensures FromRoot(h', m) {
      var k :| IsSnapshot(n.history, k) && m == Records(n.history[k]);
      assert IsSnapshot(h', k);
    }
    forall c | c in t.parent ensures GoodTable(t, n.(history := h'), c) {
      assert GoodTable(t, n, c);
      if HoldsSnapshot(n.history, n.tables[c]) {
        var k :| IsSnapshot(n.history, k) && Content(n.tables[c]) == Content(n.history[k]);
        assert IsSnapshot(h', k);
      }
    }
  }

  lemma RootSafe(t: Tree, n: Net, root: seq<Entry>)
    requires Safe(t, n) && Unique(root)
    ensures Safe(t, n.(root := root))
  {
    forall c | c in t.parent ensures GoodTable(t, n.(root := root), c) {
      assert GoodTable(t, n, c);
    }
  }

  lemma PopSafe(t: Tree, n: Net, c: nat)
    requires Safe(t, n) && c in n.queues && n.queues[c] != []
    ensures Safe(t, Popped(n, c)) && FromRoot(n.history, n.queues[c][0])
  {
    var n' := Popped(n, c);
    assert n.queues[c][0] in n.queues[c];
    forall d | d in t.parent ensures GoodTable(t, n', d) {
      assert GoodTable(t, n, d);
    }
  }

  lemma StepSafe(t: Tree, ttl: U32, n: Net, a: Action)
    requires Safe(t, n) && ttl > BUFFER
    ensures Safe(t, Step(t, ttl, n, a))
  {
    match a
    case RootReport(mac, info) =>
      UpdateUnique(n.root, mac, info, ttl);
      RootSafe(t, n, UpdateList(n.root, mac, info, ttl));
    case RootSweep =>
      FilterUnique(Unexpired(), n.root);
      ContentApply(Older(), Filter(Unexpired(), n.root));
      RootSafe(t, n, Tick(n.root));
    case Broadcast =>
      if n.root != [] {
        HistoryGrows(t, n, n.root);
        assert IsSnapshot(n.history + [n.root], |n.history|);
        TransmitSafe(t, n.(history := n.history + [n.root]), 0, Records(n.root));
      }
    case Hear(c, msg) =>
      if (c, msg) in n.sent && c in n.tables {
        HandleSafe(t, ttl, n, c, msg);
      }
    case Receive(c) =>
      if c in n.queues && n.queues[c] != [] {
        PopSafe(t, n, c);
        HandleSafe(t, ttl, Popped(n, c), c, n.queues[c][0]);
      }
  }

  lemma {:induction false} RunSafe(t: Tree, ttl: U32, n: Net, acts: seq<Action>)
    requires Init(t, n) && ttl > BUFFER
    ensures Safe(t, Run(t, ttl, n, acts))
  {
    if acts == [] {
      InitSafe(t, n);
    } else {
      RunSafe(t, ttl, n, acts[..|acts| - 1]);
      StepSafe(t, ttl, Run(t, ttl, n, acts[..|acts| - 1]), acts[|acts| - 1]);
    }
  }

  /** Over every run, whatever is lost, duplicated or reordered, each table is its owner's
      initial entry or exactly the root's table at an earlier broadcast. */
  lemma TablesAreSnapshots(t: Tree, ttl: U32, n: Net, acts: seq<Action>, c: nat)
    requires Init(t, n) && ttl > BUFFER && c in t.parent
    ensures var n' := Run(t, ttl, n, acts);
      && c in n'.tables && Unique(n'.tables[c])
      && (Content(n'.tables[c]) == Own(t, c) || HoldsSnapshot(n'.history, n'.tables[c]))
  {
    RunSafe(t, ttl, n, acts);
    assert GoodTable(t, Run(t, ttl, n, acts), c);
  }

  // ---- convergence on lossless FIFO links

  function SnapshotOf(): seq<Entry> -> Msg
  {
    (s: seq<Entry>) => Records(s)
  }

  function Broadcasts(history: seq<seq<Entry>>): seq<Msg>
  {
    Apply(SnapshotOf(), history)
  }

  /** What node c's parent has sent to it over the whole run. */
  function Source(t: Tree, n: Net, c: nat): seq<Msg>
    requires c in t.parent && (t.parent[c] == 0 || t.parent[c] in n.handled)
  {
    if t.parent[c] == 0 then Broadcasts(n.history) else n.handled[t.parent[c]]
  }

  /** c's link has delivered a prefix of what was sent on it; the rest is queued. */
  ghost predicate Linked(t: Tree, n: Net, c: nat)
    requires Shaped(t, n) && c in t.parent
  {
    n.handled[c] + n.queues[c] == Source(t, n, c)
  }

  /** c's table says what the last message it handled says. */
  ghost predicate UpToDate(n: Net, c: nat)
    requires c in n.handled && c in n.tables
  {
    n.handled[c] != [] ==> Content(n.tables[c]) == Meaning(n.handled[c][|n.handled[c]| - 1])
  }

  ghost predicate InOrder(t: Tree, n: Net)
  {
    Safe(t, n) && forall c {:trigger Linked(t, n, c)} {:trigger UpToDate(n, c)} :: c in t.parent ==> Linked(t, n, c) && UpToDate(n, c)
  }

  /** c's link is in order but for a message its parent `from` is about to transmit. */
  ghost predicate Owes(t: Tree, n: Net, c: nat, from: nat, msg: Msg)
    requires Shaped(t, n) && c in t.parent
  {
    n.handled[c] + n.queues[c] + (if t.parent[c] == from then [msg] else []) == Source(t, n, c)
  }

  ghost predicate AllOwe(t: Tree, n: Net, from: nat, msg: Msg)
    requires Shaped(t, n)
  {
    forall c {:trigger Owes(t, n, c, from, msg)} :: c in t.parent ==> Owes(t, n, c, from, msg) && UpToDate(n, c)
  }

  lemma TransmitAt(t: Tree, n: Net, from: nat, msg: Msg, c: nat)
    requires Shaped(t, n) && c in t.parent && Owes(t, n, c, from, msg) && UpToDate(n, c)
    ensures Linked(t, Transmit(t, n, from, msg), c) && UpToDate(Transmit(t, n, from, msg), c)
  {
    assert n.handled[c] + n.queues[c] + [msg] == n.handled[c] + (n.queues[c] + [msg]);
  }

  lemma TransmitInOrder(t: Tree, n: Net, from: nat, msg: Msg)
    requires Safe(t, n) && FromRoot(n.history, msg) && AllOwe(t, n, from, msg)
    ensures InOrder(t, Transmit(t, n, from, msg))
  {
    TransmitSafe(t, n, from, msg);
    forall c | c in t.parent ensures Linked(t, Transmit(t, n, from, msg), c) && UpToDate(Transmit(t, n, from, msg), c) {
      assert Owes(t, n, c, from, msg);
      TransmitAt(t, n, from, msg, c);
    }
  }

  function Popped(n: Net, c: nat): Net
    requires c in n.queues && n.queues[c] != []
  {
    n.(queues := n.queues[c := n.queues[c][1..]])
  }

  lemma StoreAt(t: Tree, ttl: U32, n: Net, c: nat, msg: Msg, d: nat)
    requires Shaped(t, n) && c in t.parent && d in t.parent
    requires n.queues[c] != [] && msg == n.queues[c][0] && Linked(t, n, d)
    ensures Owes(t, Stored(ttl, Popped(n, c), c, msg), d, c, msg)
  {
    var m, rest := Stored(ttl, Popped(n, c), c, msg), n.queues[c][1..];
    if d == c {
      assert n.queues[c] == [msg] + rest;
      assert n.handled[c] + n.queues[c] == n.handled[c] + [msg] + rest;
      assert t.parent[c] != c && m.handled[c] == n.handled[c] + [msg] && m.queues[c] == rest;
    } else {
      assert m.handled[d] == n.handled[d] && m.queues[d] == n.queues[d];
    }
  }

  /** c's table now says what the message said, and no other table has changed. */
  lemma StoreUpToDate(n: Net, m: Net, c: nat, msg: Msg, d: nat)
    requires c in n.handled && d in n.handled && d in n.tables && c in m.tables && UpToDate(n, d)
    requires m.handled == n.handled[c := n.handled[c] + [msg]] && m.tables.Keys == n.tables.Keys
    requires Content(m.tables[c]) == Meaning(msg) && (d != c ==> m.tables[d] == n.tables[d])
    ensures UpToDate(m, d)
  {
  }

  lemma StoreInOrder(t: Tree, ttl: U32, n: Net, c: nat, msg: Msg, m: Net)
    requires InOrder(t, n) && ttl > BUFFER && c in n.queues && n.queues[c] != []
    requires msg == n.queues[c][0] && m == Stored(ttl, Popped(n, c), c, msg)
    ensures Safe(t, m) && FromRoot(m.history, msg) && AllOwe(t, m, c, msg)
  {
    PopSafe(t, n, c);
    StoreSafe(t, ttl, Popped(n, c), c, msg);
    assert AllOwe(t, m, c, msg) by {
      forall d | d in t.parent ensures Owes(t, m, d, c, msg) && UpToDate(m, d) {
        assert Linked(t, n, d) && UpToDate(n, d);
        StoreAt(t, ttl, n, c, msg, d);
        StoreUpToDate(n, m, c, msg, d);
      }
    }
  }

  lemma ReceiveInOrder(t: Tree, ttl: U32, n: Net, c: nat)
    requires InOrder(t, n) && ttl > BUFFER && c in n.queues && n.queues[c] != []
    ensures InOrder(t, Step(t, ttl, n, Receive(c)))
  {
    var msg := n.queues[c][0];
    var m := Stored(ttl, Popped(n, c), c, msg);
    StoreInOrder(t, ttl, n, c, msg, m);
    TransmitInOrder(t, m, c, msg);
    ReceiveIs(t, ttl, n, c);
  }

  lemma ReceiveIs(t: Tree, ttl: U32, n: Net, c: nat)
    requires Shaped(t, n) && c in n.queues && n.queues[c] != []
    ensures Step(t, ttl, n, Receive(c)) == Transmit(t, Stored(ttl, Popped(n, c), c, n.queues[c][0]), c, n.queues[c][0])
  {
    var m, msg := Popped(n, c), n.queues[c][0];
    assert c in m.tables && c in m.handled;
    assert Step(t, ttl, n, Receive(c)) == Handle(t, ttl, m, c, msg);
  }

  lemma BroadcastAt(t: Tree, n: Net, d: nat)
    requires Shaped(t, n) && d in t.parent && Linked(t, n, d) && UpToDate(n, d)
    ensures var m := n.(history := n.history + [n.root]);
      Owes(t, m, d, 0, Records(n.root)) && UpToDate(m, d)
  {
  }

  lemma BroadcastInOrder(t: Tree, ttl: U32, n: Net)
    requires InOrder(t, n) && n.root != []
    ensures InOrder(t, Step(t, ttl, n, Broadcast))
  {
    var m := n.(history := n.history + [n.root]);
    HistoryGrows(t, n, n.root);
    assert IsSnapshot(m.history, |n.history|);
    forall d | d in t.parent ensures Owes(t, m, d, 0, Records(n.root)) && UpToDate(m, d) {
      assert Linked(t, n, d);
      BroadcastAt(t, n, d);
    }
    TransmitInOrder(t, m, 0, Records(n.root));
  }

  lemma InitSafe(t: Tree, n: Net)
    requires Init(t, n)
    ensures Safe(t, n)
  {
    forall c | c in t.parent ensures GoodTable(t, n, c) {
    }
  }

  lemma InitInOrder(t: Tree, n: Net)
    requires Init(t, n)
    ensures InOrder(t, n)
  {
    InitSafe(t, n);
    forall c | c in t.parent ensures Linked(t, n, c) && UpToDate(n, c) {
    }
  }

  lemma RootInOrder(t: Tree, n: Net, root: seq<Entry>)
    requires InOrder(t, n) && Unique(root)
    ensures InOrder(t, n.(root := root))
  {
    RootSafe(t, n, root);
    forall d | d in t.parent ensures Linked(t, n.(root := root), d) && UpToDate(n.(root := root), d) {
      assert Linked(t, n, d) && UpToDate(n, d);
    }
  }

  lemma StepInOrder(t: Tree, ttl: U32, n: Net, a: Action)
    requires InOrder(t, n) && ttl > BUFFER && !a.Hear?
    ensures InOrder(t, Step(t, ttl, n, a))
  {
    match a
    case Receive(c) => if c in n.queues && n.queues[c] != [] { ReceiveInOrder(t, ttl, n, c); }
    case Broadcast => if n.root != [] { BroadcastInOrder(t, ttl, n); }
    case RootReport(mac, info) =>
      UpdateUnique(n.root, mac, info, ttl);
      RootInOrder(t, n, UpdateList(n.root, mac, info, ttl));
    case RootSweep =>
      FilterUnique(Unexpired(), n.root);
      ContentApply(Older(), Filter(Unexpired(), n.root));
      RootInOrder(t, n, Tick(n.root));
  }

  lemma {:induction false} FifoRunInOrder(t: Tree, ttl: U32, n: Net, acts: seq<Action>)
    requires Init(t, n) && ttl > BUFFER && forall a :: a in acts ==> !a.Hear?
    ensures InOrder(t, Run(t, ttl, n, acts))
  {
    if acts == [] {
      InitInOrder(t, n);
    } else {
      var last := |acts| - 1;
      FifoRunInOrder(t, ttl, n, acts[..last]);
      StepInOrder(t, ttl, Run(t, ttl, n, acts[..last]), acts[last]);
    }
  }

  /** With nothing in flight every node, at whatever depth, has handled exactly the root's
      broadcasts, in order. */
  lemma {:induction false} AllHandled(t: Tree, n: Net, c: nat)
    requires InOrder(t, n) && c in t.parent && forall d :: d in n.queues ==> n.queues[d] == []
    ensures n.handled[c] == Broadcasts(n.history)
    decreases t.depth[c]
  {
    assert Linked(t, n, c);
    if t.parent[c] != 0 {
      AllHandled(t, n, t.parent[c]);
    }
  }

  /** A node that has handled all broadcasts holds the latest. */
  lemma LatestHandled(t: Tree, n: Net, c: nat)
    requires InOrder(t, n) && c in t.parent && n.handled[c] == Broadcasts(n.history) && n.history != []
    ensures Content(n.tables[c]) == Content(n.history[|n.history| - 1])
  {
    assert UpToDate(n, c);
    assert IsSnapshot(n.history, |n.history| - 1);
    RecordsMeaning(n.history[|n.history| - 1]);
  }

  /** With lossless FIFO links, once nothing is in flight and the root has broadcast at all,
      every table in the tree equals the root's table at its latest broadcast. */
  lemma Converged(t: Tree, ttl: U32, n: Net, acts: seq<Action>, c: nat)
    requires Init(t, n) && ttl > BUFFER && forall a :: a in acts ==> !a.Hear?
    requires c in t.parent && forall d :: d in Run(t, ttl, n, acts).queues ==> Run(t, ttl, n, acts).queues[d] == []
    requires Run(t, ttl, n, acts).history != []
    ensures var n' := Run(t, ttl, n, acts);
      c in n'.tables && Content(n'.tables[c]) == Content(n'.history[|n'.history| - 1])
  {
    var n' := Run(t, ttl, n, acts);
    FifoRunInOrder(t, ttl, n, acts);
    AllHandled(t, n', c);
    LatestHandled(t, n', c);
  }
}
