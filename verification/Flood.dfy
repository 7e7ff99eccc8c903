/** The group-control flood over a whole network, without resets: every accepted packet is
    forwarded to all neighbours, any node may originate, originators retransmit. The radio
    may lose, duplicate and reorder packets; agreement is shown for runs without loss. */
module Flood {
  import opened Seqs
  import opened GroupControls
  import opened Words

  /** graph[u]: the nodes that hear u. */
  type Graph = seq<set<nat>>

  ghost predicate ValidGraph(g: Graph)
  {
    forall u, v :: 0 <= u < |g| && v in g[u] ==> v < |g|
  }

  datatype Slot = Slot(packet: U32, left: nat)

  /** air: packets in flight with their addressee. accepted: per node, the sequence numbers
      it accepted and hence forwarded, in order. best: the greatest number originated. */
  datatype Net = Net(nodes: seq<State>, slots: seq<Slot>, air: multiset<(nat, U32)>,
                     accepted: seq<seq<U32>>, best: nat)

  datatype Action =
    | Send(node: nat)
    | Resend(node: nat)
    | Deliver(node: nat, packet: U32, now: Time, after: Time)
    | Lose(node: nat, packet: U32)
    | Duplicate(node: nat, packet: U32)

  ghost predicate Init(g: Graph, n: Net)
  {
    && ValidGraph(g) && |g| > 0
    && n == Net(seq(|g|, _ => START), seq(|g|, _ => Slot(0, 0)), multiset{}, seq(|g|, _ => []), 0)
  }

  function Copies(g: Graph, u: nat, packet: U32): multiset<(nat, U32)>
    requires u < |g|
  {
    multiset(Addressed(g[u], packet))
  }

  function Addressed(s: set<nat>, packet: U32): set<(nat, U32)>
  {
    set v | v in s :: (v, packet)
  }

  ghost predicate Enabled(g: Graph, n: Net, a: Action)
  {
    && |n.nodes| == |n.slots| == |n.accepted| == |g| && a.node < |g|
    && match a
       case Send(u) => true
       case Resend(u) => n.slots[u].left > 0
       case Deliver(v, p, _, _) => (v, p) in n.air
       case Lose(v, p) => (v, p) in n.air
       case Duplicate(v, p) => (v, p) in n.air
  }

  /** One action; an action that is not enabled changes nothing. */
  ghost function Step(g: Graph, n: Net, a: Action): Net
  {
    if !Enabled(g, n, a) then n
    else match a
      case Send(u) =>
        var s := Prepared(n.nodes[u], false);
        n.(nodes := n.nodes[u := s], slots := n.slots[u := Slot(s.current, MAX_RETRY)],
           air := n.air + Copies(g, u, s.current), best := if s.current > n.best then s.current else n.best)
      case Resend(u) =>
        n.(slots := n.slots[u := Slot(n.slots[u].packet, n.slots[u].left - 1)],
           air := n.air + Copies(g, u, n.slots[u].packet))
      case Deliver(v, p, now, after) =>
        var m := n.(nodes := n.nodes[v := Receive(n.nodes[v], p, now, after)], air := n.air - multiset{(v, p)});
        if Accepted(n.nodes[v], p, now) == Invalid then m
        else m.(air := m.air + Copies(g, v, p), accepted := n.accepted[v := n.accepted[v] + [p]])
      case Lose(v, p) => n.(air := n.air - multiset{(v, p)})
      case Duplicate(v, p) => n.(air := n.air + multiset{(v, p)})
  }

  ghost function Run(g: Graph, n: Net, acts: seq<Action>): Net
  {
    if acts == [] then n else Step(g, Run(g, n, acts[..|acts| - 1]), acts[|acts| - 1])
  }

  function Sends(acts: seq<Action>): nat
  {
    if acts == [] then 0 else Sends(acts[..|acts| - 1]) + if acts[|acts| - 1].Send? then 1 else 0
  }

  // ---- sequence numbers: bounds, and at most once

  ghost predicate Increasing(s: seq<U32>)
  {
    forall i, j :: 0 <= i < j < |s| ==> s[i] < s[j]
  }

  ghost predicate GoodNode(n: Net, u: nat)
    requires u < |n.nodes| == |n.slots| == |n.accepted|
  {
    && n.nodes[u].last != Reset && n.nodes[u].current <= n.best
    && n.slots[u].packet <= n.nodes[u].current && (n.slots[u].left > 0 ==> 0 < n.slots[u].packet)
    && Increasing(n.accepted[u]) && (forall p :: p in n.accepted[u] ==> p <= n.nodes[u].current)
  }

  /** No node is ahead of what was originated, nothing on the air is a reset. */
  ghost predicate Bounded(g: Graph, n: Net)
  {
    && ValidGraph(g) && |n.nodes| == |n.slots| == |n.accepted| == |g|
    && (forall u {:trigger GoodNode(n, u)} :: 0 <= u < |g| ==> GoodNode(n, u))
    && (forall c :: c in n.air ==> c.0 < |g| && 0 < c.1 <= n.best)
  }

  lemma InCopies(g: Graph, u: nat, packet: U32)
    requires u < |g|
    ensures forall c :: c in Copies(g, u, packet) <==> c.0 in g[u] && c.1 == packet
  {
  }

  /** What one action does to node u, when no reset is about and numbers do not wrap. */
  lemma StepNode(g: Graph, n: Net, a: Action, u: nat)
    requires Bounded(g, n) && u < |g| && (a.Send? ==> n.best < 0xFFFF_FFFF)
    ensures GoodNode(Step(g, n, a), u)
    ensures n.nodes[u].current <= Step(g, n, a).nodes[u].current
  {
    assert GoodNode(n, u);
    if Enabled(g, n, a) {
      assert GoodNode(n, a.node);
      if a.Deliver? && Accepted(n.nodes[u], a.packet, a.now) != Invalid {
        IncreasingSnoc(n.accepted[u], n.nodes[u].current, a.packet);
      }
    }
  }

  lemma IncreasingSnoc(s: seq<U32>, current: U32, p: U32)
    requires Increasing(s) && current < p && forall q :: q in s ==> q <= current
    ensures Increasing(s + [p]) && forall q :: q in s + [p] ==> q <= p
  {
    assert forall i :: 0 <= i < |s| ==> s[i] in s;
  }

  lemma AirBounded(g: Graph, n: Net, a: Action)
    requires Bounded(g, n) && (a.Send? ==> n.best < 0xFFFF_FFFF) && Enabled(g, n, a)
    ensures forall c :: c in Step(g, n, a).air ==> c.0 < |g| && 0 < c.1 <= Step(g, n, a).best
  {
    assert GoodNode(n, a.node);
    if a.Send? { InCopies(g, a.node, Prepared(n.nodes[a.node], false).current); }
    if a.Resend? { InCopies(g, a.node, n.slots[a.node].packet); }
    if a.Deliver? { InCopies(g, a.node, a.packet); }
  }

  lemma StepBounded(g: Graph, n: Net, a: Action)
    requires Bounded(g, n) && (a.Send? ==> n.best < 0xFFFF_FFFF)
    ensures Bounded(g, Step(g, n, a))
    ensures n.best <= Step(g, n, a).best <= n.best + if a.Send? then 1 else 0
  {
    if Enabled(g, n, a) {
      assert GoodNode(n, a.node);
      var n' := Step(g, n, a);
      forall u | 0 <= u < |g| ensures GoodNode(n', u) {
        StepNode(g, n, a, u);
      }
      AirBounded(g, n, a);
    }
  }

  lemma {:induction false} RunBounded(g: Graph, n: Net, acts: seq<Action>)
    requires Init(g, n) && Sends(acts) < 0x1_0000_0000
    ensures Bounded(g, Run(g, n, acts)) && Run(g, n, acts).best <= Sends(acts)
  {
    if acts == [] {
      forall u | 0 <= u < |g| ensures GoodNode(n, u) {
      }
    } else {
      RunBounded(g, n, acts[..|acts| - 1]);
      StepBounded(g, Run(g, n, acts[..|acts| - 1]), acts[|acts| - 1]);
    }
  }

  /** With loss, duplication and reordering: what a node accepts strictly increases, so it
      accepts, and therefore forwards, every sequence number at most once. */
  lemma AtMostOnce(g: Graph, n: Net, acts: seq<Action>, u: nat)
    requires Init(g, n) && Sends(acts) < 0x1_0000_0000 && u < |g|
    ensures var n' := Run(g, n, acts);
      && |n'.accepted| == |g| && Increasing(n'.accepted[u])
      && forall i, j :: 0 <= i < j < |n'.accepted[u]| ==> n'.accepted[u][i] != n'.accepted[u][j]
  {
    RunBounded(g, n, acts);
    assert GoodNode(Run(g, n, acts), u);
  }

  /** What u originates is new: greater than its number was, than everything it accepted and
      forwarded, and than the packet it originated before. It is on its way to every neighbour
      of u, and u will transmit it twice more. */
  lemma SendIsNew(g: Graph, n: Net, u: nat)
    requires Bounded(g, n) && n.best < 0xFFFF_FFFF && u < |g|
    ensures var n' := Step(g, n, Send(u)); var p := n'.nodes[u].current;
      && p == n.nodes[u].current + 1 && p > n.slots[u].packet
      && (forall q :: q in n.accepted[u] ==> q < p)
      && n'.slots[u] == Slot(p, 2)
      && forall v :: v in g[u] ==> n'.air[(v, p)] == n.air[(v, p)] + 1
  {
    assert GoodNode(n, u);
  }

  /** It is transmitted three times in all, and then no more. */
  lemma SentThreeTimes(g: Graph, n: Net, u: nat, v: nat)
    requires Bounded(g, n) && n.best < 0xFFFF_FFFF && u < |g| && v in g[u]
    ensures var p := Step(g, n, Send(u)).nodes[u].current;
      var n' := Step(g, Step(g, Step(g, n, Send(u)), Resend(u)), Resend(u));
      n'.air[(v, p)] == n.air[(v, p)] + 3 && Step(g, n', Resend(u)) == n'
  {
    SendIsNew(g, n, u);
    var n1 := Step(g, n, Send(u));
    var p := n1.nodes[u].current;
    assert Copies(g, u, p)[(v, p)] == 1;
  }

  /** So a neighbour that was not ahead accepts it when it arrives, and forwards it. */
  lemma NeighbourAccepts(g: Graph, n: Net, u: nat, v: nat, now: Time, after: Time)
    requires Bounded(g, n) && n.best < 0xFFFF_FFFF && u < |g| && v in g[u] && v != u
    requires v < |g| && n.nodes[v].current <= n.nodes[u].current < 0xFFFF_FFFF
    ensures var p := n.nodes[u].current + 1; var n' := Step(g, Step(g, n, Send(u)), Deliver(v, p, now, after));
      && n'.nodes[v].current == p && n'.accepted[v] == n.accepted[v] + [p]
      && forall w :: w in g[v] ==> (w, p) in n'.air
  {
    assert GoodNode(n, v);
    SendArrives(g, n, u, v);
    DeliverAccepted(g, Step(g, n, Send(u)), v, n.nodes[u].current + 1, now, after);
  }

  lemma SendArrives(g: Graph, n: Net, u: nat, v: nat)
    requires Bounded(g, n) && n.best < 0xFFFF_FFFF && u < |g| && v in g[u] && v != u && v < |g|
    ensures var n' := Step(g, n, Send(u)); var p := n.nodes[u].current + 1;
      && |n'.nodes| == |n'.slots| == |n'.accepted| == |g|
      && n'.nodes[v] == n.nodes[v] && n'.accepted[v] == n.accepted[v] && n'.air[(v, p)] > 0
  {
    SendIsNew(g, n, u);
  }

  /** A control packet with a greater number is accepted, and forwarded. */
  lemma DeliverAccepted(g: Graph, n: Net, v: nat, p: U32, now: Time, after: Time)
    requires |n.nodes| == |n.slots| == |n.accepted| == |g| && v < |g| && n.air[(v, p)] > 0
    requires n.nodes[v].last != Reset && n.nodes[v].current < p
    ensures var n' := Step(g, n, Deliver(v, p, now, after));
      && n'.nodes[v].current == p && n'.accepted[v] == n.accepted[v] + [p]
      && forall w :: w in g[v] ==> (w, p) in n'.air
  {
    InCopies(g, v, p);
  }

  // ---- agreement, without loss

  /** v has caught up with u, or a packet that will make it catch up is on its way. */
  ghost predicate Catching(n: Net, u: nat, v: nat)
    requires u < |n.nodes| && v < |n.nodes|
  {
    n.nodes[u].current <= n.nodes[v].current || (v, n.nodes[u].current) in n.air
  }

  ghost predicate Propagating(g: Graph, n: Net)
  {
    && Bounded(g, n)
    && (forall u, v {:trigger Catching(n, u, v)} :: 0 <= u < |g| && v in g[u] ==> Catching(n, u, v))
    && exists u :: 0 <= u < |g| && n.nodes[u].current == n.best
  }

  /** What u transmits reaches v. */
  lemma Reached(g: Graph, n: Net, a: Action, v: nat, packet: U32)
    requires Enabled(g, n, a) && v in g[a.node]
    requires a.Send? ==> packet == Prepared(n.nodes[a.node], false).current
    requires a.Deliver? ==> packet == a.packet && Accepted(n.nodes[a.node], packet, a.now) != Invalid
    requires a.Send? || a.Deliver?
    ensures (v, packet) in Step(g, n, a).air
  {
    InCopies(g, a.node, packet);
  }

  lemma StepCatching(g: Graph, n: Net, a: Action, u: nat, v: nat)
    requires Propagating(g, n) && (a.Send? ==> n.best < 0xFFFF_FFFF) && !a.Lose? && u < |g| && v in g[u]
    ensures var n' := Step(g, n, a); |n'.nodes| == |g| && v < |g| && Catching(n', u, v)
  {
    assert Catching(n, u, v);
    StepNode(g, n, a, u);
    StepNode(g, n, a, v);
    if Enabled(g, n, a) {
      assert GoodNode(n, a.node);
      if a.node == u && a.Send? {
        Reached(g, n, a, v, Prepared(n.nodes[u], false).current);
      } else if a.node == u && a.Deliver? && Accepted(n.nodes[u], a.packet, a.now) != Invalid {
        Reached(g, n, a, v, a.packet);
      }
    }
  }

  lemma StepPropagating(g: Graph, n: Net, a: Action)
    requires Propagating(g, n) && (a.Send? ==> n.best < 0xFFFF_FFFF) && !a.Lose?
    ensures Propagating(g, Step(g, n, a))
  {
    var n' := Step(g, n, a);
    StepBounded(g, n, a);
    forall u, v | 0 <= u < |g| && v in g[u] ensures Catching(n', u, v) {
      StepCatching(g, n, a, u, v);
    }
    var top :| 0 <= top < |g| && n.nodes[top].current == n.best;
    StepNode(g, n, a, top);
    assert GoodNode(n', top);
    if n'.best > n.best {
      assert n'.nodes[a.node].current == n'.best;
    }
  }

  lemma {:induction false} RunPropagating(g: Graph, n: Net, acts: seq<Action>)
    requires Init(g, n) && Sends(acts) < 0x1_0000_0000 && forall a :: a in acts ==> !a.Lose?
    ensures Propagating(g, Run(g, n, acts))
  {
    if acts == [] {
      RunBounded(g, n, []);
      forall u, v | 0 <= u < |g| && v in g[u] ensures Catching(n, u, v) {
      }
      assert n.nodes[0].current == n.best;
    } else {
      RunPropagating(g, n, acts[..|acts| - 1]);
      RunBounded(g, n, acts[..|acts| - 1]);
      StepPropagating(g, Run(g, n, acts[..|acts| - 1]), acts[|acts| - 1]);
    }
  }

  ghost predicate Path(g: Graph, p: seq<nat>)
  {
    && p != [] && (forall i :: 0 <= i < |p| ==> p[i] < |g|)
    && forall i :: 0 <= i < |p| - 1 ==> p[i + 1] in g[p[i]]
  }

  /** Every node can be reached from every node. */
  ghost predicate Connected(g: Graph)
  {
    forall u, v :: 0 <= u < |g| && 0 <= v < |g| ==> Reaches(g, u, v)
  }

  ghost predicate Reaches(g: Graph, u: nat, v: nat)
  {
    exists p :: Joins(g, p, u, v)
  }

  ghost predicate Joins(g: Graph, p: seq<nat>, u: nat, v: nat)
  {
    Path(g, p) && p[0] == u && p[|p| - 1] == v
  }

  lemma {:induction false} AlongPath(g: Graph, n: Net, p: seq<nat>)
    requires Propagating(g, n) && n.air == multiset{} && Path(g, p)
    ensures n.nodes[p[0]].current <= n.nodes[p[|p| - 1]].current
  {
    if |p| > 1 {
      assert Path(g, p[1..]) by {
        assert forall i :: 0 <= i < |p| - 1 ==> p[1..][i] == p[i + 1];
      }
      assert p[0 + 1] in g[p[0]];
      assert Catching(n, p[0], p[1]);
      AlongPath(g, n, p[1..]);
    }
  }

  /** On a connected graph without loss, once nothing is in flight every node's sequence
      number is the greatest one originated, whatever was duplicated or reordered. */
  lemma Agreement(g: Graph, n: Net, acts: seq<Action>, v: nat)
    requires Init(g, n) && Sends(acts) < 0x1_0000_0000 && forall a :: a in acts ==> !a.Lose?
    requires Connected(g) && v < |g| && Run(g, n, acts).air == multiset{}
    ensures |Run(g, n, acts).nodes| == |g| && Run(g, n, acts).nodes[v].current == Run(g, n, acts).best
  {
    var n' := Run(g, n, acts);
    RunPropagating(g, n, acts);
    var top :| 0 <= top < |g| && n'.nodes[top].current == n'.best;
    assert Reaches(g, top, v);
    var p :| Joins(g, p, top, v);
    AlongPath(g, n', p);
    assert GoodNode(n', v);
  }

  /** Since u originated p, v has accepted it or still holds the number before it. */
  ghost predicate HeardOnce(g: Graph, was: Net, n: Net, u: nat, p: nat, v: nat)
  {
    && v < |g| == |n.nodes| == |n.accepted| == |was.accepted|
    && (n.nodes[v].current == p || (v != u && n.nodes[v].current == p - 1))
    && n.accepted[v] == was.accepted[v] + if v != u && n.nodes[v].current == p then [n.nodes[v].current] else []
  }

  lemma StepHeardOnce(g: Graph, was: Net, n: Net, a: Action, u: nat, p: nat, v: nat)
    requires Bounded(g, n) && n.best == p && !a.Send? && HeardOnce(g, was, n, u, p, v)
    ensures HeardOnce(g, was, Step(g, n, a), u, p, v)
  {
    assert GoodNode(n, v);
  }

  lemma RunSnoc(g: Graph, n: Net, acts: seq<Action>, a: Action)
    ensures Run(g, n, acts + [a]) == Step(g, Run(g, n, acts), a)
    ensures Sends(acts + [a]) == Sends(acts) + if a.Send? then 1 else 0
  {
    assert (acts + [a])[..|acts|] == acts;
  }

  ghost predicate Agreed(g: Graph, n: Net)
  {
    |n.nodes| == |g| && forall w :: 0 <= w < |g| ==> n.nodes[w].current == n.best
  }

  lemma SendHeardOnce(g: Graph, n: Net, u: nat, v: nat)
    requires Bounded(g, n) && Agreed(g, n) && n.best < 0xFFFF_FFFF && u < |g| && v < |g|
    ensures Step(g, n, Send(u)).best == n.best + 1 && HeardOnce(g, n, Step(g, n, Send(u)), u, n.best + 1, v)
  {
    SendIsNew(g, n, u);
  }

  /** From a state in which all agree: the origination, and then anything but another one. */
  lemma {:induction false} RunHeardOnce(g: Graph, n: Net, u: nat, more: seq<Action>, v: nat)
    requires Bounded(g, n) && Agreed(g, n) && n.best < 0xFFFF_FFFF && u < |g| && v < |g|
    requires forall a :: a in more ==> !a.Send?
    ensures var n' := Run(g, Step(g, n, Send(u)), more);
      Bounded(g, n') && n'.best == n.best + 1 && HeardOnce(g, n, n', u, n.best + 1, v)
    decreases |more|
  {
    if more == [] {
      SendHeardOnce(g, n, u, v);
      StepBounded(g, n, Send(u));
    } else {
      var less, a := more[..|more| - 1], more[|more| - 1];
      RunHeardOnce(g, n, u, less, v);
      var m := Run(g, Step(g, n, Send(u)), less);
      assert a in more;
      StepBounded(g, m, a);
      StepHeardOnce(g, n, m, a, u, n.best + 1, v);
    }
  }

  lemma {:induction false} RunConcat(g: Graph, n: Net, acts: seq<Action>, more: seq<Action>)
    ensures Run(g, n, acts + more) == Run(g, Run(g, n, acts), more)
    ensures (forall a :: a in more ==> !a.Send?) ==> Sends(acts + more) == Sends(acts)
    decreases |more|
  {
    if more == [] {
      assert acts + more == acts;
    } else {
      var less, a := more[..|more| - 1], more[|more| - 1];
      RunConcat(g, n, acts, less);
      assert a in more && (acts + more)[..|acts + more| - 1] == acts + less;
    }
  }

  /** What the flood is for: once all agree and nothing is in flight, a packet that any node
      originates is accepted by every other node exactly once, whatever is duplicated or
      reordered until nothing is in flight again. */
  lemma EverybodyOnce(g: Graph, n: Net, acts: seq<Action>, u: nat, more: seq<Action>, v: nat)
    requires Init(g, n) && Connected(g) && u < |g| && v < |g| && Sends(acts) < 0xFFFF_FFFF
    requires Run(g, n, acts).air == multiset{} && Run(g, n, acts + [Send(u)] + more).air == multiset{}
    requires (forall a :: a in acts ==> !a.Lose?) && forall a :: a in more ==> !a.Lose? && !a.Send?
    ensures var was, n' := Run(g, n, acts), Run(g, n, acts + [Send(u)] + more);
      && |was.accepted| == |n'.accepted| == |g|
      && n'.accepted[v] == was.accepted[v] + if v == u then [] else [was.best + 1]
  {
    var was, sent := Run(g, n, acts), acts + [Send(u)];
    RunBounded(g, n, acts);
    forall w | 0 <= w < |g| ensures |was.nodes| == |g| && was.nodes[w].current == was.best {
      Agreement(g, n, acts, w);
    }
    RunSnoc(g, n, acts, Send(u));
    RunConcat(g, n, sent, more);
    RunHeardOnce(g, was, u, more, v);
    Agreement(g, n, sent + more, v);
  }

  // ---- termination

  /** How far the nodes are, together, from accepting everything up to best. */
  function Gap(nodes: seq<State>, best: nat): int
  {
    if nodes == [] then 0 else Gap(nodes[1..], best) + best - nodes[0].current
  }

  function Left(slots: seq<Slot>): nat
  {
    if slots == [] then 0 else slots[0].left + Left(slots[1..])
  }

  lemma {:induction false} GapUpdate(nodes: seq<State>, u: nat, s: State, best: nat)
    requires u < |nodes|
    ensures Gap(nodes[u := s], best) == Gap(nodes, best) + nodes[u].current - s.current
  {
    if u == 0 {
      assert nodes[0 := s][1..] == nodes[1..];
    } else {
      assert nodes[u := s][1..] == nodes[1..][u - 1 := s];
      GapUpdate(nodes[1..], u - 1, s, best);
    }
  }

  lemma {:induction false} LeftUpdate(slots: seq<Slot>, u: nat, s: Slot)
    requires u < |slots|
    ensures Left(slots[u := s]) == Left(slots) - slots[u].left + s.left
  {
    if u == 0 {
      assert slots[0 := s][1..] == slots[1..];
    } else {
      assert slots[u := s][1..] == slots[1..][u - 1 := s];
      LeftUpdate(slots[1..], u - 1, s);
    }
  }

  lemma {:induction false} GapNonnegative(nodes: seq<State>, best: nat)
    requires forall u :: 0 <= u < |nodes| ==> nodes[u].current <= best
    ensures Gap(nodes, best) >= 0
  {
    if nodes != [] {
      GapNonnegative(nodes[1..], best);
    }
  }

  lemma {:induction false} AtMost(s: set<nat>, k: nat)
    requires forall v :: v in s ==> v < k
    ensures |s| <= k
  {
    if k == 0 {
      assert s == {};
    } else {
      AtMost(s - {k - 1}, k - 1);
      assert s <= (s - {k - 1}) + {k - 1};
    }
  }

  lemma {:induction false} AddressedCount(s: set<nat>, packet: U32)
    ensures |Addressed(s, packet)| == |s|
  {
    if s != {} {
      var x :| x in s;
      AddressedCount(s - {x}, packet);
      assert Addressed(s, packet) - {(x, packet)} == Addressed(s - {x}, packet);
      assert (x, packet) in Addressed(s, packet);
    }
  }

  lemma CopiesCount(g: Graph, u: nat, packet: U32)
    requires ValidGraph(g) && u < |g|
    ensures |Copies(g, u, packet)| <= |g|
  {
    AddressedCount(g[u], packet);
    AtMost(g[u], |g|);
  }

  /** Copies in flight, plus what the acceptances and retransmissions still to come can add. */
  function Fuel(g: Graph, n: Net): int
  {
    |n.air| + (|g| + 1) * Gap(n.nodes, n.best) + (|g| + 1) * Left(n.slots)
  }

  predicate Consumes(a: Action)
  {
    a.Deliver? || a.Lose? || a.Resend?
  }

  lemma Distribute(k: int, x: int, y: int)
    ensures k * (x - y) == k * x - k * y
    ensures k >= 0 && y >= 0 ==> k * y >= 0
    ensures k >= 0 && y >= 1 ==> k * y >= k
  {
  }

  lemma ResendFuel(g: Graph, n: Net, a: Action)
    requires Bounded(g, n) && Enabled(g, n, a) && a.Resend?
    ensures Fuel(g, Step(g, n, a)) <= Fuel(g, n) - 1
  {
    var u, n' := a.node, Step(g, n, a);
    CopiesCount(g, u, n.slots[u].packet);
    LeftUpdate(n.slots, u, n'.slots[u]);
    Distribute(|g| + 1, Left(n.slots), 1);
  }

  lemma DeliverFuel(g: Graph, n: Net, a: Action)
    requires Bounded(g, n) && Enabled(g, n, a) && a.Deliver?
    ensures Fuel(g, Step(g, n, a)) <= Fuel(g, n) - 1
  {
    var v, n' := a.node, Step(g, n, a);
    assert GoodNode(n, v);
    CopiesCount(g, v, a.packet);
    GapUpdate(n.nodes, v, n'.nodes[v], n.best);
    Distribute(|g| + 1, Gap(n.nodes, n.best), n'.nodes[v].current - n.nodes[v].current);
    var rest := n.air - multiset{(v, a.packet)};
    assert |rest| == |n.air| - 1;
    if Accepted(n.nodes[v], a.packet, a.now) == Invalid {
      assert n'.air == rest && n'.nodes[v] == n.nodes[v];
    } else {
      assert n'.air == rest + Copies(g, v, a.packet);
      assert |n'.air| <= |rest| + |g|;
    }
  }

  lemma StepFuel(g: Graph, n: Net, a: Action)
    requires Bounded(g, n) && Enabled(g, n, a) && !a.Send?
    ensures Fuel(g, Step(g, n, a)) <= Fuel(g, n) + if a.Duplicate? then 1 else if Consumes(a) then -1 else 0
  {
    match a
    case Resend(_) => ResendFuel(g, n, a);
    case Deliver(_, _, _, _) => DeliverFuel(g, n, a);
    case Lose(_, _) =>
    case Duplicate(_, _) =>
  }

  lemma FuelNonnegative(g: Graph, n: Net)
    requires Bounded(g, n)
    ensures Fuel(g, n) >= 0
  {
    forall u | 0 <= u < |g| ensures n.nodes[u].current <= n.best {
      assert GoodNode(n, u);
    }
    GapNonnegative(n.nodes, n.best);
    Distribute(|g| + 1, 0, Gap(n.nodes, n.best));
    Distribute(|g| + 1, 0, Left(n.slots));
  }

  /** How many actions of acts were enabled when their turn came and delivered, lost or
      retransmitted a packet. */
  ghost function Consumed(g: Graph, n: Net, acts: seq<Action>): nat
  {
    if acts == [] then 0
    else
      var (m, a) := (Run(g, n, acts[..|acts| - 1]), acts[|acts| - 1]);
      Consumed(g, n, acts[..|acts| - 1]) + if Enabled(g, m, a) && Consumes(a) then 1 else 0
  }

  /** How many of them duplicated a packet. */
  ghost function Duplicated(g: Graph, n: Net, acts: seq<Action>): nat
  {
    if acts == [] then 0
    else
      var (m, a) := (Run(g, n, acts[..|acts| - 1]), acts[|acts| - 1]);
      Duplicated(g, n, acts[..|acts| - 1]) + if Enabled(g, m, a) && a.Duplicate? then 1 else 0
  }

  /** Once nobody originates any more the flood dies out: from any state n that a run
      reaches, packets are delivered, lost and retransmitted at most Fuel(n) times, plus once
      per duplication. */
  lemma {:induction false} Terminates(g: Graph, n: Net, acts: seq<Action>)
    requires Bounded(g, n) && forall a :: a in acts ==> !a.Send?
    ensures Bounded(g, Run(g, n, acts)) && Run(g, n, acts).best == n.best
    ensures Fuel(g, Run(g, n, acts)) >= 0
    ensures Consumed(g, n, acts) + Fuel(g, Run(g, n, acts)) <= Fuel(g, n) + Duplicated(g, n, acts)
  {
    if acts != [] {
      var last := |acts| - 1;
      var m := Run(g, n, acts[..last]);
      assert acts[last] in acts;
      Terminates(g, n, acts[..last]);
      StepBounded(g, m, acts[last]);
      if Enabled(g, m, acts[last]) {
        StepFuel(g, m, acts[last]);
      }
    }
    FuelNonnegative(g, Run(g, n, acts));
  }
}
