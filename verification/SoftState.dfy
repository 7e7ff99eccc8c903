/** At the root the node table is a soft-state registry: reports refresh entries, the
    one-second timer ages and evicts them. Counting completed sweeps as time, it is a map
    from addresses to (what was last reported, when), of which exactly the entries not older
    than the time to live are in the list. */
module SoftState {
  import opened Seqs
  import opened NodeTables
  import opened Words

  /** What can happen to the root's table: an accepted report, or a sweep that got the mutex. */
  datatype Op = Report(mac: Mac, info: Info) | Sweep

  function Run(ops: seq<Op>, ttl: U32): seq<Entry>
  {
    if ops == [] then []
    else
      var t := Run(ops[..|ops| - 1], ttl);
      match ops[|ops| - 1]
      case Report(mac, info) => UpdateList(t, mac, info, ttl)
      case Sweep => Tick(t)
  }

  function Sweeps(ops: seq<Op>): nat
  {
    if ops == [] then 0 else Sweeps(ops[..|ops| - 1]) + if ops[|ops| - 1].Sweep? then 1 else 0
  }

  predicate Reports(op: Op, mac: Mac)
  {
    op.Report? && op.mac == mac
  }

  /** ops[i] is the last report of mac. */
  ghost predicate LastReport(ops: seq<Op>, i: int, mac: Mac)
  {
    0 <= i < |ops| && Reports(ops[i], mac) && forall j :: i < j < |ops| ==> !Reports(ops[j], mac)
  }

  lemma {:induction false} FirstApply(f: Entry -> Entry, s: seq<Entry>, mac: Mac)
    requires forall e :: f(e).mac == e.mac
    ensures First(Apply(f, s), mac) == if First(s, mac) == None then None else Some(f(First(s, mac).value))
  {
    if s != [] {
      FirstCons(s, mac);
      FirstCons(Apply(f, s), mac);
      FirstApply(f, s[1..], mac);
    }
  }

  lemma FirstTick(s: seq<Entry>, mac: Mac)
    requires Unique(s)
    ensures Unique(Tick(s))
    ensures First(Tick(s), mac) ==
            match First(s, mac)
            case None => None
            case Some(e) => if e.ttl == 0 then None else Some(e.(ttl := e.ttl - 1))
  {
    FilterUnique(Unexpired(), s);
    ContentApply(Older(), Filter(Unexpired(), s));
    FirstFiltered(Unexpired(), s, mac);
    FirstApply(Older(), Filter(Unexpired(), s), mac);
  }

  lemma {:induction false} RunUnique(ops: seq<Op>, ttl: U32)
    ensures Unique(Run(ops, ttl))
  {
    if ops != [] {
      var t := Run(ops[..|ops| - 1], ttl);
      RunUnique(ops[..|ops| - 1], ttl);
      match ops[|ops| - 1]
      case Report(mac, info) => UpdateUnique(t, mac, info, ttl);
      case Sweep => FirstTick(t, 0);
    }
  }

  lemma {:induction false} Unreported(ops: seq<Op>, ttl: U32, mac: Mac)
    requires forall j :: 0 <= j < |ops| ==> !Reports(ops[j], mac)
    ensures First(Run(ops, ttl), mac) == None
  {
    if ops != [] {
      var t := Run(ops[..|ops| - 1], ttl);
      Unreported(ops[..|ops| - 1], ttl, mac);
      match ops[|ops| - 1]
      case Report(m, info) => FirstUpdate(t, m, info, ttl, mac);
      case Sweep => RunUnique(ops[..|ops| - 1], ttl); FirstTick(t, mac);
    }
  }

  lemma SweepsSince(ops: seq<Op>, from: nat)
    requires from < |ops|
    ensures Sweeps(ops[from..]) == Sweeps(ops[..|ops| - 1][from..]) + if ops[|ops| - 1].Sweep? then 1 else 0
  {
    assert ops[from..][..|ops| - from - 1] == ops[..|ops| - 1][from..];
  }

  /** The entry of a node `age` sweeps after its report. */
  function Aged(mac: Mac, info: Info, ttl: U32, age: nat): Option<Entry>
  {
    if age <= ttl then Some(Entry(mac, info, ttl - age)) else None
  }

  lemma OtherReport(t: seq<Entry>, m: Mac, info: Info, ttl: U32, mac: Mac)
    requires m != mac
    ensures First(UpdateList(t, m, info, ttl), mac) == First(t, mac)
  {
    FirstUpdate(t, m, info, ttl, mac);
  }

  lemma OneSweep(t: seq<Entry>, mac: Mac, info: Info, ttl: U32, age: nat)
    requires Unique(t) && First(t, mac) == Aged(mac, info, ttl, age)
    ensures First(Tick(t), mac) == Aged(mac, info, ttl, age + 1)
  {
    FirstTick(t, mac);
  }

  /** The entry of a reported node says what the last report said; it has lost one unit of
      its time to live per sweep since, and is gone after more sweeps than that. */
  lemma {:induction false} Reported(ops: seq<Op>, ttl: U32, mac: Mac, i: nat)
    requires LastReport(ops, i, mac)
    ensures First(Run(ops, ttl), mac) == Aged(mac, ops[i].info, ttl, Sweeps(ops[i + 1..]))
  {
    var last := |ops| - 1;
    var before := ops[..last];
    if i == last {
      FirstUpdate(Run(before, ttl), mac, ops[i].info, ttl, mac);
    } else {
      Reported(before, ttl, mac, i);
      SweepsSince(ops, i + 1);
      match ops[last]
      case Report(m, info) => OtherReport(Run(before, ttl), m, info, ttl, mac);
      case Sweep =>
        RunUnique(before, ttl);
        OneSweep(Run(before, ttl), mac, ops[i].info, ttl, Sweeps(before[i + 1..]));
    }
  }

  /** The refinement: over every interleaving of reports and sweeps the table is the map of
      the nodes whose last report is at most ttl sweeps old, no address twice. */
  lemma SoftStateMap(ops: seq<Op>, ttl: U32, mac: Mac, info: Info)
    ensures Unique(Run(ops, ttl))
    ensures var m := Content(Run(ops, ttl));
      (mac in m && m[mac] == info) <==>
      exists i :: LastReport(ops, i, mac) && ops[i].info == info && Sweeps(ops[i + 1..]) <= ttl
  {
    RunUnique(ops, ttl);
    ContentIsFirst(Run(ops, ttl), mac);
    if i :| LastReport(ops, i, mac) {
      Reported(ops, ttl, mac, i);
      assert forall j :: LastReport(ops, j, mac) ==> j == i;
    } else {
      NoLastReport(ops, mac);
      Unreported(ops, ttl, mac);
    }
  }

  lemma {:induction false} NoLastReport(ops: seq<Op>, mac: Mac)
    requires !exists i :: LastReport(ops, i, mac)
    ensures forall j :: 0 <= j < |ops| ==> !Reports(ops[j], mac)
  {
    if ops != [] {
      var last := |ops| - 1;
      assert !LastReport(ops, last, mac);
      forall i ensures !LastReport(ops[..last], i, mac) {
        assert LastReport(ops[..last], i, mac) ==> LastReport(ops, i, mac);
      }
      NoLastReport(ops[..last], mac);
    }
  }

  /** Between a and b more than ttl sweeps pass without a report of mac. */
  ghost predicate Gap(ops: seq<Op>, ttl: U32, mac: Mac, a: int, b: int)
  {
    0 <= a <= b <= |ops| && Sweeps(ops[a..b]) > ttl && forall j :: a <= j < b ==> !Reports(ops[j], mac)
  }

  /** A node whose reports never leave more than ttl sweeps between them, from report i on,
      is in the table at every later moment. */
  lemma NeverEvicted(ops: seq<Op>, ttl: U32, mac: Mac, i: nat, n: nat)
    requires i < n <= |ops| && Reports(ops[i], mac)
    requires forall a, b {:trigger Gap(ops, ttl, mac, a, b)} :: i < a ==> !Gap(ops, ttl, mac, a, b)
    ensures mac in Content(Run(ops[..n], ttl))
  {
    var prefix := ops[..n];
    assert Reports(prefix[i], mac);
    if k :| LastReport(prefix, k, mac) {
      assert prefix[k + 1..] == ops[k + 1..n];
      assert !Gap(ops, ttl, mac, k + 1, n);
      Reported(prefix, ttl, mac, k);
      ContentIsFirst(Run(prefix, ttl), mac);
    } else {
      NoLastReport(prefix, mac);
    }
  }
}
