/** The Wi-Fi scan of the provisioning manager (manager.c): up to 14 arrays of records, one per
    channel, allocated and freed as the channels are scanned, and the ranking of pointers into
    them. */
module WifiScans {
  import opened Seqs
  import opened ScanRanking

  const CHANNELS: nat := 14

  // ---- what the scan is, seen from outside

  /** What the Wi-Fi driver answers while a scan-done event is handled. */
  datatype Outcome =
    | CountFailed
    | Counted(count: nat, room: bool, fetched: Option<seq<Ap>>)

  datatype Op =
    | Start(group: nat, started: bool)
    | Done(outcome: Outcome, restarted: bool)
    | Halt

  datatype Scan = Scan(shown: seq<Ap>, scanning: bool, group: nat, channel: nat)

  /** The driver fetches at most as many records as there is room for. */
  ghost predicate Possible(k: nat, o: Outcome)
  {
    o.Counted? && o.fetched.Some? ==> |o.fetched.value| <= Min(o.count, k)
  }

  /** And it lists them strongest first; only the order of the ranking rests on that. */
  ghost predicate StrongestFirst(o: Outcome)
  {
    o.Counted? && o.fetched.Some? ==> Sorted(o.fetched.value)
  }

  /** The records an outcome adds to the ranking. */
  function Recorded(o: Outcome): Option<seq<Ap>>
  {
    if o.Counted? && o.count > 0 && o.room then o.fetched else None
  }

  predicate Succeeded(o: Outcome)
  {
    o.Counted? && (o.count == 0 || Recorded(o).Some?)
  }

  function Next(k: nat, s: Scan, op: Op): (t: Scan)
    requires op.Done? ==> Possible(k, op.outcome)
  {
    match op
    case Start(group, started) =>
      if s.scanning then s
      else Scan([], started, group, if !started then s.channel else if group > 0 then 1 else 0)
    case Done(outcome, restarted) =>
      if !s.scanning then s
      else
        var shown := if Recorded(outcome).Some? then Absorb(k, s.shown, Recorded(outcome).value) else s.shown;
        if s.group == 0 then s.(shown := shown, scanning := false)
        else
          var channel := (s.channel + 1) % CHANNELS;
          s.(shown := shown, channel := channel, scanning := Succeeded(outcome) && channel != 0 && restarted)
    case Halt => s.(shown := [], scanning := false)
  }

  ghost predicate AllPossible(k: nat, ops: seq<Op>)
  {
    forall i :: 0 <= i < |ops| && ops[i].Done? ==> Possible(k, ops[i].outcome)
  }

  ghost function Run(k: nat, s: Scan, ops: seq<Op>): Scan
    requires AllPossible(k, ops)
    decreases |ops|
  {
    if ops == [] then s
    else
      assert AllPossible(k, ops[..|ops| - 1]);
      Next(k, Run(k, s, ops[..|ops| - 1]), ops[|ops| - 1])
  }

  const IDLE := Scan([], false, 0, 0)

  function Dones(ops: seq<Op>): nat
  {
    if ops == [] then 0 else Dones(ops[..|ops| - 1]) + if ops[|ops| - 1].Done? then 1 else 0
  }

  /** A scan under way: a channel above 0 exactly when channels are scanned one by one. */
  predicate Proper(s: Scan)
  {
    s.channel < CHANNELS && (s.scanning ==> (s.group > 0 <==> s.channel > 0))
  }

  lemma {:induction false} RunProper(k: nat, ops: seq<Op>)
    requires AllPossible(k, ops)
    ensures Proper(Run(k, IDLE, ops))
    decreases |ops|
  {
    if ops != [] {
      RunProper(k, ops[..|ops| - 1]);
    }
  }

  /** At every point of every run the ranking holds at most K records. */
  lemma {:induction false} RunFits(k: nat, ops: seq<Op>)
    requires AllPossible(k, ops)
    ensures |Run(k, IDLE, ops).shown| <= k
    decreases |ops|
  {
    if ops != [] {
      RunFits(k, ops[..|ops| - 1]);
    }
  }

  /** And it is sorted, if every answer of the driver was. */
  lemma {:induction false} RunSorted(k: nat, ops: seq<Op>)
    requires AllPossible(k, ops) && forall i :: 0 <= i < |ops| && ops[i].Done? ==> StrongestFirst(ops[i].outcome)
    ensures Sorted(Run(k, IDLE, ops).shown)
    decreases |ops|
  {
    if ops != [] {
      var s, op := Run(k, IDLE, ops[..|ops| - 1]), ops[|ops| - 1];
      RunSorted(k, ops[..|ops| - 1]);
      if op.Done? && Recorded(op.outcome).Some? {
        var aps := Recorded(op.outcome).value;
        SortedPrefix(s.shown, Min(|s.shown|, k - |aps|));
        MergeApsSorted(s.shown[..Min(|s.shown|, k - |aps|)], aps);
      }
    }
  }

  ghost predicate ScanningAt(k: nat, s: Scan, ops: seq<Op>, i: int)
  {
    0 <= i <= |ops| ==> AllPossible(k, ops[..i]) && Run(k, s, ops[..i]).scanning
  }

  /** The scan runs from s through the whole of ops. */
  ghost predicate KeepsScanning(k: nat, s: Scan, ops: seq<Op>)
  {
    forall i {:trigger ScanningAt(k, s, ops, i)} :: ScanningAt(k, s, ops, i)
  }

  lemma StillScanning(k: nat, s: Scan, ops: seq<Op>)
    requires ops != [] && KeepsScanning(k, s, ops)
    ensures KeepsScanning(k, s, ops[..|ops| - 1])
  {
    var before := ops[..|ops| - 1];
    forall i ensures ScanningAt(k, s, before, i) {
      assert ScanningAt(k, s, ops, i);
      assert 0 <= i <= |before| ==> before[..i] == ops[..i];
    }
  }

  /** A step of a scan that goes on takes it one channel on, or leaves it where it is. */
  lemma StepScans(k: nat, s: Scan, op: Op)
    requires (op.Done? ==> Possible(k, op.outcome)) && Proper(s) && s.scanning && Next(k, s, op).scanning
    ensures Proper(Next(k, s, op)) && Next(k, s, op).group == s.group
    ensures Next(k, s, op).channel == s.channel + if op.Done? then 1 else 0
    ensures s.group == 0 ==> !op.Done?
  {
  }

  /** While a scan keeps running, each handled scan-done event moves it one channel on: a
      grouped scan ends after at most 13 of them, a scan of all channels after one. */
  lemma {:induction false} ScanEnds(k: nat, s: Scan, ops: seq<Op>)
    requires AllPossible(k, ops) && Proper(s) && KeepsScanning(k, s, ops)
    ensures s.group > 0 ==> s.channel + Dones(ops) == Run(k, s, ops).channel <= 13
    ensures s.group == 0 ==> Dones(ops) == 0
    ensures Run(k, s, ops).group == s.group && Proper(Run(k, s, ops))
    decreases |ops|
  {
    if ops != [] {
      var before := ops[..|ops| - 1];
      StillScanning(k, s, ops);
      ScanEnds(k, s, before);
      assert ScanningAt(k, s, ops, |before|) && ScanningAt(k, s, ops, |ops|) && ops[..|ops|] == ops;
      StepScans(k, Run(k, s, before), ops[|ops| - 1]);
    }
  }

  /** The driver's answer reached the scan: the count was read, and so were the records if there
      were any. */
  predicate Good(op: Op)
  {
    op.Done? && op.outcome.Counted? && (op.outcome.count == 0 || (op.outcome.room && op.outcome.fetched.Some?))
  }

  /** The records of one good answer. */
  function Fetched(op: Op): seq<Ap>
    requires Good(op)
  {
    if op.outcome.count == 0 then [] else op.outcome.fetched.value
  }

  predicate AllGood(ops: seq<Op>)
  {
    forall i :: 0 <= i < |ops| ==> Good(ops[i]) && ops[i].restarted
  }

  /** Everything the answers of ops said, taken in one after the other. */
  function Gathered(k: nat, ops: seq<Op>): (r: seq<Ap>)
    requires AllPossible(k, ops) && AllGood(ops)
    ensures |r| <= k
    decreases |ops|
  {
    if ops == [] then [] else Absorb(k, Gathered(k, ops[..|ops| - 1]), Fetched(ops[|ops| - 1]))
  }

  /** The records of all answers, one list behind the other. */
  function Reported(ops: seq<Op>): seq<Ap>
    requires AllGood(ops)
    decreases |ops|
  {
    if ops == [] then [] else Reported(ops[..|ops| - 1]) + Fetched(ops[|ops| - 1])
  }

  /** As long as they all fit, no record is lost and none is repeated. */
  lemma {:induction false} NothingLost(k: nat, ops: seq<Op>)
    requires AllPossible(k, ops) && AllGood(ops) && |Reported(ops)| <= k
    ensures multiset(Gathered(k, ops)) == multiset(Reported(ops))
    decreases |ops|
  {
    if ops != [] {
      var before, last := ops[..|ops| - 1], ops[|ops| - 1];
      NothingLost(k, before);
      var was := Gathered(k, before);
      assert |was| == |multiset(was)| == |multiset(Reported(before))|;
      assert was[..Min(|was|, k - |Fetched(last)|)] == was;
      MergeApsKeeps(was, Fetched(last));
    }
  }

  /** An event of a scan that runs: a good answer is taken in, any other changes nothing that is
      shown; a grouped scan goes on to the next channel iff the answer was good, this was not
      channel 13 and the driver starts again; a scan of all channels is over. */
  lemma EventHandled(k: nat, s: Scan, op: Op)
    requires op.Done? && Possible(k, op.outcome) && Proper(s) && s.scanning && |s.shown| <= k
    ensures var t := Next(k, s, op);
      && t.shown == (if Good(op) then Absorb(k, s.shown, Fetched(op)) else s.shown)
      && (t.scanning <==> s.group > 0 && Good(op) && s.channel < 13 && op.restarted)
      && t.group == s.group && (t.scanning ==> t.channel == s.channel + 1)
  {
    assert s.shown[..|s.shown|] == s.shown;
  }

  /** A grouped scan from its start: it asks for channels 1 to 13, one for each good answer, and
      then ends; what it shows is what the answers said, and no earlier scan's. */
  lemma {:induction false} ScanCarriesOn(k: nat, s: Scan, group: nat, ops: seq<Op>)
    requires AllPossible(k, ops) && AllGood(ops) && !s.scanning && s.channel < CHANNELS && group > 0
    ensures var t := Run(k, Next(k, s, Start(group, true)), ops);
      && (t.scanning <==> |ops| < 13) && (t.scanning ==> t.channel == 1 + |ops|)
      && t.shown == Gathered(k, ops[..Min(|ops|, 13)])
      && t.group == group && Proper(t)
    decreases |ops|
  {
    if ops == [] {
      assert ops[..0] == ops;
    } else {
      var n := |ops| - 1;
      ScanCarriesOn(k, s, group, ops[..n]);
      var t := Run(k, Next(k, s, Start(group, true)), ops[..n]);
      assert ops[..n][..Min(n, 13)] == ops[..Min(n, 13)];
      assert n < 13 ==> ops[..n + 1] == ops;
      if t.scanning {
        EventHandled(k, t, ops[n]);
      }
    }
  }

  /** A scan of all channels at once is over with its first answer, and shows that answer. */
  lemma ScanAtOnce(k: nat, s: Scan, op: Op)
    requires op.Done? && Possible(k, op.outcome) && !s.scanning && s.channel < CHANNELS
    ensures var began := Next(k, s, Start(0, true)); var t := Next(k, began, op);
      && began.scanning && began.channel == 0 && !t.scanning
      && multiset(t.shown) == (if Good(op) then multiset(Fetched(op)) else multiset{})
  {
    EventHandled(k, Next(k, s, Start(0, true)), op);
    if Good(op) {
      MergeApsKeeps([], Fetched(op));
    }
  }

  ghost predicate Quiet(ops: seq<Op>)
  {
    forall i :: 0 <= i < |ops| ==> !(ops[i].Start? && ops[i].started)
  }

  /** After a stop nothing is shown, and whatever the driver still reports, until a start that
      the driver accepts. */
  lemma {:induction false} StoppedStays(k: nat, s: Scan, ops: seq<Op>)
    requires AllPossible(k, ops) && Quiet(ops)
    ensures !Run(k, Next(k, s, Halt), ops).scanning && Run(k, Next(k, s, Halt), ops).shown == []
    decreases |ops|
  {
    if ops != [] {
      StoppedStays(k, s, ops[..|ops| - 1]);
    }
  }

  // ---- the arrays

  /** Every allocated array belongs to one channel, and every channel's array is allocated. */
  ghost predicate Owned(lists: seq<Option<nat>>, heap: Heap, owner: map<nat, nat>, next: nat)
  {
    && |lists| == CHANNELS && heap.Keys == owner.Keys
    && (forall b {:trigger OwnedBy(lists, owner, next, b)} :: OwnedBy(lists, owner, next, b))
    && (forall c :: 0 <= c < CHANNELS ==> Held(lists[c], owner, c))
  }

  ghost predicate OwnedBy(lists: seq<Option<nat>>, owner: map<nat, nat>, next: nat, b: nat)
  {
    b in owner ==> b < next && owner[b] < |lists| && lists[owner[b]] == Some(b)
  }

  ghost predicate Held(list: Option<nat>, owner: map<nat, nat>, c: nat)
  {
    list.Some? ==> list.value in owner && owner[list.value] == c
  }

  /** p points to a live record of the array of a channel below `limit`, within its length. */
  ghost predicate Grounded(lens: seq<nat>, heap: Heap, owner: map<nat, nat>, limit: nat, p: Ptr)
  {
    && Live(heap, p) && p.block in owner
    && owner[p.block] < limit && owner[p.block] < |lens| && p.index < lens[owner[p.block]]
  }

  ghost predicate AllGrounded(lens: seq<nat>, heap: Heap, owner: map<nat, nat>, limit: nat, ranking: seq<Ptr>)
  {
    forall i :: 0 <= i < |ranking| ==> Grounded(lens, heap, owner, limit, ranking[i])
  }

  lemma FreeKeeps(lists: seq<Option<nat>>, lens: seq<nat>, heap: Heap, owner: map<nat, nat>, next: nat,
                  ranking: seq<Ptr>, c: nat)
    requires Owned(lists, heap, owner, next) && |lens| == CHANNELS && c < CHANNELS && lists[c].Some?
    requires AllGrounded(lens, heap, owner, c, ranking)
    ensures Owned(lists[c := None], heap - {lists[c].value}, owner - {lists[c].value}, next)
    ensures AllGrounded(lens[c := 0], heap - {lists[c].value}, owner - {lists[c].value}, c, ranking)
    ensures View(heap - {lists[c].value}, ranking) == View(heap, ranking)
  {
    var block := lists[c].value;
    var lists', owner' := lists[c := None], owner - {block};
    assert Held(lists[c], owner, c);
    forall b ensures OwnedBy(lists', owner', next, b) {
      assert OwnedBy(lists, owner, next, b);
    }
    forall d | 0 <= d < CHANNELS ensures Held(lists'[d], owner', d) {
      assert Held(lists[d], owner, d);
    }
    forall i | 0 <= i < |ranking|
      ensures Grounded(lens[c := 0], heap - {block}, owner - {block}, c, ranking[i])
      ensures Look(heap - {block}, ranking[i]) == Look(heap, ranking[i])
    {
      assert Grounded(lens, heap, owner, c, ranking[i]);
    }
  }

  lemma AllocateKeeps(lists: seq<Option<nat>>, lens: seq<nat>, heap: Heap, owner: map<nat, nat>, next: nat,
                      ranking: seq<Ptr>, c: nat, content: seq<Ap>)
    requires Owned(lists, heap, owner, next) && |lens| == CHANNELS && c < CHANNELS && lists[c].None?
    requires AllGrounded(lens, heap, owner, c, ranking)
    ensures Owned(lists[c := Some(next)], heap[next := content], owner[next := c], next + 1)
    ensures AllGrounded(lens, heap[next := content], owner[next := c], c, ranking)
    ensures View(heap[next := content], ranking) == View(heap, ranking)
    ensures next !in heap
  {
    var lists', owner', next' := lists[c := Some(next)], owner[next := c], next + 1;
    assert OwnedBy(lists, owner, next, next);
    forall b ensures OwnedBy(lists', owner', next', b) {
      assert OwnedBy(lists, owner, next, b);
    }
    forall d | 0 <= d < CHANNELS ensures Held(lists'[d], owner', d) {
      assert Held(lists[d], owner, d);
    }
    forall i | 0 <= i < |ranking|
      ensures Grounded(lens, heap[next := content], owner[next := c], c, ranking[i])
      ensures Look(heap[next := content], ranking[i]) == Look(heap, ranking[i])
    {
      assert Grounded(lens, heap, owner, c, ranking[i]);
    }
  }

  lemma Widen(lens: seq<nat>, heap: Heap, owner: map<nat, nat>, limit: nat, ranking: seq<Ptr>)
    requires limit <= CHANNELS && AllGrounded(lens, heap, owner, limit, ranking)
    ensures AllGrounded(lens, heap, owner, CHANNELS, ranking)
  {
    forall i | 0 <= i < |ranking| ensures Grounded(lens, heap, owner, CHANNELS, ranking[i]) {
      assert Grounded(lens, heap, owner, limit, ranking[i]);
    }
  }

  /** The ranking after the merge points into the channels scanned so far, this one included. */
  lemma MergeKeeps(lens: seq<nat>, heap: Heap, owner: map<nat, nat>, ranking: seq<Ptr>, c: nat, block: nat, n: nat, k: nat)
    requires |lens| == CHANNELS && c < CHANNELS && AllGrounded(lens, heap, owner, c, ranking)
    requires block in heap && block in owner && owner[block] == c && n <= |heap[block]| && n <= k
    ensures AllGrounded(lens[c := n], heap, owner, c + 1, Merged(heap, ranking, block, n, k))
  {
    var keep, r := ranking[..Min(|ranking|, k - n)], Merged(heap, ranking, block, n, k);
    forall i | 0 <= i < |r| ensures Grounded(lens[c := n], heap, owner, c + 1, r[i]) {
      MergeMembers(heap, keep, Pointers(block, n), r[i]);
      if r[i] in keep {
        var j :| 0 <= j < |keep| && keep[j] == r[i];
        assert Grounded(lens, heap, owner, c, ranking[j]);
      }
    }
  }

  /** When no channel holds an array, none is allocated. */
  lemma NoneLeft(lists: seq<Option<nat>>, heap: Heap, owner: map<nat, nat>, next: nat)
    requires Owned(lists, heap, owner, next) && forall c :: 0 <= c < CHANNELS ==> lists[c] == None
    ensures heap == map[] && owner == map[]
  {
    forall b ensures b !in owner {
      assert OwnedBy(lists, owner, next, b);
    }
    assert owner.Keys == {};
  }

  /** What a freshly allocated array of `room` records holds once `aps` were fetched into it. */
  function Filled(aps: seq<Ap>, room: nat): (r: seq<Ap>)
    requires |aps| <= room
    ensures |r| == room && r[..|aps|] == aps
  {
    aps + seq(room - |aps|, i => BLANK)
  }

  /** The part of prov_ctx that the scan works on. */
  class Scanner {
    const apList: array<Option<nat>>
    const apListLen: array<nat>
    const sorted: array<Option<Ptr>>
    var heap: Heap
    var nextBlock: nat
    var scanning: bool
    var group: nat
    var channel: nat
    ghost var owner: map<nat, nat>
    ghost var ranking: seq<Ptr>

    /** The ranking is packed into the array, and each of its entries points to a live record
        of a channel below `limit`. */
    ghost predicate ValidBelow(limit: nat)
      reads this, apList, apListLen, sorted
    {
      && apList.Length == CHANNELS && apListLen.Length == CHANNELS
      && |ranking| <= sorted.Length && sorted[..] == Pad(ranking, sorted.Length)
      && Owned(apList[..], heap, owner, nextBlock)
      && AllGrounded(apListLen[..], heap, owner, limit, ranking)
      && Proper(State())
    }

    /** While a scan is under way only the channels it has handled are in the ranking. */
    ghost predicate Valid()
      reads this, apList, apListLen, sorted
    {
      ValidBelow(if scanning then channel else CHANNELS)
    }

    ghost function State(): Scan
      reads this
    {
      Scan(View(heap, ranking), scanning, group, channel)
    }

    constructor (entries: nat)
      ensures Valid() && State() == IDLE && sorted.Length == entries && heap == map[]
      ensures fresh(apList) && fresh(apListLen) && fresh(sorted)
    {
      apList := new Option<nat>[CHANNELS](_ => None);
      apListLen := new nat[CHANNELS](_ => 0);
      sorted := new Option<Ptr>[entries](_ => None);
      heap, nextBlock, owner, ranking := map[], 0, map[], [];
      scanning, group, channel := false, 0, 0;
    }

    method ClearSorted()
      modifies sorted
      ensures sorted[..] == Pad([], sorted.Length)
    {
      var i := 0;
      while i < sorted.Length
        invariant 0 <= i <= sorted.Length
        invariant forall j :: 0 <= j < i ==> sorted[j] == None
      {
        sorted[i] := None;
        i := i + 1;
      }
    }

    method ScanStart(groupChannels: nat, started: bool) returns (ok: bool)
      requires Valid()
      modifies `scanning, `group, `channel, `ranking, sorted
      ensures Valid() && State() == Next(sorted.Length, old(State()), Start(groupChannels, started))
      ensures ok == (old(scanning) || started)
    {
      if scanning {
        return true;
      }
      ClearSorted();
      ranking := [];
      group := groupChannels;
      var first := if group > 0 then 1 else 0;
      if !started {
        return false;
      }
      scanning := true;
      channel := first;
      return true;
    }

    /** Frees the array of the current channel, which no ranked entry points into. */
    method FreeCurrent()
      requires scanning && Valid()
      modifies apList, apListLen, `heap, `owner
      ensures Valid() && State() == old(State()) && apList[channel] == None
    {
      if apList[channel].Some? {
        FreeKeeps(apList[..], apListLen[..], heap, owner, nextBlock, ranking, channel);
        var block := apList[channel].value;
        heap, owner := heap - {block}, owner - {block};
        apList[channel] := None;
        apListLen[channel] := 0;
      }
    }

    method Allocate(content: seq<Ap>) returns (block: nat)
      requires scanning && Valid() && apList[channel] == None
      modifies apList, `heap, `owner, `nextBlock
      ensures Valid() && State() == old(State())
      ensures block in heap && heap[block] == content && block in owner && owner[block] == channel
      ensures block !in old(heap)
    {
      AllocateKeeps(apList[..], apListLen[..], heap, owner, nextBlock, ranking, channel, content);
      block := nextBlock;
      heap, owner, nextBlock := heap[block := content], owner[block := channel], nextBlock + 1;
      apList[channel] := Some(block);
    }

    method Store(block: nat, n: nat)
      requires scanning && Valid() && n <= sorted.Length
      requires block in heap && n <= |heap[block]| && block in owner && owner[block] == channel
      modifies apListLen, sorted, `ranking
      ensures ValidBelow(channel + 1)
      ensures State() == old(State()).(shown := Absorb(sorted.Length, old(State().shown), heap[block][..n]))
    {
      MergeKeeps(apListLen[..], heap, owner, ranking, channel, block, n, sorted.Length);
      MergedView(heap, ranking, block, n, sorted.Length);
      apListLen[channel] := n;
      MergeInPlace(sorted, heap, block, n, ranking);
      ranking := Merged(heap, ranking, block, n, sorted.Length);
    }

    /** Takes the driver's answer for the current channel into its array and the ranking. */
    method Fetch(outcome: Outcome) returns (ok: bool)
      requires scanning && Valid() && apList[channel] == None && Possible(sorted.Length, outcome)
      modifies apList, apListLen, sorted, `heap, `owner, `nextBlock, `ranking
      ensures ValidBelow(channel + 1) && ok == Succeeded(outcome)
      ensures State() == old(State()).(shown :=
        if Recorded(outcome).Some? then Absorb(sorted.Length, old(State().shown), Recorded(outcome).value)
        else old(State().shown))
    {
      if outcome.CountFailed? || (outcome.count > 0 && !outcome.room) {
        return false;
      }
      if outcome.count == 0 {
        return true;
      }
      var capacity := Min(outcome.count, sorted.Length);
      if outcome.fetched.None? {
        var _ := Allocate(Filled([], capacity));
        return false;
      }
      var aps := outcome.fetched.value;
      var block := Allocate(Filled(aps, capacity));
      Store(block, |aps|);
      return true;
    }

    /** On to the next channel, unless there is none or something went wrong. */
    method Advance(ok: bool, restarted: bool)
      requires scanning && channel < CHANNELS && ValidBelow(channel + 1)
      modifies `scanning, `channel
      ensures Valid()
      ensures State() == if group == 0 then old(State()).(scanning := false)
        else var next := (old(channel) + 1) % CHANNELS;
          old(State()).(channel := next, scanning := ok && next != 0 && restarted)
    {
      Widen(apListLen[..], heap, owner, channel + 1, ranking);
      if group == 0 {
        scanning := false;
        return;
      }
      channel := (channel + 1) % CHANNELS;
      if !ok || channel == 0 || !restarted {
        scanning := false;
      }
    }

    /** The scan-done event: the current channel's array is replaced, the ranking updated, and
        the scan goes on with the next channel or ends. */
    method ScanDone(outcome: Outcome, restarted: bool)
      requires Valid() && Possible(sorted.Length, outcome)
      modifies apList, apListLen, sorted, `heap, `owner, `nextBlock, `ranking, `scanning, `channel
      ensures Valid() && State() == Next(sorted.Length, old(State()), Done(outcome, restarted))
    {
      if !scanning {
        return;
      }
      FreeCurrent();
      var ok := Fetch(outcome);
      Advance(ok, restarted);
    }

    /** Stopping frees every array, and with them every pointer into them. */
    method Stop()
      requires Valid()
      modifies apList, sorted, `heap, `owner, `ranking, `scanning
      ensures Valid() && State() == Next(sorted.Length, old(State()), Halt)
      ensures heap == map[] && forall c :: 0 <= c < CHANNELS ==> apList[c] == None
    {
      var c := 0;
      while c < CHANNELS
        invariant 0 <= c <= CHANNELS
        invariant Owned(apList[..], heap, owner, nextBlock)
        invariant forall d :: 0 <= d < c ==> apList[d] == None
      {
        if apList[c].Some? {
          FreeKeeps(apList[..], apListLen[..], heap, owner, nextBlock, [], c);
          heap, owner := heap - {apList[c].value}, owner - {apList[c].value};
          apList[c] := None;
        }
        c := c + 1;
      }
      NoneLeft(apList[..], heap, owner, nextBlock);
      scanning := false;
      ClearSorted();
      ranking := [];
    }

    method ResultCount() returns (count: nat)
      requires Valid()
      ensures count == |State().shown|
    {
      count := 0;
      while count < sorted.Length && sorted[count].Some?
        invariant 0 <= count <= |ranking|
      {
        count := count + 1;
      }
    }

    /** The result a client gets for an index is the record shown there, never a freed one. */
    function Result(index: nat): (record: Option<Ap>)
      requires Valid()
      reads this, apList, apListLen, sorted
      ensures record == if index < |State().shown| then Some(State().shown[index]) else None
    {
      if index < sorted.Length && sorted[index].Some? then
        var p := sorted[index].value;
        assert Grounded(apListLen[..], heap, owner, if scanning then channel else CHANNELS, ranking[index]);
        Some(heap[p.block][p.index])
      else None
    }
  }
}
