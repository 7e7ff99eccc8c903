/** The provisioning manager's Wi-Fi scan (manager.c): one array of access-point records per
    channel, and a ranking of pointers into those arrays that is updated in place, by a merge
    that runs backwards over it. */
module ScanRanking {
  import opened Seqs

  /** An access-point record; rssi is all the ranking looks at. */
  datatype Ap = Ap(ssid: string, bssid: string, channel: nat, rssi: int, auth: nat)

  const BLANK := Ap("", "", 0, 0, 0)

  /** A pointer to record `index` of the allocated array `block`. */
  datatype Ptr = Ptr(block: nat, index: nat)

  /** The allocated arrays; a block that is not in the map has been freed. */
  type Heap = map<nat, seq<Ap>>

  predicate Live(heap: Heap, p: Ptr)
  {
    p.block in heap && p.index < |heap[p.block]|
  }

  function Look(heap: Heap, p: Ptr): Ap
  {
    if Live(heap, p) then heap[p.block][p.index] else BLANK
  }

  function Rssi(heap: Heap, p: Ptr): int
  {
    Look(heap, p).rssi
  }

  function Pointers(block: nat, n: nat): (r: seq<Ptr>)
    ensures |r| == n && forall i :: 0 <= i < n ==> r[i] == Ptr(block, i)
  {
    seq(n, i requires 0 <= i < n => Ptr(block, i))
  }

  // ---- the merge, as a function of both lists, built from the back

  function Merge(heap: Heap, was: seq<Ptr>, recent: seq<Ptr>): (r: seq<Ptr>)
    ensures |r| == |was| + |recent|
    decreases |was| + |recent|
  {
    if recent == [] then was
    else if was == [] then recent
    else
      var o, n := was[|was| - 1], recent[|recent| - 1];
      if Rssi(heap, o) > Rssi(heap, n)
      then Merge(heap, was, recent[..|recent| - 1]) + [n]
      else Merge(heap, was[..|was| - 1], recent) + [o]
  }

  ghost predicate Falls(heap: Heap, s: seq<Ptr>, i: int, j: int)
  {
    0 <= i < j < |s| ==> Rssi(heap, s[i]) >= Rssi(heap, s[j])
  }

  ghost predicate Descending(heap: Heap, s: seq<Ptr>)
  {
    forall i, j {:trigger Falls(heap, s, i, j)} :: Falls(heap, s, i, j)
  }

  lemma LastIsWeakest(heap: Heap, s: seq<Ptr>, p: Ptr)
    requires Descending(heap, s) && p in s
    ensures Rssi(heap, p) >= Rssi(heap, s[|s| - 1])
  {
    var i :| 0 <= i < |s| && s[i] == p;
    assert Falls(heap, s, i, |s| - 1);
  }

  lemma DescendingPrefix(heap: Heap, s: seq<Ptr>, n: nat)
    requires Descending(heap, s) && n <= |s|
    ensures Descending(heap, s[..n])
  {
    forall i, j ensures Falls(heap, s[..n], i, j) {
      assert Falls(heap, s, i, j);
    }
  }

  function InBlock(block: nat): Ptr -> bool
  {
    (p: Ptr) => p.block == block
  }

  ghost predicate TieNewFirst(heap: Heap, block: nat, s: seq<Ptr>, i: int, j: int)
  {
    0 <= i < j < |s| && Rssi(heap, s[i]) == Rssi(heap, s[j]) && s[j].block == block ==> s[i].block == block
  }

  /** Among equally strong records the ones of the new block come first. */
  ghost predicate NewFirst(heap: Heap, block: nat, s: seq<Ptr>)
  {
    forall i, j {:trigger TieNewFirst(heap, block, s, i, j)} :: TieNewFirst(heap, block, s, i, j)
  }

  /** r ranks the records of `was` and the new ones: strongest first, new before old on ties,
      and both lists in their own order. */
  ghost predicate IsRanking(heap: Heap, block: nat, was: seq<Ptr>, recent: seq<Ptr>, r: seq<Ptr>)
  {
    && Descending(heap, r) && NewFirst(heap, block, r)
    && Filter(InBlock(block), r) == recent && Filter(Not(InBlock(block)), r) == was
  }

  lemma {:induction false} MergeMembers(heap: Heap, was: seq<Ptr>, recent: seq<Ptr>, p: Ptr)
    ensures p in Merge(heap, was, recent) <==> p in was || p in recent
    decreases |was| + |recent|
  {
    if recent != [] && was != [] {
      var o, n := was[|was| - 1], recent[|recent| - 1];
      if Rssi(heap, o) > Rssi(heap, n) {
        assert recent == recent[..|recent| - 1] + [n];
        MergeMembers(heap, was, recent[..|recent| - 1], p);
      } else {
        assert was == was[..|was| - 1] + [o];
        MergeMembers(heap, was[..|was| - 1], recent, p);
      }
    }
  }

  /** x may follow the last record of s: no record of s is weaker, and none that is as strong
      is older. */
  ghost predicate MayEnd(heap: Heap, block: nat, s: seq<Ptr>, x: Ptr)
  {
    s != [] ==> var last := s[|s| - 1];
      Rssi(heap, last) >= Rssi(heap, x)
      && (x.block == block && Rssi(heap, last) == Rssi(heap, x) ==> last.block == block)
  }

  lemma MergeMayEnd(heap: Heap, block: nat, was: seq<Ptr>, recent: seq<Ptr>, x: Ptr)
    requires MayEnd(heap, block, was, x) && MayEnd(heap, block, recent, x)
    ensures MayEnd(heap, block, Merge(heap, was, recent), x)
  {
  }

  lemma DescendingSnoc(heap: Heap, block: nat, s: seq<Ptr>, x: Ptr)
    requires Descending(heap, s) && NewFirst(heap, block, s) && MayEnd(heap, block, s, x)
    ensures Descending(heap, s + [x]) && NewFirst(heap, block, s + [x])
  {
    forall i, j ensures Falls(heap, s + [x], i, j) && TieNewFirst(heap, block, s + [x], i, j) {
      assert Falls(heap, s, i, j) && TieNewFirst(heap, block, s, i, j);
      assert Falls(heap, s, i, |s| - 1) && TieNewFirst(heap, block, s, i, |s| - 1);
    }
  }

  ghost predicate Older(block: nat, s: seq<Ptr>)
  {
    forall p :: p in s ==> p.block != block
  }

  ghost predicate Newer(block: nat, s: seq<Ptr>)
  {
    forall p :: p in s ==> p.block == block
  }

  lemma {:induction false} MergeDescends(heap: Heap, block: nat, was: seq<Ptr>, recent: seq<Ptr>)
    requires Descending(heap, was) && Descending(heap, recent) && Older(block, was) && Newer(block, recent)
    ensures Descending(heap, Merge(heap, was, recent)) && NewFirst(heap, block, Merge(heap, was, recent))
    decreases |was| + |recent|
  {
    if recent != [] && was != [] {
      var o, n := was[|was| - 1], recent[|recent| - 1];
      if Rssi(heap, o) > Rssi(heap, n) {
        var before := recent[..|recent| - 1];
        DescendingPrefix(heap, recent, |recent| - 1);
        MergeDescends(heap, block, was, before);
        assert Falls(heap, recent, |before| - 1, |before|);
        MergeMayEnd(heap, block, was, before, n);
        DescendingSnoc(heap, block, Merge(heap, was, before), n);
      } else {
        var before := was[..|was| - 1];
        DescendingPrefix(heap, was, |was| - 1);
        MergeDescends(heap, block, before, recent);
        assert Falls(heap, was, |before| - 1, |before|);
        MergeMayEnd(heap, block, before, recent, o);
        DescendingSnoc(heap, block, Merge(heap, before, recent), o);
      }
    }
  }

  lemma FilterSnoc<T>(keep: T -> bool, s: seq<T>, x: T)
    ensures Filter(keep, s + [x]) == if keep(x) then Filter(keep, s) + [x] else Filter(keep, s)
  {
    FilterConcat(keep, s, [x]);
  }

  lemma {:induction false} MergeSplits(heap: Heap, block: nat, was: seq<Ptr>, recent: seq<Ptr>)
    requires Older(block, was) && Newer(block, recent)
    ensures Filter(InBlock(block), Merge(heap, was, recent)) == recent
    ensures Filter(Not(InBlock(block)), Merge(heap, was, recent)) == was
    decreases |was| + |recent|
  {
    if recent == [] {
      FilterAll(Not(InBlock(block)), was);
      FilterNone(InBlock(block), was);
    } else if was == [] {
      FilterAll(InBlock(block), recent);
      FilterNone(Not(InBlock(block)), recent);
    } else {
      var o, n := was[|was| - 1], recent[|recent| - 1];
      var old', new' := was[..|was| - 1], recent[..|recent| - 1];
      assert was == old' + [o] && recent == new' + [n];
      if Rssi(heap, o) > Rssi(heap, n) {
        MergeSplits(heap, block, was, new');
        FilterSnoc(InBlock(block), Merge(heap, was, new'), n);
        FilterSnoc(Not(InBlock(block)), Merge(heap, was, new'), n);
      } else {
        MergeSplits(heap, block, old', recent);
        FilterSnoc(InBlock(block), Merge(heap, old', recent), o);
        FilterSnoc(Not(InBlock(block)), Merge(heap, old', recent), o);
      }
    }
  }

  /** The merge of two descending lists is such a ranking. */
  lemma MergeRanks(heap: Heap, block: nat, was: seq<Ptr>, recent: seq<Ptr>)
    requires Descending(heap, was) && Descending(heap, recent)
    requires Older(block, was) && Newer(block, recent)
    ensures IsRanking(heap, block, was, recent, Merge(heap, was, recent))
  {
    MergeDescends(heap, block, was, recent);
    MergeSplits(heap, block, was, recent);
  }

  lemma {:induction false} FilterAll<T>(keep: T -> bool, s: seq<T>)
    requires forall x :: x in s ==> keep(x)
    ensures Filter(keep, s) == s
  {
    if s != [] {
      FilterAll(keep, s[1..]);
    }
  }

  lemma {:induction false} FilterNone<T>(keep: T -> bool, s: seq<T>)
    requires forall x :: x in s ==> !keep(x)
    ensures Filter(keep, s) == []
  {
    if s != [] {
      FilterNone(keep, s[1..]);
    }
  }

  /** There is only one such ranking: the merge is determined by what it promises. */
  lemma {:induction false} RankingUnique(heap: Heap, block: nat, was: seq<Ptr>, recent: seq<Ptr>, r: seq<Ptr>)
    requires IsRanking(heap, block, was, recent, r)
    ensures r == Merge(heap, was, recent)
    decreases |r|
  {
    if r != [] {
      var before, x := r[..|r| - 1], r[|r| - 1];
      LastOfRanking(heap, block, was, recent, r);
      if x.block == block {
        RankingUnique(heap, block, was, recent[..|recent| - 1], before);
      } else {
        RankingUnique(heap, block, was[..|was| - 1], recent, before);
      }
      assert r == before + [x];
    }
  }

  /** The last record of a ranking is the one the merge puts last, and the rest ranks the
      rest. */
  lemma LastOfRanking(heap: Heap, block: nat, was: seq<Ptr>, recent: seq<Ptr>, r: seq<Ptr>)
    requires IsRanking(heap, block, was, recent, r) && r != []
    ensures var before, x := r[..|r| - 1], r[|r| - 1];
      if x.block == block
      then recent != [] && x == recent[|recent| - 1] && IsRanking(heap, block, was, recent[..|recent| - 1], before)
           && (was != [] ==> Rssi(heap, was[|was| - 1]) > Rssi(heap, x))
      else was != [] && x == was[|was| - 1] && IsRanking(heap, block, was[..|was| - 1], recent, before)
           && (recent != [] ==> Rssi(heap, x) <= Rssi(heap, recent[|recent| - 1]))
  {
    var before, x := r[..|r| - 1], r[|r| - 1];
    assert r == before + [x];
    DescendingPrefix(heap, r, |r| - 1);
    forall i, j ensures TieNewFirst(heap, block, before, i, j) {
      assert TieNewFirst(heap, block, r, i, j);
    }
    FilterConcat(InBlock(block), before, [x]);
    FilterConcat(Not(InBlock(block)), before, [x]);
    if x.block == block {
      assert recent == Filter(InBlock(block), before) + [x] && was == Filter(Not(InBlock(block)), before);
      if was != [] {
        var o := was[|was| - 1];
        FilterMembers(Not(InBlock(block)), before, o);
        var i :| 0 <= i < |before| && before[i] == o;
        assert Falls(heap, r, i, |r| - 1) && TieNewFirst(heap, block, r, i, |r| - 1) && r[i] == o;
      }
    } else {
      assert was == Filter(Not(InBlock(block)), before) + [x] && recent == Filter(InBlock(block), before);
      if recent != [] {
        var n := recent[|recent| - 1];
        FilterMembers(InBlock(block), before, n);
        assert n in r;
        LastIsWeakest(heap, r, n);
      }
    }
  }

  // ---- the merge on the array

  /** A ranking as the array holds it: packed at the front, NULL behind. */
  function Pad(r: seq<Ptr>, k: nat): (cells: seq<Option<Ptr>>)
    ensures |cells| == k
    ensures forall i :: 0 <= i < k ==> cells[i] == if i < |r| then Some(r[i]) else None
  {
    seq(k, i requires 0 <= i < k => if i < |r| then Some(r[i]) else None)
  }

  function Min(a: int, b: int): int
  {
    if a < b then a else b
  }

  /** The ranking after n records of a new block have been merged in: room is made by
      dropping the weakest old entries. */
  function Merged(heap: Heap, was: seq<Ptr>, block: nat, n: nat, k: nat): (r: seq<Ptr>)
    requires n <= k
    ensures |r| == Min(|was| + n, k)
  {
    Merge(heap, was[..Min(|was|, k - n)], Pointers(block, n))
  }

  /** The merge in progress: the first a old and the first b new records are still to be
      placed, everything behind them is. */
  ghost predicate Placed(heap: Heap, was: seq<Ptr>, recent: seq<Ptr>, r: seq<Ptr>, a: nat, b: nat)
  {
    && a <= |was| && b <= |recent| && a + b <= |r|
    && r == Merge(heap, was[..a], recent[..b]) + r[a + b..]
  }

  lemma PlaceNext(heap: Heap, was: seq<Ptr>, recent: seq<Ptr>, r: seq<Ptr>, a: nat, b: nat)
    requires Placed(heap, was, recent, r, a, b) && a > 0 && b > 0
    ensures if Rssi(heap, was[a - 1]) > Rssi(heap, recent[b - 1])
            then r[a + b - 1] == recent[b - 1] && Placed(heap, was, recent, r, a, b - 1)
            else r[a + b - 1] == was[a - 1] && Placed(heap, was, recent, r, a - 1, b)
  {
    assert was[..a][..a - 1] == was[..a - 1] && recent[..b][..b - 1] == recent[..b - 1];
    var m := Merge(heap, was[..a], recent[..b]);
    var last := m[a + b - 1];
    assert r[a + b - 1..] == [last] + r[a + b..];
  }

  lemma PlacedAll(heap: Heap, was: seq<Ptr>, recent: seq<Ptr>, r: seq<Ptr>, a: nat, b: nat)
    requires Placed(heap, was, recent, r, a, b) && (a == 0 || b == 0)
    ensures forall i :: 0 <= i < a + b ==> r[i] == if b == 0 then was[i] else recent[i]
  {
  }

  function Cell(r: seq<Ptr>, j: int): Option<Ptr>
  {
    if 0 <= j < |r| then Some(r[j]) else None
  }

  /** Cells lo..hi hold what the ranking s puts there. */
  ghost predicate Holds(cells: array<Option<Ptr>>, s: seq<Ptr>, lo: int, hi: int)
    reads cells
  {
    forall j :: 0 <= j < cells.Length && lo <= j < hi ==> cells[j] == Cell(s, j)
  }

  method Place(cells: array<Option<Ptr>>, at: nat, p: Option<Ptr>, ghost was: seq<Ptr>, ghost upTo: nat, ghost r: seq<Ptr>)
    requires upTo <= at < cells.Length && p == Cell(r, at)
    requires Holds(cells, was, 0, upTo) && Holds(cells, r, at + 1, cells.Length)
    modifies cells
    ensures Holds(cells, was, 0, upTo) && Holds(cells, r, at, cells.Length)
  {
    cells[at] := p;
  }

  /** One turn of the backward pass at an old entry: the weaker of it and the last new
      record still to be placed goes to its final cell. */
  method PlaceWeaker(cells: array<Option<Ptr>>, heap: Heap, block: nat, ghost n: nat, spot: nat, rc: nat,
                     ghost was: seq<Ptr>, ghost keep: seq<Ptr>, ghost r: seq<Ptr>)
    returns (fromNew: bool)
    requires block in heap && 0 < rc <= n <= |heap[block]| && spot < |keep| <= |was| && keep[spot] == was[spot]
    requires Live(heap, was[spot]) && spot + rc < cells.Length && cells[spot] == Some(was[spot])
    requires Placed(heap, keep, Pointers(block, n), r, spot + 1, rc)
    requires Holds(cells, was, 0, spot + 1) && Holds(cells, r, spot + rc + 1, cells.Length)
    modifies cells
    ensures fromNew ==> Placed(heap, keep, Pointers(block, n), r, spot + 1, rc - 1)
    ensures !fromNew ==> Placed(heap, keep, Pointers(block, n), r, spot, rc)
    ensures Holds(cells, was, 0, if fromNew then spot + 1 else spot) && Holds(cells, r, spot + rc, cells.Length)
  {
    var p := cells[spot].value;
    PlaceNext(heap, keep, Pointers(block, n), r, spot + 1, rc);
    if heap[p.block][p.index].rssi > heap[block][rc - 1].rssi {
      Place(cells, spot + rc, Some(Ptr(block, rc - 1)), was, spot + 1, r);
      fromNew := true;
    } else {
      Place(cells, spot + rc, cells[spot], was, spot, r);
      fromNew := false;
    }
  }

  /** The backward pass over the old entries; `left` new records are still to be placed. */
  method MergeBackward(cells: array<Option<Ptr>>, heap: Heap, block: nat, n: nat, ghost was: seq<Ptr>,
                       ghost keep: seq<Ptr>, ghost r: seq<Ptr>)
    returns (left: nat)
    requires block in heap && n <= |heap[block]| && n <= cells.Length && |was| <= cells.Length
    requires forall j :: 0 <= j < |was| ==> Live(heap, was[j])
    requires Holds(cells, was, 0, cells.Length)
    requires keep == was[..Min(|was|, cells.Length - n)] && |r| == |keep| + n
    requires Placed(heap, keep, Pointers(block, n), r, |keep|, n)
    modifies cells
    ensures left <= |r| && r[..left] == Pointers(block, left)
    ensures Holds(cells, r, left, cells.Length)
  {
    var rc := n;
    var spot := cells.Length - rc - 1;
    ghost var k, a := cells.Length, |keep|;
    while rc > 0 && spot >= 0
      invariant 0 <= rc <= n && -1 <= spot < k - n
      invariant a == Min(spot + 1, |was|) && Placed(heap, keep, Pointers(block, n), r, a, rc)
      invariant Holds(cells, was, 0, spot + 1)
      invariant spot >= |was| ==> rc == n && Holds(cells, was, 0, k)
      invariant Holds(cells, r, spot + rc + 1, k)
      decreases rc + spot + 1
    {
      if cells[spot].Some? {
        var fromNew := PlaceWeaker(cells, heap, block, n, spot, rc, was, keep, r);
        if fromNew {
          rc := rc - 1;
          continue;
        }
        a := spot;
      }
      spot := spot - 1;
    }
    PlacedAll(heap, keep, Pointers(block, n), r, a, rc);
    left := rc;
  }

  method MergeInPlace(cells: array<Option<Ptr>>, heap: Heap, block: nat, n: nat, ghost was: seq<Ptr>)
    requires block in heap && n <= |heap[block]| && n <= cells.Length && |was| <= cells.Length
    requires cells[..] == Pad(was, cells.Length)
    requires forall p :: p in was ==> Live(heap, p)
    modifies cells
    ensures cells[..] == Pad(Merged(heap, was, block, n, cells.Length), cells.Length)
  {
    ghost var k := cells.Length;
    ghost var keep, pointers := was[..Min(|was|, k - n)], Pointers(block, n);
    ghost var r := Merge(heap, keep, pointers);
    assert keep[..|keep|] == keep && pointers[..n] == pointers;
    assert forall j :: 0 <= j < k ==> cells[j] == cells[..][j];
    var rc := MergeBackward(cells, heap, block, n, was, keep, r);
    ghost var left := rc;
    while rc > 0
      invariant 0 <= rc <= left && Holds(cells, r, rc, k)
    {
      assert r[..left][rc - 1] == r[rc - 1];
      Place(cells, rc - 1, Some(Ptr(block, rc - 1)), [], 0, r);
      rc := rc - 1;
    }
  }

  // ---- the ranking as the records it shows

  function Looking(heap: Heap): Ptr -> Ap
  {
    (p: Ptr) => Look(heap, p)
  }

  function View(heap: Heap, s: seq<Ptr>): (r: seq<Ap>)
    ensures |r| == |s| && forall i :: 0 <= i < |s| ==> r[i] == Look(heap, s[i])
  {
    Apply(Looking(heap), s)
  }

  function MergeAps(was: seq<Ap>, recent: seq<Ap>): (r: seq<Ap>)
    ensures |r| == |was| + |recent|
    decreases |was| + |recent|
  {
    if recent == [] then was
    else if was == [] then recent
    else if was[|was| - 1].rssi > recent[|recent| - 1].rssi
    then MergeAps(was, recent[..|recent| - 1]) + [recent[|recent| - 1]]
    else MergeAps(was[..|was| - 1], recent) + [was[|was| - 1]]
  }

  /** The records a ranking of at most k shows after `recent` has been merged in. */
  function Absorb(k: nat, shown: seq<Ap>, recent: seq<Ap>): seq<Ap>
    requires |recent| <= k
  {
    MergeAps(shown[..Min(|shown|, k - |recent|)], recent)
  }

  lemma ViewSnoc(heap: Heap, s: seq<Ptr>, p: Ptr)
    ensures View(heap, s + [p]) == View(heap, s) + [Look(heap, p)]
  {
  }

  lemma ViewPrefix(heap: Heap, s: seq<Ptr>, n: nat)
    requires n <= |s|
    ensures View(heap, s[..n]) == View(heap, s)[..n]
  {
  }

  /** One step of the merge of records, from the pointers' side. */
  lemma MergeApsStep(heap: Heap, was: seq<Ptr>, recent: seq<Ptr>)
    requires recent != [] && was != []
    ensures var o, n := was[|was| - 1], recent[|recent| - 1];
      MergeAps(View(heap, was), View(heap, recent)) ==
        if Rssi(heap, o) > Rssi(heap, n) then MergeAps(View(heap, was), View(heap, recent[..|recent| - 1])) + [Look(heap, n)]
        else MergeAps(View(heap, was[..|was| - 1]), View(heap, recent)) + [Look(heap, o)]
  {
    ViewPrefix(heap, recent, |recent| - 1);
    ViewPrefix(heap, was, |was| - 1);
  }

  /** Merging pointers merges the records they show. */
  lemma {:induction false} MergeView(heap: Heap, was: seq<Ptr>, recent: seq<Ptr>)
    ensures View(heap, Merge(heap, was, recent)) == MergeAps(View(heap, was), View(heap, recent))
    decreases |was| + |recent|
  {
    if recent != [] && was != [] {
      var o, n := was[|was| - 1], recent[|recent| - 1];
      MergeApsStep(heap, was, recent);
      if Rssi(heap, o) > Rssi(heap, n) {
        MergeView(heap, was, recent[..|recent| - 1]);
        ViewSnoc(heap, Merge(heap, was, recent[..|recent| - 1]), n);
      } else {
        MergeView(heap, was[..|was| - 1], recent);
        ViewSnoc(heap, Merge(heap, was[..|was| - 1], recent), o);
      }
    }
  }

  /** The merge on the array shows the n new records and the strongest old ones. */
  lemma MergedView(heap: Heap, was: seq<Ptr>, block: nat, n: nat, k: nat)
    requires block in heap && n <= |heap[block]| && n <= k
    ensures View(heap, Merged(heap, was, block, n, k)) == Absorb(k, View(heap, was), heap[block][..n])
  {
    var keep := was[..Min(|was|, k - n)];
    MergeView(heap, keep, Pointers(block, n));
    assert View(heap, keep) == View(heap, was)[..|keep|];
    assert View(heap, Pointers(block, n)) == heap[block][..n];
  }

  ghost predicate Stronger(s: seq<Ap>, i: int, j: int)
  {
    0 <= i < j < |s| ==> s[i].rssi >= s[j].rssi
  }

  ghost predicate Sorted(s: seq<Ap>)
  {
    forall i, j {:trigger Stronger(s, i, j)} :: Stronger(s, i, j)
  }

  /** For K cells, a descending ranking of any length up to K and up to K descending new
      records, the array ends with the ranking of all new records and the first K - n old
      ones, of length min(m + n, K). */
  lemma MergedIsRanking(heap: Heap, was: seq<Ptr>, block: nat, n: nat, k: nat)
    requires block in heap && n <= |heap[block]| && n <= k && |was| <= k
    requires Descending(heap, was) && Older(block, was) && Sorted(heap[block][..n])
    ensures var keep := was[..Min(|was|, k - n)]; var r := Merged(heap, was, block, n, k);
      |r| == Min(|was| + n, k) && IsRanking(heap, block, keep, Pointers(block, n), r)
  {
    var keep, recent := was[..Min(|was|, k - n)], Pointers(block, n);
    DescendingPrefix(heap, was, |keep|);
    forall i, j ensures Falls(heap, recent, i, j) {
      assert Stronger(heap[block][..n], i, j);
    }
    MergeRanks(heap, block, keep, recent);
  }

  lemma SortedSnoc(s: seq<Ap>, x: Ap)
    requires Sorted(s) && (s != [] ==> s[|s| - 1].rssi >= x.rssi)
    ensures Sorted(s + [x])
  {
    forall i, j ensures Stronger(s + [x], i, j) {
      assert Stronger(s, i, j) && Stronger(s, i, |s| - 1);
    }
  }

  lemma SortedPrefix(s: seq<Ap>, n: nat)
    requires Sorted(s) && n <= |s|
    ensures Sorted(s[..n])
  {
    forall i, j ensures Stronger(s[..n], i, j) {
      assert Stronger(s, i, j);
    }
  }

  /** The merge loses no record and invents none. */
  lemma {:induction false} MergeApsKeeps(was: seq<Ap>, recent: seq<Ap>)
    ensures multiset(MergeAps(was, recent)) == multiset(was) + multiset(recent)
    decreases |was| + |recent|
  {
    if recent != [] && was != [] {
      var o, n := was[|was| - 1], recent[|recent| - 1];
      if o.rssi > n.rssi {
        assert recent == recent[..|recent| - 1] + [n];
        MergeApsKeeps(was, recent[..|recent| - 1]);
      } else {
        assert was == was[..|was| - 1] + [o];
        MergeApsKeeps(was[..|was| - 1], recent);
      }
    }
  }

  lemma {:induction false} MergeApsSorted(was: seq<Ap>, recent: seq<Ap>)
    requires Sorted(was) && Sorted(recent)
    ensures Sorted(MergeAps(was, recent))
    decreases |was| + |recent|
  {
    if recent != [] && was != [] {
      var o, n := was[|was| - 1], recent[|recent| - 1];
      if o.rssi > n.rssi {
        assert Stronger(recent, |recent| - 2, |recent| - 1);
        SortedPrefix(recent, |recent| - 1);
        MergeApsSorted(was, recent[..|recent| - 1]);
        SortedSnoc(MergeAps(was, recent[..|recent| - 1]), n);
      } else {
        assert Stronger(was, |was| - 2, |was| - 1);
        SortedPrefix(was, |was| - 1);
        MergeApsSorted(was[..|was| - 1], recent);
        SortedSnoc(MergeAps(was[..|was| - 1], recent), o);
      }
    }
  }
}
