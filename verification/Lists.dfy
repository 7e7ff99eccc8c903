/** Sequence vocabulary shared by the specifications. */
module Seqs {

  datatype Option<+T> = None | Some(value: T)

  function Filter<T>(keep: T -> bool, s: seq<T>): (r: seq<T>)
  {
    if s == [] then [] else (if keep(s[0]) then [s[0]] else []) + Filter(keep, s[1..])
  }

  function Not<T>(p: T -> bool): T -> bool
  {
    x => !p(x)
  }

  function Apply<T, U>(f: T -> U, s: seq<T>): (r: seq<U>)
    ensures |r| == |s|
    ensures forall i :: 0 <= i < |s| ==> r[i] == f(s[i])
  {
    if s == [] then [] else [f(s[0])] + Apply(f, s[1..])
  }

  /** Index of the first element satisfying p, or |s| when there is none. */
  function IndexOf<T>(p: T -> bool, s: seq<T>): (k: nat)
    ensures k <= |s|
    ensures k < |s| ==> p(s[k])
    ensures forall i :: 0 <= i < k ==> !p(s[i])
  {
    if s == [] then 0 else if p(s[0]) then 0 else 1 + IndexOf(p, s[1..])
  }

  /** s with the first element satisfying p replaced by its image under f. */
  function UpdateAt<T>(p: T -> bool, f: T -> T, s: seq<T>): (r: seq<T>)
    ensures |r| == |s|
  {
    var k := IndexOf(p, s);
    if k < |s| then s[k := f(s[k])] else s
  }

  lemma UpdateAtCons<T>(p: T -> bool, f: T -> T, s: seq<T>)
    requires s != []
    ensures UpdateAt(p, f, s) == if p(s[0]) then [f(s[0])] + s[1..] else [s[0]] + UpdateAt(p, f, s[1..])
  {
  }

  /** s without the first element satisfying p. */
  function RemoveAt<T>(p: T -> bool, s: seq<T>): seq<T>
  {
    var k := IndexOf(p, s);
    if k < |s| then Without(s, k) else s
  }

  lemma IndexOfIs<T>(p: T -> bool, s: seq<T>, k: nat)
    requires k <= |s| && (k < |s| ==> p(s[k]))
    requires forall i :: 0 <= i < k ==> !p(s[i])
    ensures IndexOf(p, s) == k
  {
  }

  ghost predicate Differ<T>(s: seq<T>, i: int, j: int)
  {
    0 <= i < |s| && 0 <= j < |s| ==> s[i] != s[j]
  }

  /** No duplicates; stated through Differ so that it is used only where asked for. */
  ghost predicate Distinct<T>(s: seq<T>)
  {
    forall i, j :: 0 <= i < j < |s| ==> Differ(s, i, j)
  }

  function Without<T>(s: seq<T>, k: nat): (r: seq<T>)
    requires k < |s|
    ensures |r| == |s| - 1
    ensures forall i :: 0 <= i < |r| ==> r[i] == if i < k then s[i] else s[i + 1]
  {
    s[..k] + s[k + 1..]
  }

  lemma DistinctWithout<T>(s: seq<T>, k: nat)
    requires k < |s| && Distinct(s)
    ensures Distinct(Without(s, k))
  {
    var r := Without(s, k);
    forall i, j | 0 <= i < j < |r| ensures Differ(r, i, j) {
      assert Differ(s, if i < k then i else i + 1, if j < k then j else j + 1);
    }
  }

  lemma DistinctFrom<T>(s: seq<T>, k: nat)
    requires k < |s| && Distinct(s)
    ensures forall i :: 0 <= i < |s| && i != k ==> s[i] != s[k]
  {
    forall i | 0 <= i < |s| && i != k ensures s[i] != s[k] {
      assert if i < k then Differ(s, i, k) else Differ(s, k, i);
    }
  }

  lemma DistinctCons<T>(x: T, s: seq<T>)
    requires x !in s && Distinct(s)
    ensures Distinct([x] + s)
  {
    forall i, j | 0 <= i < j < |s| + 1 ensures Differ([x] + s, i, j) {
      assert i > 0 ==> Differ(s, i - 1, j - 1);
    }
  }

  lemma {:induction false} FilterConcat<T>(keep: T -> bool, a: seq<T>, b: seq<T>)
    ensures Filter(keep, a + b) == Filter(keep, a) + Filter(keep, b)
  {
    if a == [] {
      assert a + b == b;
    } else {
      assert (a + b)[1..] == a[1..] + b;
      FilterConcat(keep, a[1..], b);
      var first := if keep(a[0]) then [a[0]] else [];
      assert first + (Filter(keep, a[1..]) + Filter(keep, b)) == first + Filter(keep, a[1..]) + Filter(keep, b);
    }
  }

  lemma {:induction false} ApplyConcat<T, U>(f: T -> U, a: seq<T>, b: seq<T>)
    ensures Apply(f, a + b) == Apply(f, a) + Apply(f, b)
  {
  }

  lemma ApplyCons<T, U>(f: T -> U, x: T, s: seq<T>)
    ensures Apply(f, [x] + s) == [f(x)] + Apply(f, s)
  {
  }

  function Fold<S, E>(f: (S, E) -> S, s: S, es: seq<E>): S
    decreases |es|
  {
    if es == [] then s else Fold(f, f(s, es[0]), es[1..])
  }

  lemma {:induction false} FoldConcat<S, E>(f: (S, E) -> S, s: S, a: seq<E>, b: seq<E>)
    ensures Fold(f, s, a + b) == Fold(f, Fold(f, s, a), b)
    decreases |a|
  {
    if a == [] {
      assert a + b == b;
    } else {
      FoldConcat(f, f(s, a[0]), a[1..], b);
      assert (a + b)[1..] == a[1..] + b;
    }
  }

  lemma FilterCons<T>(keep: T -> bool, s: seq<T>)
    requires s != []
    ensures Filter(keep, s) == if keep(s[0]) then [s[0]] + Filter(keep, s[1..]) else Filter(keep, s[1..])
  {
  }

  lemma {:induction false} FilterMembers<T>(keep: T -> bool, s: seq<T>, x: T)
    ensures x in Filter(keep, s) <==> x in s && keep(x)
  {
    if s != [] {
      FilterMembers(keep, s[1..], x);
      assert s == [s[0]] + s[1..];
    }
  }

  /** One more element at the end of the processed prefix. */
  lemma FilterStep<T>(keep: T -> bool, s: seq<T>, n: nat)
    requires n < |s|
    ensures Filter(keep, s[..n + 1]) == Filter(keep, s[..n]) + if keep(s[n]) then [s[n]] else []
  {
    assert s[..n + 1] == s[..n] + [s[n]];
    FilterConcat(keep, s[..n], [s[n]]);
  }

  /** A list in the middle of a sweep: the first n values already filtered and aged. */
  function Swept<T>(keep: T -> bool, age: T -> T, s: seq<T>, n: nat): seq<T>
    requires n <= |s|
  {
    Apply(age, Filter(keep, s[..n])) + s[n..]
  }

  lemma SweptStep<T>(keep: T -> bool, age: T -> T, s: seq<T>, n: nat)
    requires n < |s|
    ensures var k := |Filter(keep, s[..n])|;
      && k < |Swept(keep, age, s, n)|
      && Swept(keep, age, s, n)[k] == s[n]
      && Swept(keep, age, s, n + 1) ==
         (if keep(s[n]) then Swept(keep, age, s, n)[k := age(s[n])] else Without(Swept(keep, age, s, n), k))
      && |Filter(keep, s[..n + 1])| == k + if keep(s[n]) then 1 else 0
  {
    FilterStep(keep, s, n);
    var done, rest := Filter(keep, s[..n]), s[n + 1..];
    assert s[n..] == [s[n]] + rest;
    if keep(s[n]) {
      ApplyConcat(age, done, [s[n]]);
      Middle(Apply(age, done), s[n], age(s[n]), rest);
    } else {
      Middle(Apply(age, done), s[n], s[n], rest);
    }
  }

  lemma Middle<T>(a: seq<T>, x: T, y: T, b: seq<T>)
    ensures (a + ([x] + b))[|a| := y] == a + [y] + b
    ensures Without(a + ([x] + b), |a|) == a + b
  {
  }
}

/** The singly linked list that the C files spell out four times (node_info_list,
    app_node_info_list, child_info, esp_mesh_lite_espnow_cb_list): cells are pushed at the
    head, found by walking, updated in place and unlinked while walking. `cells` is the
    spine from the head; keeping it duplicate free is what keeps the list acyclic. */
module LinkedLists {
  import opened Seqs

  class Cell<T> {
    var value: T
    var next: Cell?<T>

    constructor (value: T, next: Cell?<T>)
      ensures this.value == value && this.next == next
    {
      this.value := value;
      this.next := next;
    }
  }

  class List<T> {
    var head: Cell?<T>
    ghost var cells: seq<Cell<T>>
    ghost var values: seq<T>     // what the list holds, from the head
    ghost var repr: set<Cell<T>> // every cell the list ever linked

    constructor ()
      ensures Valid() && values == [] && repr == {}
    {
      head := null;
      cells, values, repr := [], [], {};
    }

    /** The cell at position i of the spine, null past the end. */
    ghost function At(i: nat): Cell?<T>
      reads this
    {
      if i < |cells| then cells[i] else null
    }

    /** The cell in front of position i, null at the head. */
    ghost function Before(i: nat): Cell?<T>
      requires i <= |cells|
      reads this
    {
      if i == 0 then null else cells[i - 1]
    }

    ghost predicate Valid()
      reads this, repr
    {
      && |values| == |cells|
      && head == At(0)
      && (forall i :: 0 <= i < |cells| ==> cells[i] in repr)
      && (forall i {:trigger cells[i].next} :: 0 <= i < |cells| ==> cells[i].next == At(i + 1))
      && (forall i {:trigger cells[i].value} :: 0 <= i < |cells| ==> cells[i].value == values[i])
      && Distinct(cells)
    }

    method PushFront(x: T)
      requires Valid()
      modifies this
      ensures Valid() && values == [x] + old(values)
      ensures fresh(repr - old(repr))
    {
      var cell := new Cell(x, head);
      DistinctCons(cell, cells);
      head := cell;
      cells, values, repr := [cell] + cells, [x] + values, repr + {cell};
    }

    method FindFirst(p: T -> bool) returns (found: Option<T>)
      requires Valid()
      ensures var k := IndexOf(p, values);
        found == if k < |values| then Some(values[k]) else None
    {
      var cell, k := Locate(p);
      found := if cell != null then Some(cell.value) else None;
    }

    method UpdateFirst(p: T -> bool, f: T -> T) returns (found: Option<T>)
      requires Valid()
      modifies `values, repr
      ensures Valid() && values == UpdateAt(p, f, old(values))
      ensures var k := IndexOf(p, old(values));
        found == if k < |old(values)| then Some(old(values)[k]) else None
    {
      var cell, k := Locate(p);
      if cell == null {
        return None;
      }
      found := Some(cell.value);
      SetValue(cell, f(cell.value), k);
    }

    method RemoveFirst(p: T -> bool) returns (found: Option<T>)
      requires Valid()
      modifies `head, `cells, `values, repr
      ensures Valid() && values == RemoveAt(p, old(values))
      ensures var k := IndexOf(p, old(values));
        found == if k < |old(values)| then Some(old(values)[k]) else None
    {
      var current, prev := head, null;
      ghost var k := 0;
      while current != null && !p(current.value)
        invariant 0 <= k <= |cells|
        invariant current == At(k) && prev == Before(k)
        invariant forall i :: 0 <= i < k ==> !p(values[i])
        decreases |cells| - k
      {
        prev := current;
        current := current.next;
        k := k + 1;
      }
      IndexOfIs(p, values, k);
      if current == null {
        return None;
      }
      found := Some(current.value);
      Unlink(current, prev, k);
    }

    /** Take the cell at position k out of the list; prev is the cell before it. */
    method Unlink(current: Cell<T>, prev: Cell?<T>, ghost k: nat)
      requires Valid()
      requires k < |cells| && current == cells[k] && prev == Before(k)
      modifies `head, `cells, `values, repr
      ensures Valid() && cells == Without(old(cells), k) && values == Without(old(values), k)
      ensures current.next == At(k)
    {
      DistinctWithout(cells, k);
      DistinctFrom(cells, k);
      if head == current {
        head := current.next;
      } else {
        DistinctFrom(cells, k - 1);
        prev.next := current.next;
      }
      cells, values := Without(cells, k), Without(values, k);
    }

    method SetValue(cell: Cell<T>, value: T, ghost k: nat)
      requires Valid() && k < |cells| && cell == cells[k]
      modifies `values, repr
      ensures cells == old(cells) && cell.next == old(cell.next)
      ensures Valid() && values == old(values)[k := value]
    {
      DistinctFrom(cells, k);
      cell.value := value;
      values := values[k := value];
    }

    /** Walk the list once, unlinking every cell whose value fails keep and replacing the
        others' value by age(value); returns the unlinked values in list order. */
    method Sweep(keep: T -> bool, age: T -> T) returns (removed: seq<T>)
      requires Valid()
      modifies `head, `cells, `values, repr
      ensures Valid() && values == Apply(age, Filter(keep, old(values)))
      ensures removed == Filter(Not(keep), old(values))
    {
      ghost var drop := Not(keep);
      ghost var vals := values;
      ghost var kept, done := 0, 0;
      var current, prev := head, null;
      removed := [];
      while current != null
        invariant Valid()
        invariant 0 <= kept <= |cells| && 0 <= done <= |vals| && |cells| - kept == |vals| - done
        invariant current == At(kept) && prev == Before(kept)
        invariant values == Swept(keep, age, vals, done) && kept == |Filter(keep, vals[..done])|
        invariant removed == Filter(drop, vals[..done])
        decreases |vals| - done
      {
        SweptStep(keep, age, vals, done);
        FilterStep(drop, vals, done);
        var value := current.value;
        current, prev, kept := Visit(current, prev, kept, keep(value), age(value));
        if !keep(value) {
          removed := removed + [value];
        }
        done := done + 1;
      }
      assert vals[..done] == vals;
    }

    /** One turn of the sweep: keep the cell with its new value, or unlink it. */
    method Visit(current: Cell<T>, prev: Cell?<T>, ghost k: nat, keep: bool, value: T)
      returns (current': Cell?<T>, prev': Cell?<T>, ghost k': nat)
      requires Valid()
      requires k < |cells| && current == cells[k] && prev == Before(k)
      modifies `head, `cells, `values, repr
      ensures Valid() && k' == (if keep then k + 1 else k) && k' <= |cells|
      ensures current' == At(k') && prev' == Before(k')
      ensures cells == if keep then old(cells) else Without(old(cells), k)
      ensures values == if keep then old(values)[k := value] else Without(old(values), k)
    {
      if keep {
        SetValue(current, value, k);
        return current.next, current, k + 1;
      }
      Unlink(current, prev, k);
      return current.next, prev, k;
    }

    /** Replace every value in place. */
    method MapAll(f: T -> T)
      requires Valid()
      modifies `values, repr
      ensures Valid() && values == Apply(f, old(values))
    {
      var current := head;
      ghost var k := 0;
      while current != null
        invariant 0 <= k <= |cells| && current == At(k)
        invariant Valid()
        invariant forall i :: 0 <= i < |cells| ==> values[i] == if i < k then f(old(values)[i]) else old(values)[i]
        decreases |cells| - k
      {
        SetValue(current, f(current.value), k);
        current := current.next;
        k := k + 1;
      }
    }

    method ToSeq() returns (r: seq<T>)
      requires Valid()
      ensures r == values
    {
      r := [];
      var current := head;
      while current != null
        invariant |r| <= |cells| && current == At(|r|)
        invariant r == values[..|r|]
        decreases |cells| - |r|
      {
        r := r + [current.value];
        current := current.next;
      }
    }

    method Locate(p: T -> bool) returns (cell: Cell?<T>, ghost k: nat)
      requires Valid()
      ensures k == IndexOf(p, values) && cell == At(k)
    {
      cell := head;
      k := 0;
      while cell != null && !p(cell.value)
        invariant 0 <= k <= |cells| && cell == At(k)
        invariant forall i :: 0 <= i < k ==> !p(values[i])
        decreases |cells| - k
      {
        cell := cell.next;
        k := k + 1;
      }
      IndexOfIs(p, values, k);
    }
  }
}
