/** The heap of timers, whose handles know their place in it (evloop/timeheap.c). */
module TimeHeaps {

  /** struct timespec */
  datatype Time = Time(sec: int, nsec: int)

  /** cmptime_lt */
  predicate Before(a: Time, b: Time) {
    if a.sec == b.sec then a.nsec < b.nsec else a.sec < b.sec
  }

  /** In seconds, and within a second in nanoseconds. */
  ghost predicate NotLater(a: Time, b: Time) {
    a.sec < b.sec || (a.sec == b.sec && a.nsec <= b.nsec)
  }

  /** struct th_handle */
  class Handle {
    var i: int

    constructor ()
      ensures i == -1
    {
      i := -1;
    }
  }

  datatype Entry = Entry(t: Time, h: Handle?)

  // ---------- Heap order ----------

  function Parent(k: nat): (p: nat)
    requires k > 0
    ensures 2 * p + 1 == k || 2 * p + 2 == k
  {
    (k - 1) / 2
  }

  predicate Ordered(s: seq<Entry>, k: nat)
    requires 0 < k < |s|
  {
    !Before(s[k].t, s[Parent(k)].t)
  }

  predicate Heap(s: seq<Entry>) {
    forall k: nat :: 0 < k < |s| ==> Ordered(s, k)
  }

  /** Order may fail between i and its parent only. */
  predicate HeapAbove(s: seq<Entry>, i: nat) {
    && i < |s|
    && (forall k: nat :: 0 < k < |s| && k != i ==> Ordered(s, k))
    && (forall k: nat :: 0 < k < |s| && 0 < i && Parent(k) == i ==> !Before(s[k].t, s[Parent(i)].t))
  }

  /** Order may fail between i and its children only. */
  predicate HeapBelow(s: seq<Entry>, i: nat) {
    && i <= |s|
    && (forall k: nat :: 0 < k < |s| && Parent(k) != i ==> Ordered(s, k))
    && (forall k: nat :: 0 < k < |s| && 0 < i && Parent(k) == i ==> !Before(s[k].t, s[Parent(i)].t))
  }

  function Swapped(s: seq<Entry>, i: nat, j: nat): (r: seq<Entry>)
    requires i < |s| && j < |s|
    ensures multiset(r) == multiset(s)
  {
    s[i := s[j]][j := s[i]]
  }

  /** One step of bubble_up. */
  lemma UpStep(s: seq<Entry>, i: nat)
    requires HeapAbove(s, i) && i > 0
    ensures Before(s[i].t, s[Parent(i)].t) ==> HeapAbove(Swapped(s, i, Parent(i)), Parent(i))
    ensures !Before(s[i].t, s[Parent(i)].t) ==> Heap(s)
  {
    var p := Parent(i);
    if Before(s[i].t, s[p].t) {
      var r := Swapped(s, i, p);
      assert p > 0 ==> Ordered(s, p);
      forall k: nat | 0 < k < |r| && k != p
        ensures Ordered(r, k)
      {
        assert k != i ==> Ordered(s, k);
      }
      forall k: nat | 0 < k < |r| && 0 < p && Parent(k) == p
        ensures !Before(r[k].t, r[Parent(p)].t)
      {
        assert k != i ==> Ordered(s, k);
      }
    }
  }

  /** The child that bubble_down compares with. */
  function LesserChild(s: seq<Entry>, i: nat): (c: nat)
    requires 2 * i + 1 < |s|
    ensures i < c < |s| && Parent(c) == i
    ensures forall k: nat :: 0 < k < |s| && Parent(k) == i ==> !Before(s[k].t, s[c].t)
  {
    if 2 * i + 2 < |s| && !Before(s[2 * i + 1].t, s[2 * i + 2].t) then 2 * i + 2 else 2 * i + 1
  }

  predicate ChildEarlier(s: seq<Entry>, i: nat) {
    2 * i + 1 < |s| && Before(s[LesserChild(s, i)].t, s[i].t)
  }

  /** One step of bubble_down. */
  lemma DownStep(s: seq<Entry>, i: nat)
    requires HeapBelow(s, i)
    ensures if ChildEarlier(s, i) then HeapBelow(Swapped(s, i, LesserChild(s, i)), LesserChild(s, i)) else Heap(s)
  {
    if 2 * i + 1 >= |s| {
      NoChild(s, i);
      return;
    }
    var c := LesserChild(s, i);
    if Before(s[c].t, s[i].t) {
      var r := Swapped(s, i, c);
      forall k: nat | 0 < k < |r| && Parent(k) != c
        ensures Ordered(r, k)
      {
        assert Parent(k) != i ==> Ordered(s, k);
      }
      forall k: nat | 0 < k < |r| && Parent(k) == c
        ensures !Before(r[k].t, r[i].t)
      {
        assert Ordered(s, k);
      }
    }
  }

  lemma NoChild(s: seq<Entry>, i: nat)
    requires HeapBelow(s, i) && 2 * i + 1 >= |s|
    ensures Heap(s)
  {
  }

  /** The top is a minimum. */
  lemma {:induction false} TopIsLeast(s: seq<Entry>, k: nat)
    requires Heap(s) && k < |s|
    ensures NotLater(s[0].t, s[k].t)
    decreases k
  {
    if k == 0 {
    } else {
      TopIsLeast(s, Parent(k));
      assert Ordered(s, k);
    }
  }

  /** An entry gets another time: earlier breaks order towards the root only, later away from it only. */
  lemma PutEntry(s: seq<Entry>, i: nat, e: Entry)
    requires Heap(s) && i < |s|
    ensures Before(e.t, s[i].t) ==> HeapAbove(s[i := e], i)
    ensures !Before(e.t, s[i].t) ==> HeapBelow(s[i := e], i)
  {
    var r := s[i := e];
    assert i > 0 ==> Ordered(s, i);
    forall k: nat | 0 < k < |s|
      ensures Ordered(s, k)
    {
    }
    forall k: nat | 0 < k < |s| && k != i && Parent(k) != i
      ensures Ordered(r, k)
    {
      assert Ordered(s, k);
    }
    forall k: nat | 0 < k < |s| && Parent(k) == i
      ensures Before(e.t, s[i].t) ==> Ordered(r, k)
      ensures 0 < i ==> !Before(r[k].t, r[Parent(i)].t)
    {
      assert Ordered(s, k);
    }
  }

  lemma HeapTake(s: seq<Entry>, n: nat)
    requires Heap(s) && n <= |s|
    ensures Heap(s[..n])
  {
    forall k: nat | 0 < k < n
      ensures Ordered(s[..n], k)
    {
      assert Ordered(s, k);
    }
  }

  // ---------- The heap ----------

  /** Every handle in the heap knows its place. */
  ghost predicate Linked(s: seq<Entry>)
    reads set e | e in s :: e.h
  {
    forall k :: 0 <= k < |s| ==> s[k].h != null && s[k].h.i == k
  }

  class TimeHeap {
    var heap: array<Entry>
    var use: nat

    /** The live entries. */
    ghost function Entries(): seq<Entry>
      reads this, heap
      requires use <= heap.Length
    {
      heap[..use]
    }

    ghost predicate Linking()
      reads this, heap, if use <= heap.Length then set e | e in Entries() :: e.h else {}
    {
      0 < heap.Length && use <= heap.Length && Linked(Entries())
    }

    ghost predicate Valid()
      reads this, heap, if use <= heap.Length then set e | e in Entries() :: e.h else {}
    {
      Linking() && Heap(Entries())
    }

    /** The times of the live handles. */
    ghost function Live(): map<Handle?, Time>
      reads this, heap, if use <= heap.Length then set e | e in Entries() :: e.h else {}
      requires Linking()
    {
      LinkedOnce(Entries());
      Timers(Entries())
    }

    /** timeheap_init */
    constructor ()
      ensures Valid() && use == 0 && Live() == map[] && fresh(heap)
    {
      heap := new Entry[10];
      use := 0;
    }

    method Swap(i: nat, j: nat)
      requires Linking() && i < use && j < use && i != j
      modifies heap, heap[i].h, heap[j].h
      ensures Linking() && Entries() == Swapped(old(Entries()), i, j)
    {
      var tmp := heap[i];
      heap[i] := heap[j];
      heap[i].h.i := i;
      heap[j] := tmp;
      heap[j].h.i := j;
      assert Entries() == Swapped(old(Entries()), i, j);
    }

    method BubbleUp(start: nat)
      requires Linking() && HeapAbove(Entries(), start)
      modifies heap, set e | e in Entries() :: e.h
      ensures Valid() && multiset(Entries()) == old(multiset(Entries()))
    {
      var i := start;
      while i != 0
        invariant Linking() && HeapAbove(Entries(), i)
        invariant multiset(Entries()) == old(multiset(Entries()))
      {
        var p := Parent(i);
        UpStep(Entries(), i);
        if Before(heap[i].t, heap[p].t) {
          SameMembers(old(Entries()), Entries());
          Swap(i, p);
          i := p;
        } else {
          return;
        }
      }
    }

    method BubbleDown(start: nat)
      requires Linking() && HeapBelow(Entries(), start)
      modifies heap, set e | e in Entries() :: e.h
      ensures Valid() && multiset(Entries()) == old(multiset(Entries()))
    {
      var i := start;
      while true
        invariant Linking() && HeapBelow(Entries(), i)
        invariant multiset(Entries()) == old(multiset(Entries()))
        decreases use - i
      {
        SameMembers(old(Entries()), Entries());
        var ci, earlier := DownOnce(i);
        if !earlier {
          return;
        }
        i := ci;
      }
    }

    /** One turn of that loop: the entry changes places with its lesser child if that is earlier. */
    method DownOnce(i: nat) returns (ci: nat, earlier: bool)
      requires Linking() && HeapBelow(Entries(), i)
      modifies heap, set e | e in Entries() :: e.h
      ensures Linking() && multiset(Entries()) == old(multiset(Entries()))
      ensures if earlier then i < ci < use && HeapBelow(Entries(), ci) else Heap(Entries())
    {
      DownStep(Entries(), i);
      ci, earlier := PickChild(i);
      if earlier {
        Swap(i, ci);
      }
    }

    /** The lesser child, and whether it is earlier than its parent. */
    method PickChild(i: nat) returns (ci: nat, earlier: bool)
      requires Linking()
      ensures earlier <==> ChildEarlier(Entries(), i)
      ensures earlier ==> ci == LesserChild(Entries(), i)
    {
      var li, ri := 2 * i + 1, 2 * i + 2;
      if ri < use {
        ci := if Before(heap[li].t, heap[ri].t) then li else ri;
      } else if li < use {
        ci := li;
      } else {
        return 0, false;
      }
      earlier := Before(heap[ci].t, heap[i].t);
    }

    /** timeheap_insert: the handle gets its time. */
    method Insert(h: Handle, t: Time)
      requires Valid() && forall e :: e in Entries() ==> e.h != h
      modifies this, heap, h, set e | e in Entries() :: e.h
      ensures Valid() && multiset(Entries()) == old(multiset(Entries())) + multiset{Entry(t, h)}
      ensures Live() == old(Live())[h := t]
    {
      ghost var s := Entries();
      LinkedOnce(s);
      Append(h, t);
      BubbleUp(h.i);
      LinkedOnce(Entries());
      InsertedTimer(s, Entries(), Entry(t, h));
    }

    method Append(h: Handle, t: Time)
      requires Valid() && forall e :: e in Entries() ==> e.h != h
      modifies this, heap, h
      ensures Linking() && h.i == old(use) && HeapAbove(Entries(), h.i) && Entries() == old(Entries()) + [Entry(t, h)]
      ensures heap == old(heap) || fresh(heap)
    {
      if use == heap.Length {
        Grow();
      }
      ghost var s := Entries();
      heap[use] := Entry(t, h);
      h.i := use;
      use := use + 1;
      assert Entries() == s + [Entry(t, h)];
      AppendEntry(s, Entry(t, h));
    }

    method Grow()
      requires Valid()
      modifies this`heap
      ensures Valid() && fresh(heap) && heap.Length > use && Entries() == old(Entries())
    {
      var bigger := new Entry[heap.Length * 2];
      var k := 0;
      while k < use
        invariant k <= use && bigger[..k] == heap[..k]
        modifies bigger
      {
        bigger[k] := heap[k];
        k := k + 1;
      }
      heap := bigger;
    }

    /** timeheap_remove: the handle at the handle's place goes, and nothing else. */
    method Remove(h: Handle)
      requires Valid() && 0 <= h.i < use
      modifies this, heap, set e | e in Entries() :: e.h
      ensures Valid() && multiset(Entries()) == old(multiset(Entries())) - multiset{old(heap[h.i])}
      ensures Live() == old(Live()) - {old(heap[h.i].h)}
    {
      ghost var s := Entries();
      LinkedOnce(s);
      ghost var i: nat := h.i;
      Take(h.i);
      LinkedOnce(Entries());
      RemovedTimer(s, Entries(), s[i]);
    }

    /** The entry at place i goes. */
    method Take(i: nat)
      requires Valid() && i < use
      modifies this`use, heap, set e | e in Entries() :: e.h
      ensures Valid() && multiset(Entries()) == old(multiset(Entries())) - multiset{old(heap[i])}
    {
      if use > 1 {
        TakeOne(i);
      } else {
        NoneLeft(Entries(), i);
        use := use - 1;
        assert Entries() == [];
      }
    }

    method TakeOne(i: nat)
      requires Valid() && i < use && use > 1
      modifies this`use, heap, set e | e in Entries() :: e.h
      ensures Valid() && multiset(Entries()) == old(multiset(Entries())) - multiset{old(heap[i])}
    {
      RemoveEntry(Entries(), i);
      var earlier := MoveLast(i);
      Settle(i, earlier);
    }

    /** An entry whose time was made earlier or later finds its place. */
    method Settle(i: nat, earlier: bool)
      requires Linking() && if earlier then HeapAbove(Entries(), i) else HeapBelow(Entries(), i)
      modifies heap, set e | e in Entries() :: e.h
      ensures Valid() && multiset(Entries()) == old(multiset(Entries()))
    {
      if earlier {
        BubbleUp(i);
      } else {
        BubbleDown(i);
      }
    }

    /** timeheap_change: the handle gets another time, and no other handle does. */
    method Change(h: Handle, t: Time)
      requires Valid() && 0 <= h.i < use && heap[h.i].h == h
      modifies heap, set e | e in Entries() :: e.h
      ensures Valid()
      ensures multiset(Entries()) == old(multiset(Entries())) - multiset{old(heap[h.i])} + multiset{Entry(t, h)}
      ensures Live() == old(Live())[h := t]
    {
      ghost var s := Entries();
      var i: nat := h.i;
      LinkedOnce(s);
      var earlier := Before(t, heap[i].t);
      PutEntry(s, i, Entry(t, h));
      heap[i] := heap[i].(t := t);
      assert Entries() == s[i := Entry(t, h)];
      Settle(i, earlier);
      LinkedOnce(Entries());
      ChangedTimer(s, Entries(), i, t);
    }

    /** timeheap_top: no live entry has an earlier time. */
    method Top() returns (t: Time)
      requires Valid() && use > 0
      ensures exists h :: h in Live() && Live()[h] == t
      ensures forall h :: h in Live() ==> NotLater(t, Live()[h])
    {
      t := heap[0].t;
      ghost var top := Entries()[0];
      assert top.h in Live() && Live()[top.h] == t;
      NoneBeforeTop();
    }

    lemma NoneBeforeTop()
      requires Valid() && use > 0
      ensures heap[0].h in Live() && Live()[heap[0].h] == heap[0].t
      ensures forall h :: h in Live() ==> NotLater(heap[0].t, Live()[h])
    {
      assert Entries()[0] == heap[0];
      forall h | h in Live()
        ensures NotLater(heap[0].t, Live()[h])
      {
        var k :| 0 <= k < use && Entries()[k].h == h;
        TopIsLeast(Entries(), k);
      }
    }

    /** timeheap_remove_top, through a handle made for the purpose. */
    method RemoveTop() returns (h: Handle)
      requires Valid() && use > 0
      modifies this, heap, set e | e in Entries() :: e.h
      ensures Valid() && h == old(heap[0].h)
      ensures multiset(Entries()) == old(multiset(Entries())) - multiset{old(heap[0])}
      ensures Live() == old(Live()) - {h}
      ensures h in old(Live()) && forall g :: g in old(Live()) ==> NotLater(old(Live())[h], old(Live())[g])
    {
      NoneBeforeTop();
      h := heap[0].h;
      var tmp := new Handle();
      tmp.i := 0;
      Remove(tmp);
    }

    /** The last entry takes the place of another. */
    method MoveLast(i: nat) returns (earlier: bool)
      requires Linking() && i < use && use > 1
      modifies this`use, heap, heap[use - 1].h
      ensures Linking() && use == old(use) - 1 && Entries() == Filled(old(Entries()), i)
      ensures earlier <==> Before(old(Entries()[use - 1].t), old(Entries()[i].t))
    {
      ghost var s := Entries();
      use := use - 1;
      earlier := Before(heap[use].t, heap[i].t);
      assert heap[use] == s[|s| - 1];
      heap[i] := heap[use];
      heap[i].h.i := i;
      assert Entries() == Filled(s, i);
    }
  }

  // ---------- The heap as a map from handles to times ----------

  /** No handle is in the heap twice. */
  ghost predicate Once(s: seq<Entry>) {
    forall a, b :: 0 <= a < b < |s| ==> s[a].h != s[b].h
  }

  lemma LinkedOnce(s: seq<Entry>)
    requires Linked(s)
    ensures Once(s)
  {
  }

  /** The times of the handles in the heap. */
  ghost function Timers(s: seq<Entry>): (m: map<Handle?, Time>)
    requires Once(s)
    ensures forall k :: 0 <= k < |s| ==> s[k].h in m && m[s[k].h] == s[k].t
    ensures forall h :: h in m ==> exists k :: 0 <= k < |s| && s[k].h == h
  {
    if s == [] then map[] else
      var rest := s[..|s| - 1];
      assert forall k :: 0 <= k < |rest| ==> rest[k] == s[k];
      Timers(rest)[s[|s| - 1].h := s[|s| - 1].t]
  }

  lemma EntriesAreTimers(s: seq<Entry>, h: Handle?, t: Time)
    requires Once(s)
    ensures Entry(t, h) in multiset(s) <==> h in Timers(s) && Timers(s)[h] == t
  {
    if Entry(t, h) in multiset(s) {
      assert Entry(t, h) in s;
    }
  }

  /** A handle that is put in gets its time, and no other handle's time changes. */
  lemma InsertedTimer(s: seq<Entry>, s': seq<Entry>, e: Entry)
    requires Once(s) && Once(s') && multiset(s') == multiset(s) + multiset{e} && e.h !in Timers(s)
    ensures Timers(s') == Timers(s)[e.h := e.t]
  {
    forall h
      ensures h != e.h ==> (h in Timers(s') <==> h in Timers(s))
      ensures h != e.h && h in Timers(s) ==> h in Timers(s') && Timers(s')[h] == Timers(s)[h]
      ensures e.h in Timers(s') && Timers(s')[e.h] == e.t
    {
      SameTimer(s, s', e, h);
    }
    MapWith(Timers(s), Timers(s'), e.h, e.t);
  }

  lemma MapWith(m: map<Handle?, Time>, m': map<Handle?, Time>, h: Handle?, t: Time)
    requires forall g :: g != h ==> (g in m' <==> g in m) && (g in m ==> g in m' && m'[g] == m[g])
    requires h in m' && m'[h] == t
    ensures m' == m[h := t]
    ensures h !in m ==> m == m' - {h}
  {
  }

  lemma SameTimer(s: seq<Entry>, s': seq<Entry>, e: Entry, h: Handle?)
    requires Once(s) && Once(s') && multiset(s') == multiset(s) + multiset{e}
    ensures h != e.h ==> (h in Timers(s') <==> h in Timers(s))
    ensures h != e.h && h in Timers(s) ==> h in Timers(s') && Timers(s')[h] == Timers(s)[h]
    ensures e.h in Timers(s') && Timers(s')[e.h] == e.t
  {
    EntriesAreTimers(s', e.h, e.t);
    if h != e.h && h in Timers(s) {
      EntriesAreTimers(s, h, Timers(s)[h]);
      EntriesAreTimers(s', h, Timers(s)[h]);
    }
    if h != e.h && h in Timers(s') {
      EntriesAreTimers(s', h, Timers(s')[h]);
      EntriesAreTimers(s, h, Timers(s')[h]);
    }
  }

  /** A handle that is taken out is gone, and no other handle's time changes. */
  lemma RemovedTimer(s: seq<Entry>, s': seq<Entry>, e: Entry)
    requires Once(s) && Once(s') && multiset(s') == multiset(s) - multiset{e} && e in multiset(s)
    ensures Timers(s') == Timers(s) - {e.h}
  {
    assert multiset(s) == multiset(s') + multiset{e};
    NotTwice(s, s', e);
    InsertedTimer(s', s, e);
    MapWith(Timers(s'), Timers(s), e.h, e.t);
  }

  lemma Without(s: seq<Entry>, i: nat, rest: seq<Entry>)
    requires Once(s) && i < |s| && rest == s[..i] + s[i + 1..]
    ensures Once(rest) && multiset(s) == multiset(rest) + multiset{s[i]}
  {
    assert s == s[..i] + [s[i]] + s[i + 1..];
  }

  /** A handle whose time is changed has the new time, and no other handle's time changes. */
  lemma ChangedTimer(s: seq<Entry>, s': seq<Entry>, i: nat, t: Time)
    requires Once(s) && Once(s') && i < |s| && multiset(s') == multiset(s) - multiset{s[i]} + multiset{Entry(t, s[i].h)}
    ensures Timers(s') == Timers(s)[s[i].h := t]
  {
    var rest := s[..i] + s[i + 1..];
    var e := s[i];
    Without(s, i, rest);
    Taken(multiset(s), multiset(rest), e);
    RemovedTimer(s, rest, e);
    InsertedTimer(rest, s', Entry(t, e.h));
    PutAgain(Timers(s), e.h, t);
  }

  lemma Taken(s: multiset<Entry>, rest: multiset<Entry>, e: Entry)
    requires s == rest + multiset{e}
    ensures rest == s - multiset{e} && e in s
  {
  }

  lemma PutAgain(m: map<Handle?, Time>, h: Handle?, t: Time)
    ensures (m - {h})[h := t] == m[h := t]
  {
  }

  lemma NotTwice(s: seq<Entry>, s': seq<Entry>, e: Entry)
    requires Once(s) && Once(s') && multiset(s) == multiset(s') + multiset{e}
    ensures e.h !in Timers(s')
  {
    if e.h in Timers(s') {
      var f := Entry(Timers(s')[e.h], e.h);
      EntriesAreTimers(s', f.h, f.t);
      EntriesAreTimers(s, f.h, f.t);
      EntriesAreTimers(s, e.h, e.t);
      assert multiset(s)[e] >= 2;
      OnceInMultiset(s, e);
    }
  }

  lemma OnceInMultiset(s: seq<Entry>, e: Entry)
    requires Once(s)
    ensures multiset(s)[e] <= 1
  {
    if k: nat :| k < |s| && s[k] == e {
      assert s == s[..k] + [e] + s[k + 1..];
      assert e !in s[..k] && e !in s[k + 1..];
    } else {
      assert e !in s;
    }
  }

  lemma SameMembers(s: seq<Entry>, r: seq<Entry>)
    requires multiset(s) == multiset(r)
    ensures forall k :: 0 <= k < |r| ==> r[k] in s
  {
    forall k | 0 <= k < |r|
      ensures r[k] in s
    {
      assert r[k] in multiset(r);
    }
  }

  lemma NoneLeft(s: seq<Entry>, i: nat)
    requires |s| == 1 && i < 1
    ensures Filled(s, i) == [] && multiset(s) - multiset{s[i]} == multiset([])
  {
    assert s == [s[0]];
  }

  /** The last entry moves to place i. */
  function Filled(s: seq<Entry>, i: nat): seq<Entry>
    requires i < |s|
  {
    s[i := s[|s| - 1]][..|s| - 1]
  }

  lemma AppendEntry(s: seq<Entry>, e: Entry)
    requires Heap(s)
    ensures HeapAbove(s + [e], |s|)
  {
    forall k: nat | 0 < k < |s|
      ensures Ordered(s + [e], k)
    {
      assert Ordered(s, k);
    }
  }

  lemma RemoveEntry(s: seq<Entry>, i: nat)
    requires Heap(s) && i < |s|
    ensures multiset(Filled(s, i)) == multiset(s) - multiset{s[i]}
    ensures forall e :: e in Filled(s, i) ==> e in s
    ensures i < |s| - 1 && Before(s[|s| - 1].t, s[i].t) ==> HeapAbove(Filled(s, i), i)
    ensures !Before(s[|s| - 1].t, s[i].t) ==> HeapBelow(Filled(s, i), i)
  {
    var last := |s| - 1;
    assert s == s[..last] + [s[last]];
    assert Filled(s, i) == if i < last then s[..last][i := s[last]] else s[..last];
    HeapTake(s, last);
    if i < last {
      PutEntry(s[..last], i, s[last]);
    }
  }
}
