/** Finite lists without repetition and the cardinality facts the other modules count with. */
module Lists {
  datatype Option<T> = None | Some(value: T)

  ghost predicate NoDup<T>(s: seq<T>) {
    forall a, b :: 0 <= a < b < |s| ==> s[a] != s[b]
  }

  function Elems<T>(s: seq<T>): set<T> {
    set x | x in s
  }

  function Range(n: nat): (r: set<nat>)
    ensures forall i: nat :: i in r <==> i < n
    ensures |r| == n
  {
    if n == 0 then {} else Range(n - 1) + {n - 1}
  }

  predicate Bounded(s: set<nat>, n: nat) {
    forall i :: i in s ==> i < n
  }

  /** Unlinks x from the list, as BTPDQ_REMOVE does; a list that lacks x is returned as it is. */
  function Remove<T(==)>(s: seq<T>, x: T): (r: seq<T>) {
    if s == [] then []
    else if s[0] == x then s[1..]
    else [s[0]] + Remove(s[1..], x)
  }

  lemma {:induction false} RemoveMembers<T>(s: seq<T>, x: T)
    requires NoDup(s)
    ensures NoDup(Remove(s, x))
    ensures forall y :: y in Remove(s, x) <==> y in s && y != x
    ensures |Remove(s, x)| == if x in s then |s| - 1 else |s|
    ensures x !in s ==> Remove(s, x) == s
  {
    if s == [] {
    } else {
      var t := s[1..];
      RemoveMembers(t, x);
      assert s == [s[0]] + t;
      assert s[0] !in t;
      if s[0] != x {
        assert Remove(s, x) == [s[0]] + Remove(t, x);
        NoDupCons(s[0], Remove(t, x));
      }
    }
  }

  lemma LastOff<T>(s: seq<T>)
    requires s != []
    ensures s == s[..|s| - 1] + [s[|s| - 1]]
  {
  }

  lemma TakeAll<T>(s: seq<T>)
    ensures s[..|s|] == s
  {
  }

  lemma {:induction false} RemoveCounts<T>(s: seq<T>, x: T)
    requires x in s
    ensures multiset(s) == multiset(Remove(s, x)) + multiset{x}
  {
    assert s == [s[0]] + s[1..];
    if s[0] != x {
      RemoveCounts(s[1..], x);
      assert Remove(s, x) == [s[0]] + Remove(s[1..], x);
    }
  }

  lemma NoDupCons<T>(x: T, s: seq<T>)
    requires NoDup(s) && x !in s
    ensures NoDup([x] + s)
  {
  }

  lemma {:induction false} NoDupCard<T>(s: seq<T>)
    requires NoDup(s)
    ensures |Elems(s)| == |s|
  {
    if s == [] {
    } else {
      NoDupCard(s[1..]);
      assert Elems(s) == {s[0]} + Elems(s[1..]);
    }
  }

  lemma {:induction false} SubsetCard<T>(a: set<T>, b: set<T>)
    requires a <= b
    ensures |a| <= |b|
    ensures |a| == |b| ==> a == b
  {
    if x :| x in a {
      SubsetCard(a - {x}, b - {x});
      assert a == (a - {x}) + {x} && b == (b - {x}) + {x};
    }
  }

  /** Growing a set by one element grows its intersection with another by one exactly when the other has it. */
  lemma MeetGrow<T>(a: set<T>, w: set<T>, x: T)
    requires x !in w
    ensures |a * (w + {x})| == |a * w| + (if x in a then 1 else 0)
  {
    if x in a {
      assert a * (w + {x}) == a * w + {x};
    } else {
      assert a * (w + {x}) == a * w;
    }
  }

  lemma PutBack<T>(w: set<T>, x: T)
    requires x in w
    ensures w + {x} == w && (w - {x}) + {x} == w
    ensures w - {x} == {} ==> w == {x}
  {
  }

  lemma TakeOut<T>(w: set<T>, x: T)
    requires x !in w
    ensures (w + {x}) - {x} == w
    ensures w != {} ==> w + {x} != {x}
  {
    if y :| y in w {
      assert y in w + {x} && y !in {x};
    }
  }

  lemma SplitAt<T>(s: seq<T>, k: nat)
    requires k < |s|
    ensures s == s[..k] + s[k..] && s[k..][0] == s[k] && s[k..][1..] == s[k + 1..]
  {
  }

  lemma TakeNext<T>(s: seq<T>, k: nat)
    requires k < |s|
    ensures s[..k + 1] == s[..k] + [s[k]]
  {
  }

  /** Removing the k-th element of a list without repetition. */
  lemma {:induction false} RemoveAt<T>(s: seq<T>, k: nat)
    requires NoDup(s) && k < |s|
    ensures Remove(s, s[k]) == s[..k] + s[k + 1..]
  {
    if k == 0 {
    } else {
      assert s[0] != s[k];
      RemoveAt(s[1..], k - 1);
      CutBehindFirst(s, k);
    }
  }

  lemma CutBehindFirst<T>(s: seq<T>, k: nat)
    requires 0 < k < |s|
    ensures s[..k] + s[k + 1..] == [s[0]] + (s[1..][..k - 1] + s[1..][k..])
  {
  }

  lemma PutSame<K, V>(m: map<K, V>, k: K)
    requires k in m
    ensures m[k := m[k]] == m
  {
  }

  lemma NotThere<T>(w: set<T>, x: T)
    requires x !in w
    ensures w - {x} == w
  {
  }

  lemma RemoveElems<T>(s: seq<T>, x: T)
    requires NoDup(s)
    ensures NoDup(Remove(s, x)) && Elems(Remove(s, x)) == Elems(s) - {x}
  {
    RemoveMembers(s, x);
    var t := Remove(s, x);
    forall y | y in Elems(t)
      ensures y in Elems(s) - {x}
    {
      assert y in t;
    }
    forall y | y in Elems(s) - {x}
      ensures y in Elems(t)
    {
      assert y in s && y != x;
      assert y in t;
    }
    assert Elems(t) == Elems(s) - {x};
  }

  lemma OneMore<T>(w: set<T>, x: T)
    requires x !in w
    ensures |w + {x}| == |w| + 1
  {
  }

  lemma OneLess<T>(w: set<T>, x: T)
    requires x in w
    ensures |w - {x}| == |w| - 1
  {
    assert w == (w - {x}) + {x};
  }

  // ---------- Concatenation ----------

  /** What f makes of each element, one after another. */
  function Joined<T, U>(f: T -> seq<U>, s: seq<T>): seq<U> {
    if s == [] then [] else f(s[0]) + Joined(f, s[1..])
  }

  lemma Associative<T>(a: seq<T>, b: seq<T>, c: seq<T>)
    ensures a + b + c == a + (b + c)
  {
  }

  lemma {:induction false} JoinedPlus<T, U>(f: T -> seq<U>, a: seq<T>, b: seq<T>)
    ensures Joined(f, a + b) == Joined(f, a) + Joined(f, b)
  {
    if a == [] {
      assert a + b == b;
    } else {
      JoinedPlus(f, a[1..], b);
      assert (a + b)[1..] == a[1..] + b && (a + b)[0] == a[0];
      Associative(f(a[0]), Joined(f, a[1..]), Joined(f, b));
    }
  }

  lemma JoinedOne<T, U>(f: T -> seq<U>, x: T)
    ensures Joined(f, [x]) == f(x)
  {
    assert [x] == [x] + [];
    assert Joined(f, [x]) == f(x) + Joined(f, []);
    assert f(x) + [] == f(x);
  }

  function Same<T>(s: seq<T>): seq<T> {
    s
  }

  /** The elements of all lists in order. */
  function Flat<T>(ss: seq<seq<T>>): seq<T> {
    Joined(Same, ss)
  }
}
