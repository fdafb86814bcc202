/** A chained hash table in which later entries hide earlier ones (misc/hashtable.c). */
module HashTables {
  import opened Lists

  /** An entry; entries with the same key may differ. */
  datatype Obj<K> = Obj(key: K, id: nat)

  type Chains<K> = seq<seq<Obj<K>>>

  function Bucket<K>(hash: K -> nat, key: K, n: nat): (i: nat)
    requires n > 0
    ensures i < n
  {
    hash(key) % n
  }

  function IsKey<K(==)>(key: K, o: Obj<K>): seq<Obj<K>> {
    if o.key == key then [o] else []
  }

  /** The entries for a key in a chain, in order. */
  function OfKey<K(==)>(chain: seq<Obj<K>>, key: K): seq<Obj<K>> {
    Joined(o => IsKey(key, o), chain)
  }

  lemma OfKeyPlus<K>(a: seq<Obj<K>>, b: seq<Obj<K>>, key: K)
    ensures OfKey(a + b, key) == OfKey(a, key) + OfKey(b, key)
  {
    JoinedPlus(o => IsKey(key, o), a, b);
  }

  lemma OfKeyOne<K>(o: Obj<K>, key: K)
    ensures OfKey([o], key) == if o.key == key then [o] else []
  {
    JoinedOne(x => IsKey(key, x), o);
  }

  /** Every entry is in the bucket of its key. */
  ghost predicate Placed<K(!new)>(hash: K -> nat, bs: Chains<K>) {
    |bs| > 0 && forall i, o :: 0 <= i < |bs| && o in bs[i] ==> hash(o.key) % |bs| == i
  }

  /** What the table holds for a key, the latest entry first: the table as a map with shadowing. */
  function Stack<K(==)>(hash: K -> nat, bs: Chains<K>, key: K): seq<Obj<K>>
    requires |bs| > 0
  {
    OfKey(bs[Bucket(hash, key, |bs|)], key)
  }

  lemma FlatAt<K>(bs: Chains<K>, i: nat)
    requires i < |bs|
    ensures Flat(bs) == Flat(bs[..i]) + bs[i] + Flat(bs[i + 1..])
  {
    assert bs == bs[..i] + ([bs[i]] + bs[i + 1..]);
    JoinedPlus(Same, bs[..i], [bs[i]] + bs[i + 1..]);
    JoinedPlus(Same, [bs[i]], bs[i + 1..]);
    JoinedOne(Same, bs[i]);
  }

  /** The number of entries changes as one chain does. */
  lemma FlatPut<K>(bs: Chains<K>, i: nat, chain: seq<Obj<K>>)
    requires i < |bs|
    ensures Flat(bs[i := chain]) == Flat(bs[..i]) + chain + Flat(bs[i + 1..])
    ensures |Flat(bs[i := chain])| == |Flat(bs)| - |bs[i]| + |chain|
  {
    FlatAt(bs, i);
    FlatAt(bs[i := chain], i);
    assert bs[i := chain][..i] == bs[..i] && bs[i := chain][i + 1..] == bs[i + 1..];
  }

  // ---------- Growing ----------

  function Reversed<T(!new)>(s: seq<T>): (r: seq<T>)
    ensures |r| == |s|
    ensures forall x :: x in r <==> x in s
  {
    if s == [] then [] else Reversed(s[1..]) + [s[0]]
  }

  lemma {:induction false} ReversedLast<T(!new)>(s: seq<T>)
    requires s != []
    ensures Reversed(s) == [s[|s| - 1]] + Reversed(s[..|s| - 1])
  {
    if |s| > 1 {
      ReversedLast(s[1..]);
      assert s[1..][..|s| - 2] == s[..|s| - 1][1..];
    }
  }

  /** bucket_rev: the chain n, reversed, before p. */
  method BucketRev<K(!new)>(first: seq<Obj<K>>, chain: seq<Obj<K>>) returns (p: seq<Obj<K>>)
    ensures p == Reversed(chain) + first
  {
    var n := chain;
    p := first;
    while n != []
      invariant Reversed(n) + p == Reversed(chain) + first
    {
      assert Reversed(n) + p == Reversed(n[1..]) + ([n[0]] + p);
      p := [n[0]] + p;
      n := n[1..];
    }
  }

  /**
   Half way through the growth: the entries of the first i old chains, and of chain i those behind
   the first k, are in the new chains; the entries for a key are in the order they had.
   */
  ghost predicate Moved<K(!new)>(hash: K -> nat, was: Chains<K>, now: Chains<K>, i: nat, k: nat) {
    && Placed(hash, was) && Placed(hash, now) && i <= |was|
    && (i < |was| ==> k <= |was[i]|)
    && |Flat(now)| == |Flat(was[..i])| + (if i < |was| then |was[i]| - k else 0)
    && forall key: K :: Stack(hash, now, key) == MovedStack(hash, was, i, k, key)
  }

  ghost function MovedStack<K>(hash: K -> nat, was: Chains<K>, i: nat, k: nat, key: K): seq<Obj<K>>
    requires |was| > 0 && i <= |was| && (i < |was| ==> k <= |was[i]|)
  {
    var b := Bucket(hash, key, |was|);
    if b < i then OfKey(was[b], key) else if b == i then OfKey(was[b][k..], key) else []
  }

  /** bucket_insert, on the chains. */
  function Inserted<K>(hash: K -> nat, bs: Chains<K>, o: Obj<K>): (r: Chains<K>)
    requires |bs| > 0
    ensures |r| == |bs|
  {
    var b := Bucket(hash, o.key, |bs|);
    bs[b := [o] + bs[b]]
  }

  /** The new entry hides those with the same key, and no others. */
  lemma InsertStacks<K(!new)>(hash: K -> nat, bs: Chains<K>, o: Obj<K>)
    requires Placed(hash, bs)
    ensures Placed(hash, Inserted(hash, bs, o))
    ensures forall key: K ::
      Stack(hash, Inserted(hash, bs, o), key) == (if o.key == key then [o] else []) + Stack(hash, bs, key)
    ensures |Flat(Inserted(hash, bs, o))| == |Flat(bs)| + 1
  {
    var b := Bucket(hash, o.key, |bs|);
    FlatPut(bs, b, [o] + bs[b]);
    forall key: K
      ensures Stack(hash, Inserted(hash, bs, o), key) == (if o.key == key then [o] else []) + Stack(hash, bs, key)
    {
      OfKeyPlus([o], bs[b], key);
      OfKeyOne(o, key);
    }
  }

  lemma MoveStep<K(!new)>(hash: K -> nat, was: Chains<K>, now: Chains<K>, i: nat, k: nat)
    requires Moved(hash, was, now, i, k) && i < |was| && k > 0
    ensures Moved(hash, was, Inserted(hash, now, was[i][k - 1]), i, k - 1)
  {
    var o := was[i][k - 1];
    InsertStacks(hash, now, o);
    assert was[i][k - 1..] == [o] + was[i][k..];
    forall key: K
      ensures Stack(hash, Inserted(hash, now, o), key) == MovedStack(hash, was, i, k - 1, key)
    {
      OfKeyPlus([o], was[i][k..], key);
      OfKeyOne(o, key);
      assert Stack(hash, now, key) == MovedStack(hash, was, i, k, key);
    }
  }

  lemma MoveNext<K(!new)>(hash: K -> nat, was: Chains<K>, now: Chains<K>, i: nat)
    requires Moved(hash, was, now, i, 0) && i < |was|
    ensures Moved(hash, was, now, i + 1, if i + 1 < |was| then |was[i + 1]| else 0)
  {
    var k := if i + 1 < |was| then |was[i + 1]| else 0;
    assert was[..i + 1][..i] == was[..i] && was[..i + 1][i + 1..] == [];
    FlatAt(was[..i + 1], i);
    forall key: K
      ensures Stack(hash, now, key) == MovedStack(hash, was, i + 1, k, key)
    {
      assert Stack(hash, now, key) == MovedStack(hash, was, i, 0, key);
      if i + 1 < |was| {
        assert was[i + 1][k..] == [];
      }
      assert was[i][0..] == was[i];
    }
  }

  lemma MoveStart<K(!new)>(hash: K -> nat, was: Chains<K>, now: Chains<K>)
    requires Placed(hash, was) && |now| > 0 && forall b :: 0 <= b < |now| ==> now[b] == []
    ensures Moved(hash, was, now, 0, |was[0]|)
  {
    NoEntries(now);
    assert was[..0] == [];
    assert was[0][|was[0]|..] == [];
    forall key: K
      ensures Stack(hash, now, key) == MovedStack(hash, was, 0, |was[0]|, key)
    {
      assert OfKey<K>([], key) == [];
    }
  }

  lemma {:induction false} NoEntries<K>(bs: Chains<K>)
    requires forall b :: 0 <= b < |bs| ==> bs[b] == []
    ensures Flat(bs) == []
  {
    if bs == [] {
    } else {
      NoEntries(bs[1..]);
      FlatAt(bs, 0);
      assert bs[..0] == [];
    }
  }

  /** After growth the table holds the same for every key, in the same order. */
  lemma MoveEnd<K(!new)>(hash: K -> nat, was: Chains<K>, now: Chains<K>)
    requires Moved(hash, was, now, |was|, 0)
    ensures Placed(hash, now) && |Flat(now)| == |Flat(was)|
    ensures forall key: K :: Stack(hash, now, key) == Stack(hash, was, key)
  {
    assert was[..|was|] == was;
    forall key: K
      ensures Stack(hash, now, key) == Stack(hash, was, key)
    {
      assert Stack(hash, now, key) == MovedStack(hash, was, |was|, 0, key);
    }
  }

  // ---------- Removing ----------

  /** The first entry for a key stands at position k of its chain. */
  ghost predicate FirstAt<K>(chain: seq<Obj<K>>, key: K, k: nat) {
    k < |chain| && chain[k].key == key && forall j :: 0 <= j < k ==> chain[j].key != key
  }

  lemma {:induction false} NoneOfKey<K>(chain: seq<Obj<K>>, key: K)
    requires forall o :: o in chain ==> o.key != key
    ensures OfKey(chain, key) == []
  {
    if chain == [] {
    } else {
      NoneOfKey(chain[1..], key);
    }
  }

  lemma FirstIsTop<K>(chain: seq<Obj<K>>, key: K, k: nat)
    requires FirstAt(chain, key, k)
    ensures OfKey(chain, key) == [chain[k]] + OfKey(chain[k + 1..], key)
    ensures OfKey(chain[..k] + chain[k + 1..], key) == OfKey(chain[k + 1..], key)
  {
    assert chain == chain[..k] + ([chain[k]] + chain[k + 1..]);
    NoneOfKey(chain[..k], key);
    OfKeyPlus(chain[..k], [chain[k]] + chain[k + 1..], key);
    OfKeyPlus([chain[k]], chain[k + 1..], key);
    OfKeyOne(chain[k], key);
    OfKeyPlus(chain[..k], chain[k + 1..], key);
  }

  lemma OthersStay<K>(chain: seq<Obj<K>>, k: nat, key: K)
    requires k < |chain| && chain[k].key != key
    ensures OfKey(chain[..k] + chain[k + 1..], key) == OfKey(chain, key)
  {
    assert chain == chain[..k] + ([chain[k]] + chain[k + 1..]);
    OfKeyPlus(chain[..k], [chain[k]] + chain[k + 1..], key);
    OfKeyPlus([chain[k]], chain[k + 1..], key);
    OfKeyOne(chain[k], key);
    OfKeyPlus(chain[..k], chain[k + 1..], key);
  }

  function Without<K>(bs: Chains<K>, b: nat, k: nat): Chains<K>
    requires b < |bs| && k < |bs[b]|
  {
    bs[b := bs[b][..k] + bs[b][k + 1..]]
  }

  /** Removing the first entry for a key uncovers the one before it; other keys are not touched. */
  lemma RemoveStacks<K(!new)>(hash: K -> nat, bs: Chains<K>, key: K, k: nat)
    requires Placed(hash, bs) && FirstAt(bs[Bucket(hash, key, |bs|)], key, k)
    ensures var r := Without(bs, Bucket(hash, key, |bs|), k);
      && Placed(hash, r) && |Flat(r)| == |Flat(bs)| - 1
      && Stack(hash, bs, key) == [bs[Bucket(hash, key, |bs|)][k]] + Stack(hash, r, key)
      && forall other: K :: other != key ==> Stack(hash, r, other) == Stack(hash, bs, other)
  {
    var b := Bucket(hash, key, |bs|);
    var r := Without(bs, b, k);
    FlatPut(bs, b, bs[b][..k] + bs[b][k + 1..]);
    FirstIsTop(bs[b], key, k);
    forall other: K | other != key
      ensures Stack(hash, r, other) == Stack(hash, bs, other)
    {
      OthersStay(bs[b], k, other);
    }
    forall i, o: Obj<K> | 0 <= i < |r| && o in r[i]
      ensures Bucket(hash, o.key, |r|) == i
    {
      assert o in bs[i];
    }
  }

  // ---------- The table ----------

  class HashTable<K(==, !new)> {
    const hash: K -> nat
    const ratio: real
    var buckets: array<seq<Obj<K>>>
    var size: nat

    ghost predicate Valid()
      reads this, buckets
    {
      Placed(hash, buckets[..]) && size == |Flat(buckets[..])|
    }

    /** _htbl_create */
    constructor (hash: K -> nat, ratio: real)
      ensures Valid() && fresh(buckets) && size == 0 && this.hash == hash && this.ratio == ratio
    {
      this.hash, this.ratio, size := hash, ratio, 0;
      buckets := new seq<Obj<K>>[1](_ => []);
      new;
      NoEntries(buckets[..]);
    }

    /** bucket_insert */
    method BucketInsert(o: Obj<K>)
      requires buckets.Length > 0
      modifies buckets
      ensures buckets[..] == Inserted(hash, old(buckets[..]), o)
    {
      var bi := Bucket(hash, o.key, buckets.Length);
      buckets[bi] := [o] + buckets[bi];
    }

    /** _htbl_grow: the entries move to more buckets, and for every key they are in the order they were. */
    method Grow()
      requires Valid()
      modifies this`buckets
      ensures Valid() && fresh(buckets) && buckets.Length == 2 * old(buckets.Length) + 1
      ensures forall key: K :: Stack(hash, buckets[..], key) == old(Stack(hash, buckets[..], key))
    {
      var obuckets := buckets;
      var ocnt := obuckets.Length;
      buckets := new seq<Obj<K>>[2 * ocnt + 1](_ => []);
      ghost var was := obuckets[..];
      MoveStart(hash, was, buckets[..]);
      var i := 0;
      while i < ocnt
        invariant i <= ocnt && obuckets[..] == was && obuckets.Length == ocnt && fresh(buckets) && buckets != obuckets
        invariant buckets.Length == 2 * ocnt + 1
        invariant Moved(hash, was, buckets[..], i, if i < ocnt then |was[i]| else 0)
        modifies this`buckets, buckets
      {
        MoveChain(was, i, obuckets[i]);
        MoveNext(hash, was, buckets[..], i);
        i := i + 1;
      }
      MoveEnd(hash, was, buckets[..]);
    }

    /** One chain of _htbl_grow: reversed first, so that inserting at the head restores its order. */
    method MoveChain(ghost was: Chains<K>, i: nat, chain: seq<Obj<K>>)
      requires i < |was| && was[i] == chain && Moved(hash, was, buckets[..], i, |chain|)
      modifies buckets
      ensures Moved(hash, was, buckets[..], i, 0)
    {
      var o := BucketRev([], chain);
      ghost var k: nat := |chain|;
      assert chain[..k] == chain;
      while o != []
        invariant k <= |chain| && o == Reversed(chain[..k]) && Moved(hash, was, buckets[..], i, k)
        decreases k
      {
        ReversedLast(chain[..k]);
        assert chain[..k][..k - 1] == chain[..k - 1];
        MoveStep(hash, was, buckets[..], i, k);
        var s := o[1..];
        BucketInsert(o[0]);
        o := s;
        k := k - 1;
      }
    }

    /** _htbl_insert: the new entry is what is found for its key from now on. */
    method Insert(o: Obj<K>)
      requires Valid()
      modifies this, buckets
      ensures Valid() && size == old(size) + 1
      ensures forall key: K ::
        Stack(hash, buckets[..], key) == (if o.key == key then [o] else []) + old(Stack(hash, buckets[..], key))
      ensures if size as real > old(buckets.Length) as real * ratio then buckets.Length == 2 * old(buckets.Length) + 1
              else buckets == old(buckets)
    {
      InsertStacks(hash, buckets[..], o);
      BucketInsert(o);
      size := size + 1;
      if size as real > buckets.Length as real * ratio {
        Grow();
      }
    }

    /** _htbl_find: the latest entry for the key. */
    method Find(key: K) returns (ret: Option<Obj<K>>)
      requires Valid()
      ensures var stack := Stack(hash, buckets[..], key);
        ret == if stack == [] then None else Some(stack[0])
    {
      var chain := buckets[Bucket(hash, key, buckets.Length)];
      var k := 0;
      while k < |chain|
        invariant k <= |chain| && forall j :: 0 <= j < k ==> chain[j].key != key
      {
        if chain[k].key == key {
          FirstIsTop(chain, key, k);
          return Some(chain[k]);
        }
        k := k + 1;
      }
      NoneOfKey(chain, key);
      ret := None;
    }

    /** _htbl_remove: the latest entry for the key goes, and the one before it comes into sight. */
    method Remove(key: K) returns (ret: Option<Obj<K>>)
      requires Valid()
      modifies this`size, buckets
      ensures Valid()
      ensures old(Stack(hash, buckets[..], key)) == [] ==>
        ret == None && size == old(size) && buckets[..] == old(buckets[..])
      ensures old(Stack(hash, buckets[..], key)) != [] ==>
        && ret == Some(old(Stack(hash, buckets[..], key))[0]) && size == old(size) - 1
        && Stack(hash, buckets[..], key) == old(Stack(hash, buckets[..], key))[1..]
        && forall other: K :: other != key ==> Stack(hash, buckets[..], other) == old(Stack(hash, buckets[..], other))
    {
      var bi := Bucket(hash, key, buckets.Length);
      var chain := buckets[bi];
      var k := 0;
      while k < |chain| && chain[k].key != key
        invariant k <= |chain| && forall j :: 0 <= j < k ==> chain[j].key != key
      {
        k := k + 1;
      }
      if k < |chain| {
        RemoveStacks(hash, buckets[..], key, k);
        ghost var bs := buckets[..];
        buckets[bi] := chain[..k] + chain[k + 1..];
        assert buckets[..] == Without(bs, bi, k);
        size := size - 1;
        ret := Some(chain[k]);
      } else {
        NoneOfKey(chain, key);
        ret := None;
      }
    }
  }

  // ---------- Iteration ----------

  /** Entry ci of bucket bi is entry number pos of all. */
  ghost predicate Stands<K>(bs: Chains<K>, bi: nat, ci: nat, pos: nat) {
    bi < |bs| && ci < |bs[bi]| && pos == |Flat(bs[..bi])| + ci
  }

  lemma StandsAt<K>(bs: Chains<K>, bi: nat, ci: nat, pos: nat)
    requires Stands(bs, bi, ci, pos)
    ensures pos < |Flat(bs)| && Flat(bs)[pos] == bs[bi][ci]
    ensures pos + 1 < |Flat(bs)| && ci + 1 == |bs[bi]| ==> |Flat(bs[..bi + 1])| == pos + 1 < |Flat(bs)|
  {
    FlatAt(bs, bi);
    assert bs[..bi + 1] == bs[..bi] + [bs[bi]];
    JoinedPlus(Same, bs[..bi], [bs[bi]]);
    JoinedOne(Same, bs[bi]);
  }

  /** An empty bucket is passed; there is another one as long as there are entries. */
  lemma PassEmpty<K>(bs: Chains<K>, bi: nat)
    requires bi <= |bs| && |Flat(bs[..bi])| < |Flat(bs)|
    ensures bi < |bs|
    ensures bs[bi] == [] ==> Flat(bs[..bi + 1]) == Flat(bs[..bi])
  {
    assert bs[..|bs|] == bs;
    assert bi < |bs|;
    assert bs[..bi + 1] == bs[..bi] + [bs[bi]];
    JoinedPlus(Same, bs[..bi], [bs[bi]]);
    JoinedOne(Same, bs[bi]);
  }

  /** Deleting an entry takes it out of the order and leaves the rest. */
  lemma DeleteAt<K(!new)>(hash: K -> nat, bs: Chains<K>, bi: nat, ci: nat, pos: nat)
    requires Placed(hash, bs) && Stands(bs, bi, ci, pos)
    ensures var r := Without(bs, bi, ci);
      && Placed(hash, r) && pos < |Flat(bs)| && Flat(r) == Flat(bs)[..pos] + Flat(bs)[pos + 1..]
      && |Flat(r[..bi])| == pos - ci && |Flat(r[..bi + 1])| == pos - ci + |bs[bi]| - 1
  {
    var r := Without(bs, bi, ci);
    FlatPut(bs, bi, bs[bi][..ci] + bs[bi][ci + 1..]);
    FlatAt(bs, bi);
    assert r[..bi] == bs[..bi] && r[..bi + 1] == bs[..bi] + [r[bi]];
    JoinedPlus(Same, bs[..bi], [r[bi]]);
    JoinedOne(Same, r[bi]);
    forall i, o: Obj<K> | 0 <= i < |r| && o in r[i]
      ensures Bucket(hash, o.key, |r|) == i
    {
      assert o in bs[i];
    }
  }

  /** struct htbl_iter: obj is entry ci of bucket bi, and ptr what points to it. */
  class Iter<K(==, !new)> {
    const tbl: HashTable<K>
    var cnt: nat
    var bi: nat
    var ci: nat

    ghost predicate Valid()
      reads this, tbl, tbl.buckets
    {
      tbl.Valid() && cnt > 0 && Stands(tbl.buckets[..], bi, ci, cnt - 1)
    }

    constructor (tbl: HashTable<K>)
      ensures this.tbl == tbl
    {
      this.tbl := tbl;
      cnt, bi, ci := 0, 0, 0;
    }

    /** iter_next_bucket: it stays within the buckets. */
    method NextBucket()
      requires tbl.Valid() && bi <= tbl.buckets.Length && |Flat(tbl.buckets[..bi])| == cnt - 1 < |Flat(tbl.buckets[..])|
      modifies this`bi, this`ci
      ensures Valid() && ci == 0
    {
      ghost var bs := tbl.buckets[..];
      PassEmpty(bs, bi);
      while tbl.buckets[bi] == []
        invariant bi < |bs| && bs == tbl.buckets[..] && tbl.Valid() && |Flat(bs[..bi])| == cnt - 1 < |Flat(bs)|
        decreases |bs| - bi
      {
        PassEmpty(bs, bi);
        bi := bi + 1;
        PassEmpty(bs, bi);
      }
      ci := 0;
      assert bs[bi] != [];
    }

    /** _htbl_iter_first */
    method First() returns (o: Option<Obj<K>>)
      requires tbl.Valid()
      modifies this
      ensures o == None <==> Flat(tbl.buckets[..]) == []
      ensures o.Some? ==> Valid() && cnt == 1 && o.value == Flat(tbl.buckets[..])[0]
    {
      if tbl.size == 0 {
        return None;
      }
      cnt := 1;
      bi := 0;
      assert tbl.buckets[..0] == [];
      NextBucket();
      StandsAt(tbl.buckets[..], bi, ci, 0);
      o := Some(tbl.buckets[bi][ci]);
    }

    /** _htbl_iter_next */
    method Next() returns (o: Option<Obj<K>>)
      requires Valid()
      modifies this
      ensures o == None <==> old(cnt) == |Flat(tbl.buckets[..])|
      ensures o.Some? ==>
        Valid() && cnt == old(cnt) + 1 <= |Flat(tbl.buckets[..])| && o.value == Flat(tbl.buckets[..])[cnt - 1]
      ensures o == None ==> cnt == old(cnt)
    {
      ghost var bs := tbl.buckets[..];
      StandsAt(bs, bi, ci, cnt - 1);
      if cnt == tbl.size {
        return None;
      }
      cnt := cnt + 1;
      if ci + 1 < |tbl.buckets[bi]| {
        ci := ci + 1;
      } else {
        assert bs[..bi + 1] == tbl.buckets[..bi + 1];
        bi := bi + 1;
        NextBucket();
      }
      StandsAt(bs, bi, ci, cnt - 1);
      o := Some(tbl.buckets[bi][ci]);
    }

    /** _htbl_iter_del: the current entry goes and the next one takes its place. */
    method Del() returns (o: Option<Obj<K>>)
      requires Valid()
      modifies this, tbl`size, tbl.buckets
      ensures tbl.Valid() && cnt == old(cnt)
      ensures 0 < cnt <= |old(Flat(tbl.buckets[..]))|
      ensures Flat(tbl.buckets[..]) == old(Flat(tbl.buckets[..]))[..cnt - 1] + old(Flat(tbl.buckets[..]))[cnt..]
      ensures o == None <==> old(cnt) == |old(Flat(tbl.buckets[..]))|
      ensures o.Some? ==> Valid() && cnt <= |Flat(tbl.buckets[..])| && o.value == Flat(tbl.buckets[..])[cnt - 1]
    {
      ghost var bs := tbl.buckets[..];
      var chain := tbl.buckets[bi];
      StandsAt(bs, bi, ci, cnt - 1);
      DeleteAt(tbl.hash, bs, bi, ci, cnt - 1);
      tbl.size := tbl.size - 1;
      tbl.buckets[bi] := chain[..ci] + chain[ci + 1..];
      assert tbl.buckets[..] == Without(bs, bi, ci);
      if cnt > tbl.size {
        return None;
      }
      if ci + 1 == |chain| {
        assert tbl.buckets[..bi + 1] == Without(bs, bi, ci)[..bi + 1];
        bi := bi + 1;
        NextBucket();
      }
      StandsAt(tbl.buckets[..], bi, ci, cnt - 1);
      o := Some(tbl.buckets[bi][ci]);
    }

    /** A whole iteration, deleting what is to be dropped: every entry is visited once, the others stay. */
    method Sweep(drop: Obj<K> -> bool) returns (visited: seq<Obj<K>>)
      requires tbl.Valid()
      modifies this, tbl`size, tbl.buckets
      ensures tbl.Valid() && visited == old(Flat(tbl.buckets[..]))
      ensures Flat(tbl.buckets[..]) == Joined((o: Obj<K>) => if drop(o) then [] else [o], visited)
    {
      ghost var all := Flat(tbl.buckets[..]);
      ghost var keep := (o: Obj<K>) => if drop(o) then [] else [o];
      visited := [];
      var o := First();
      while o.Some?
        invariant tbl.Valid() && tbl.buckets == old(tbl.buckets)
        invariant o == None ==> visited == all && Flat(tbl.buckets[..]) == Joined(keep, all)
        invariant o.Some? ==> Valid() && Swept(keep, all, visited, Flat(tbl.buckets[..]), o.value, cnt - 1)
        decreases |all| - |visited|, o
      {
        visited := visited + [o.value];
        assert visited[..|visited| - 1] + [o.value] == visited;
        o := Turn(drop, o.value, keep, all, visited);
      }
    }

    /** One turn of the iteration. */
    method Turn(drop: Obj<K> -> bool, o: Obj<K>, ghost keep: Obj<K> -> seq<Obj<K>>, ghost all: seq<Obj<K>>,
                ghost v: seq<Obj<K>>)
        returns (next: Option<Obj<K>>)
      requires Valid() && keep(o) == (if drop(o) then [] else [o])
      requires v != [] && Swept(keep, all, v[..|v| - 1], Flat(tbl.buckets[..]), o, cnt - 1) && v[|v| - 1] == o
      modifies this, tbl`size, tbl.buckets
      ensures tbl.Valid()
      ensures next == None ==> v == all && Flat(tbl.buckets[..]) == Joined(keep, all)
      ensures next.Some? ==> Valid() && Swept(keep, all, v, Flat(tbl.buckets[..]), next.value, cnt - 1)
    {
      ghost var now := Flat(tbl.buckets[..]);
      assert v[..|v| - 1] + [o] == v;
      SweepStep(keep, all, v[..|v| - 1], now, o, cnt - 1);
      if drop(o) {
        next := Del();
      } else {
        next := Next();
      }
    }
  }

  /** visited are the first entries; of them those to keep come first now, then the current one. */
  ghost predicate Swept<K>(keep: Obj<K> -> seq<Obj<K>>, all: seq<Obj<K>>, visited: seq<Obj<K>>, now: seq<Obj<K>>,
                           o: Obj<K>, pos: nat) {
    && |visited| < |all| && visited == all[..|visited|]
    && now == Joined(keep, visited) + all[|visited|..] && |Joined(keep, visited)| == pos
    && o == all[|visited|]
  }

  lemma SweepStep<K>(keep: Obj<K> -> seq<Obj<K>>, all: seq<Obj<K>>, visited: seq<Obj<K>>, now: seq<Obj<K>>,
                     o: Obj<K>, pos: nat)
    requires Swept(keep, all, visited, now, o, pos) && (keep(o) == [] || keep(o) == [o])
    ensures pos < |now| && now[pos] == o
    ensures var left := if keep(o) == [] then now[..pos] + now[pos + 1..] else now;
      SweptNext(keep, all, visited + [o], left, pos + |keep(o)|)
  {
    var a, rest := Joined(keep, visited), all[|visited| + 1..];
    JoinedPlus(keep, visited, [o]);
    JoinedOne(keep, o);
    OneOn(all, |visited|);
    assert now == a + ([o] + rest);
    StepOver(a, o, rest, keep(o));
  }

  /** What is left at place next, when v was visited, is the entry to visit next, if there is one. */
  ghost predicate SweptNext<K>(keep: Obj<K> -> seq<Obj<K>>, all: seq<Obj<K>>, v: seq<Obj<K>>, left: seq<Obj<K>>,
                               next: nat) {
    && |v| <= |all| && v == all[..|v|] && left == Joined(keep, v) + all[|v|..] && |Joined(keep, v)| == next
    && (|v| < |all| <==> next < |left|)
    && (next < |left| ==> Swept(keep, all, v, left, left[next], next))
    && (|v| == |all| ==> v == all && left == Joined(keep, all))
  }

  lemma OneOn<T>(all: seq<T>, n: nat)
    requires n < |all|
    ensures all[n..] == [all[n]] + all[n + 1..] && all[..n + 1] == all[..n] + [all[n]]
    ensures n + 1 == |all| ==> all[..n + 1] == all && all[n + 1..] == []
    ensures n + 1 < |all| ==> all[n + 1..][0] == all[n + 1]
  {
  }

  /** The element after a stays or goes, and the rest follows. */
  lemma StepOver<T>(a: seq<T>, o: T, rest: seq<T>, kept: seq<T>)
    requires kept == [] || kept == [o]
    ensures var now := a + ([o] + rest);
      var left := if kept == [] then now[..|a|] + now[|a| + 1..] else now;
      && now[|a|] == o && left == a + kept + rest && |left| == |a| + |kept| + |rest|
      && (rest == [] ==> left == a + kept) && (rest != [] ==> left[|a| + |kept|] == rest[0])
  {
    var now := a + ([o] + rest);
    if kept == [] {
      assert now[..|a|] == a && now[|a| + 1..] == rest && a + kept == a;
    } else {
      assert now == a + kept + rest;
    }
  }
}
