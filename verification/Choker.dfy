/** Who is unchoked (btpd/upload.c). */
module Choker {
  import opened Lists

  /** What the choker looks at, and the choke flag it sets. */
  datatype Peer = Peer(wants: bool, choked: bool, full: bool, seeding: bool, activeDown: bool, rateUp: nat,
    rateDown: nat)

  type Peers = map<nat, Peer>

  /** What rate_cmp compares: what the peer takes when we seed, what it gives when we do not. */
  function Rate(p: Peer): nat {
    if p.seeding then p.rateUp / 2 else p.rateDown
  }

  /** A peer that the rates may choose. */
  predicate Worthy(p: Peer) {
    !p.full && if p.seeding then p.rateUp > 0 else p.activeDown && p.rateDown > 0
  }

  predicate Known(q: seq<nat>, peers: Peers) {
    forall p :: p in q ==> p in peers
  }

  /** Only choke flags of peers in the queue differ. */
  ghost predicate OnlyChokes(q: seq<nat>, before: Peers, now: Peers) {
    && now.Keys == before.Keys
    && forall p :: p in before ==>
         && p in now && now[p] == before[p].(choked := now[p].choked)
         && (p !in q ==> now[p] == before[p])
  }

  /** The interested peers among these. */
  ghost function Interested(s: set<nat>, peers: Peers): set<nat> {
    set p | p in s && p in peers && peers[p].wants
  }

  /** The interested peers in the queue that are not choked. */
  ghost function Served(q: seq<nat>, peers: Peers): set<nat> {
    set p | p in q && p in peers && peers[p].wants && !peers[p].choked
  }

  /** Rates do not go down. */
  ghost predicate Ascending(s: seq<nat>, peers: Peers)
    requires Known(s, peers)
  {
    forall a, b :: 0 <= a < b < |s| ==> Rate(peers[s[a]]) <= Rate(peers[s[b]])
  }

  /** A peer that lacks something and to which, or from which when we do not seed, bytes are flowing. */
  ghost predicate Flowing(p: Peer) {
    !p.full && (p.seeding ==> p.rateUp > 0) && (!p.seeding ==> p.activeDown && p.rateDown > 0)
  }

  /** The first is not faster: half of what a peer takes counts when we seed, what it gives when we do not. */
  ghost predicate NotFaster(a: Peer, b: Peer) {
    (if a.seeding then a.rateUp / 2 else a.rateDown) <= (if b.seeding then b.rateUp / 2 else b.rateDown)
  }

  /**
   The rate pass: picked are the fastest of the peers in flow, so many that one slot is left among
   the interested.
   */
  ghost predicate RatePass(q: seq<nat>, peers: Peers, picked: set<nat>, m: nat)
    requires Known(q, peers)
  {
    && (forall p :: p in picked ==> p in q && Flowing(peers[p]))
    && (forall p, w :: p in picked && w in q && Flowing(peers[w]) && w !in picked ==> NotFaster(peers[w], peers[p]))
    && |Interested(picked, peers)| < m
    && ((exists w :: w in q && Flowing(peers[w]) && w !in picked) ==> |Interested(picked, peers)| == m - 1)
  }

  /** Some interested peer that is not full is choked. */
  ghost predicate OneWaits(q: seq<nat>, peers: Peers) {
    exists p :: p in q && p in peers && peers[p].wants && !peers[p].full && peers[p].choked
  }

  /** The outcome of choke_do: chokes are set for all peers in the queue, and no slot stays empty while one waits. */
  ghost predicate Rechoked(q: seq<nat>, before: Peers, now: Peers, m: int) {
    && Known(q, before) && OnlyChokes(q, before, now)
    && (m < 0 ==> forall p :: p in q ==> !now[p].choked)
    && (m == 0 ==> forall p :: p in q ==> now[p].choked)
    && (m > 0 ==>
         && (exists picked :: RatePass(q, before, picked, m) && Slots(q, before, now, picked, m))
         && (OneWaits(q, now) ==> |Served(q, now)| == m)
         && forall p :: p in q && now[p].full ==> now[p].choked)
  }

  /** The interested peers served before place k, in the order of the queue after the picked ones. */
  function Found(q: seq<nat>, peers: Peers, picked: set<nat>, found: nat, m: nat, k: nat): nat
    requires k <= |q| && Known(q, peers)
  {
    if k == 0 then found
    else
      var f := Found(q, peers, picked, found, m, k - 1);
      var p := q[k - 1];
      if p !in picked && !peers[p].full && f < m && peers[p].wants then f + 1 else f
  }

  /** Who has a slot: the picked peers, and in the order of the queue those that are not full while slots are left. */
  predicate Slot(q: seq<nat>, peers: Peers, picked: set<nat>, found: nat, m: nat, k: nat)
    requires k < |q| && Known(q, peers)
  {
    q[k] in picked || (!peers[q[k]].full && Found(q, peers, picked, found, m, k) < m)
  }

  ghost predicate ChokedRight(q: seq<nat>, before: Peers, now: Peers, picked: set<nat>, found: nat, m: nat, k: nat)
    requires k < |q| && Known(q, before) && OnlyChokes(q, before, now)
  {
    now[q[k]].choked == !Slot(q, before, picked, found, m, k)
  }

  /** Chokes are as the slots say. */
  ghost predicate Slots(q: seq<nat>, before: Peers, now: Peers, picked: set<nat>, m: nat)
    requires Known(q, before)
  {
    && OnlyChokes(q, before, now)
    && forall k :: 0 <= k < |q| ==> ChokedRight(q, before, now, picked, |Interested(picked, before)|, m, k)
  }

  // ---------- What the slots guarantee ----------

  lemma {:induction false} FoundGrows(q: seq<nat>, peers: Peers, picked: set<nat>, found: nat, m: nat, k: nat, l: nat)
    requires k <= l <= |q| && Known(q, peers) && found <= m
    ensures found <= Found(q, peers, picked, found, m, k) <= Found(q, peers, picked, found, m, l) <= m
    decreases l
  {
    if l == 0 {
    } else {
      FoundGrows(q, peers, picked, found, m, if k < l then k else k - 1, l - 1);
    }
  }

  /** The peers served in the order of the queue, among its first k. */
  ghost function ServedBelow(q: seq<nat>, now: Peers, picked: set<nat>, k: nat): set<nat>
    requires k <= |q|
  {
    set p | p in q[..k] && p in now && p !in picked && now[p].wants && !now[p].choked
  }

  lemma {:induction false} FoundIsServed(q: seq<nat>, before: Peers, now: Peers, picked: set<nat>, m: nat, k: nat)
    requires NoDup(q) && Known(q, before) && Slots(q, before, now, picked, m) && k <= |q|
    requires forall p :: p in picked ==> p in before
    ensures |Interested(picked, before)| + |ServedBelow(q, now, picked, k)|
         == Found(q, before, picked, |Interested(picked, before)|, m, k)
  {
    if k == 0 {
      assert ServedBelow(q, now, picked, 0) == {};
    } else {
      FoundIsServed(q, before, now, picked, m, k - 1);
      assert ChokedRight(q, before, now, picked, |Interested(picked, before)|, m, k - 1);
      ServedNext(q, before, now, picked, k - 1);
    }
  }

  lemma ServedNext(q: seq<nat>, before: Peers, now: Peers, picked: set<nat>, k: nat)
    requires NoDup(q) && Known(q, before) && OnlyChokes(q, before, now) && k < |q|
    ensures |ServedBelow(q, now, picked, k + 1)| == |ServedBelow(q, now, picked, k)| +
              if q[k] !in picked && before[q[k]].wants && !now[q[k]].choked then 1 else 0
  {
    assert forall p :: p in q[..k + 1] <==> p in q[..k] || p == q[k];
    assert q[k] !in q[..k];
    if q[k] !in picked && before[q[k]].wants && !now[q[k]].choked {
      assert ServedBelow(q, now, picked, k + 1) == ServedBelow(q, now, picked, k) + {q[k]};
    } else {
      assert ServedBelow(q, now, picked, k + 1) == ServedBelow(q, now, picked, k);
    }
  }

  lemma ServedIsFound(q: seq<nat>, before: Peers, now: Peers, picked: set<nat>, m: nat)
    requires NoDup(q) && Known(q, before) && RatePass(q, before, picked, m) && Slots(q, before, now, picked, m)
    ensures |Served(q, now)| == Found(q, before, picked, |Interested(picked, before)|, m, |q|) <= m
  {
    FoundIsServed(q, before, now, picked, m, |q|);
    FoundGrows(q, before, picked, |Interested(picked, before)|, m, |q|, |q|);
    assert q[..|q|] == q;
    forall p | p in picked
      ensures p in now && !now[p].choked && now[p].wants == before[p].wants
    {
      var k :| 0 <= k < |q| && q[k] == p;
      assert ChokedRight(q, before, now, picked, |Interested(picked, before)|, m, k);
    }
    assert Served(q, now) == Interested(picked, before) + ServedBelow(q, now, picked, |q|);
  }

  /** At most m interested peers are served, and exactly m if one that is not full has to wait. */
  lemma SlotsAreBounded(q: seq<nat>, before: Peers, now: Peers, picked: set<nat>, m: nat)
    requires NoDup(q) && Known(q, before) && RatePass(q, before, picked, m) && Slots(q, before, now, picked, m)
    ensures |Served(q, now)| <= m
    ensures (exists p :: p in q && before[p].wants && !before[p].full && now[p].choked) ==> |Served(q, now)| == m
  {
    ServedIsFound(q, before, now, picked, m);
    if p :| p in q && before[p].wants && !before[p].full && now[p].choked {
      var k :| 0 <= k < |q| && q[k] == p;
      assert ChokedRight(q, before, now, picked, |Interested(picked, before)|, m, k);
      FoundGrows(q, before, picked, |Interested(picked, before)|, m, k, |q|);
    }
  }

  /** Nobody who has everything is served. */
  lemma FullAreChoked(q: seq<nat>, before: Peers, now: Peers, picked: set<nat>, m: nat, p: nat)
    requires Known(q, before) && RatePass(q, before, picked, m) && Slots(q, before, now, picked, m)
    requires p in q && before[p].full
    ensures now[p].choked
  {
    var k :| 0 <= k < |q| && q[k] == p;
    assert ChokedRight(q, before, now, picked, |Interested(picked, before)|, m, k);
  }

  /** The first peer in the queue has a slot if it is not full: one is left after the rate pass. */
  lemma HeadHasSlot(q: seq<nat>, before: Peers, now: Peers, picked: set<nat>, m: nat)
    requires Known(q, before) && RatePass(q, before, picked, m) && Slots(q, before, now, picked, m)
    requires q != [] && !before[q[0]].full
    ensures !now[q[0]].choked
  {
    assert ChokedRight(q, before, now, picked, |Interested(picked, before)|, m, 0);
  }

  /** The first i peers have been seen to. */
  ghost predicate SlotsBelow(q: seq<nat>, before: Peers, now: Peers, picked: set<nat>, found: nat, m: nat, i: nat)
    requires Known(q, before)
  {
    && OnlyChokes(q, before, now) && i <= |q|
    && (forall k :: 0 <= k < i ==> ChokedRight(q, before, now, picked, found, m, k))
    && forall p :: p in picked ==> p in now && !now[p].choked
  }

  lemma SlotsSkip(q: seq<nat>, before: Peers, now: Peers, picked: set<nat>, found: nat, m: nat, i: nat)
    requires Known(q, before) && SlotsBelow(q, before, now, picked, found, m, i) && i < |q|
    requires now[q[i]].choked == !Slot(q, before, picked, found, m, i)
    ensures SlotsBelow(q, before, now, picked, found, m, i + 1)
  {
  }

  lemma SlotsSet(q: seq<nat>, before: Peers, now: Peers, picked: set<nat>, found: nat, m: nat, i: nat, now': Peers)
    requires NoDup(q) && Known(q, before) && SlotsBelow(q, before, now, picked, found, m, i) && i < |q| &&
      q[i] !in picked
    requires now' == now[q[i] := now[q[i]].(choked := !Slot(q, before, picked, found, m, i))]
    ensures SlotsBelow(q, before, now', picked, found, m, i + 1)
  {
    forall k | 0 <= k < i
      ensures ChokedRight(q, before, now', picked, found, m, k)
    {
      assert q[k] != q[i] && ChokedRight(q, before, now, picked, found, m, k);
    }
  }

  // ---------- The choker ----------

  class Uploader {
    var peerq: seq<nat>
    var peers: Peers
    var maxUploads: int
    var cbCount: nat

    ghost predicate Valid()
      reads this
    {
      NoDup(peerq) && Known(peerq, peers)
    }

    /** The peers that the rates may choose, in the order of the queue. */
    method CollectWorthy() returns (worthy: seq<nat>)
      requires Valid()
      ensures NoDup(worthy) && forall p :: p in worthy <==> p in peerq && Worthy(peers[p])
    {
      worthy := [];
      var i := 0;
      while i < |peerq|
        invariant i <= |peerq| && NoDup(worthy)
        invariant forall p :: p in worthy <==> p in peerq[..i] && Worthy(peers[p])
      {
        TakeNext(peerq, i);
        assert peerq[i] !in peerq[..i];
        if Worthy(peers[peerq[i]]) {
          worthy := worthy + [peerq[i]];
        }
        i := i + 1;
      }
      assert peerq[..i] == peerq;
    }

    /** qsort by rate_cmp; any order that is sorted will do. */
    method SortByRate(worthy: seq<nat>) returns (sorted: seq<nat>)
      requires Known(worthy, peers) && NoDup(worthy)
      ensures NoDup(sorted) && Known(sorted, peers) && Ascending(sorted, peers) &&
        forall p :: p in sorted <==> p in worthy
    {
      sorted := [];
      var i := 0;
      while i < |worthy|
        invariant i <= |worthy| && NoDup(sorted) && Known(sorted, peers) && Ascending(sorted, peers)
        invariant forall p :: p in sorted <==> p in worthy[..i]
      {
        TakeNext(worthy, i);
        assert worthy[i] !in worthy[..i];
        var k := 0;
        while k < |sorted| && Rate(peers[sorted[k]]) < Rate(peers[worthy[i]])
          invariant k <= |sorted| && forall a :: 0 <= a < k ==> Rate(peers[sorted[a]]) < Rate(peers[worthy[i]])
        {
          k := k + 1;
        }
        InsertSorted(sorted, k, worthy[i], peers);
        sorted := sorted[..k] + [worthy[i]] + sorted[k..];
        i := i + 1;
      }
      assert worthy[..i] == worthy;
    }

    /**
     The rate pass of choke_do: from the fastest down, until one slot is left. Peers that are not
     interested take no slot.
     */
    method PickByRate(sorted: seq<nat>) returns (picked: set<nat>, found: nat)
      requires Valid() && maxUploads > 0 && NoDup(sorted) && Known(sorted, peers) && Ascending(sorted, peers)
      requires forall p :: p in sorted <==> p in peerq && Worthy(peers[p])
      modifies this`peers
      ensures Valid() && Unchoked(peerq, old(peers), peers, picked) && RatePass(peerq, old(peers), picked, maxUploads)
      ensures found == |Interested(picked, old(peers))|
    {
      picked, found := {}, 0;
      ghost var before := peers;
      assert Interested({}, before) == {};
      var i := |sorted|;
      while i > 0 && found < maxUploads - 1
        invariant 0 <= i <= |sorted| && Valid() && Unchoked(peerq, before, peers, picked)
        invariant forall p :: p in picked <==> p in sorted[i..]
        invariant found == |Interested(picked, before)| < maxUploads
      {
        i := i - 1;
        var p := sorted[i];
        PickNext(sorted, i, picked, before);
        if peers[p].wants {
          found := found + 1;
        }
        UnchokeOne(peerq, before, peers, picked, p);
        MakeChoked(p, false);
        picked := picked + {p};
      }
      PickedAreFastest(peerq, before, sorted, i, picked, maxUploads);
    }

    /** The second pass of choke_do: in the order of the queue, while slots are left. */
    method ServeInOrder(picked: set<nat>, start: nat, ghost before: Peers)
      requires Valid() && maxUploads > 0 && OnlyChokes(peerq, before, peers) && Known(peerq, before)
      requires start == |Interested(picked, before)| && forall p :: p in picked ==> p in peers && !peers[p].choked
      modifies this`peers
      ensures Valid() && Slots(peerq, before, peers, picked, maxUploads)
    {
      var i, found := 0, start;
      while i < |peerq|
        invariant i <= |peerq| && Valid()
        invariant found == Found(peerq, before, picked, start, maxUploads, i)
        invariant SlotsBelow(peerq, before, peers, picked, start, maxUploads, i)
      {
        found := ServeOne(picked, start, before, i, found);
        i := i + 1;
      }
    }

    /** One turn of the second pass. */
    method ServeOne(picked: set<nat>, ghost start: nat, ghost before: Peers, i: nat, sofar: nat) returns (found: nat)
      requires Valid() && Known(peerq, before) && i < |peerq| && maxUploads > 0
      requires SlotsBelow(peerq, before, peers, picked, start, maxUploads, i)
      requires sofar == Found(peerq, before, picked, start, maxUploads, i)
      modifies this`peers
      ensures Valid() && SlotsBelow(peerq, before, peers, picked, start, maxUploads, i + 1)
      ensures found == Found(peerq, before, picked, start, maxUploads, i + 1)
    {
      var p := peerq[i];
      found := sofar;
      if p !in picked {
        SlotsSet(peerq, before, peers, picked, start, maxUploads, i,
                 peers[p := peers[p].(choked := !Slot(peerq, before, picked, start, maxUploads, i))]);
        if found < maxUploads && !peers[p].full {
          if peers[p].wants {
            found := found + 1;
          }
          MakeChoked(p, false);
        } else {
          MakeChoked(p, true);
        }
      } else {
        SlotsSkip(peerq, before, peers, picked, start, maxUploads, i);
      }
    }

    /** peer_choke and peer_unchoke are called only when they change something. */
    method MakeChoked(p: nat, choked: bool)
      requires p in peers
      modifies this`peers
      ensures peers == old(peers)[p := old(peers)[p].(choked := choked)]
    {
      if peers[p].choked != choked {
        SetChoke(p, choked);
      } else {
        assert peers == peers[p := peers[p]];
      }
    }

    method SetAll(choked: bool)
      requires Valid()
      modifies this`peers
      ensures Valid() && OnlyChokes(peerq, old(peers), peers) && forall p :: p in peerq ==> peers[p].choked == choked
    {
      var i := 0;
      while i < |peerq|
        invariant i <= |peerq| && Valid() && OnlyChokes(peerq, old(peers), peers)
        invariant forall k :: 0 <= k < i ==> peers[peerq[k]].choked == choked
      {
        if peers[peerq[i]].choked != choked {
          SetChoke(peerq[i], choked);
        }
        i := i + 1;
      }
    }

    /** choke_do */
    method ChokeDo() returns (ghost picked: set<nat>)
      requires Valid()
      modifies this`peers
      ensures Valid() && OnlyChokes(peerq, old(peers), peers)
      ensures maxUploads < 0 ==> forall p :: p in peerq ==> !peers[p].choked
      ensures maxUploads == 0 ==> forall p :: p in peerq ==> peers[p].choked
      ensures maxUploads > 0 ==>
        RatePass(peerq, old(peers), picked, maxUploads) && Slots(peerq, old(peers), peers, picked, maxUploads)
    {
      picked := {};
      if maxUploads < 0 {
        SetAll(false);
      } else if maxUploads == 0 {
        SetAll(true);
      } else {
        var worthy := CollectWorthy();
        var sorted := SortByRate(worthy);
        var pick, found := PickByRate(sorted);
        ServeInOrder(pick, found, old(peers));
        picked := pick;
      }
    }

    method SetChoke(p: nat, choked: bool)
      requires p in peers
      modifies this`peers
      ensures peers == old(peers)[p := old(peers)[p].(choked := choked)]
    {
      peers := peers[p := peers[p].(choked := choked)];
    }

    /** No more interested peers are served than there are slots. */
    ghost predicate WithinSlots()
      reads this
    {
      maxUploads > 0 ==> |Served(peerq, peers)| <= maxUploads
    }

    constructor (maxUploads: int)
      ensures Valid() && WithinSlots() && peerq == [] && this.maxUploads == maxUploads
    {
      peerq, peers, this.maxUploads, cbCount := [], map[], maxUploads, 0;
      new;
      assert Served([], map[]) == {};
    }

    /** choke_do, and that the slots are kept to. */
    method Rechoke() returns (ghost picked: set<nat>)
      requires Valid()
      modifies this`peers
      ensures Valid() && WithinSlots() && Rechoked(peerq, old(peers), peers, maxUploads)
      ensures maxUploads > 0 ==>
        RatePass(peerq, old(peers), picked, maxUploads) && Slots(peerq, old(peers), peers, picked, maxUploads)
    {
      picked := ChokeDo();
      if maxUploads > 0 {
        SlotsAreBounded(peerq, old(peers), peers, picked, maxUploads);
        forall p | p in peerq && old(peers)[p].full
          ensures peers[p].choked
        {
          FullAreChoked(peerq, old(peers), peers, picked, maxUploads, p);
        }
      }
    }

    /** shuffle_optimists: the first interested peer that is choked comes to the head of the queue. */
    method ShuffleOptimists()
      requires Valid()
      modifies this`peerq
      ensures Valid() && var k := FirstWaiting(old(peerq), peers, 0); peerq == old(peerq)[k..] + old(peerq)[..k]
      ensures forall p :: p in peerq <==> p in old(peerq)
    {
      ghost var q := peerq;
      var i, npeers := 0, |peerq|;
      assert Rotated(q, 0) == q;
      while i < npeers && !Waiting(peers[peerq[0]])
        invariant i <= npeers == |q| && peerq == Rotated(q, i) && Valid()
        invariant FirstWaiting(q, peers, 0) == FirstWaiting(q, peers, i)
        invariant forall p :: p in peerq <==> p in q
      {
        RotateOnce(q, i);
        peerq := peerq[1..] + [peerq[0]];
        i := i + 1;
      }
      assert i < npeers ==> peerq[0] == q[i];
      assert i == npeers ==> FirstWaiting(q, peers, i) == |q|;
    }

    /** choke_cb: every third time one interested peer is helped, whatever its rate. */
    method ChokeCb()
      requires Valid()
      modifies this`peerq, this`peers, this`cbCount
      ensures Valid() && WithinSlots() && cbCount == old(cbCount) + 1
      ensures Rechoked(peerq, old(peers), peers, maxUploads) && forall p :: p in peerq <==> p in old(peerq)
      ensures var k := if cbCount % 3 == 0 then FirstWaiting(old(peerq), old(peers), 0) else 0;
        peerq == old(peerq)[k..] + old(peerq)[..k]
      ensures maxUploads > 0 && cbCount % 3 == 0 ==>
        var k := FirstWaiting(old(peerq), old(peers), 0);
        k < |old(peerq)| && !old(peers)[old(peerq)[k]].full ==> !peers[old(peerq)[k]].choked
    {
      cbCount := cbCount + 1;
      if cbCount % 3 == 0 {
        ShuffleOptimists();
      }
      ghost var before := peers;
      var picked := Rechoke();
      if maxUploads > 0 && peerq != [] && !before[peerq[0]].full {
        HeadHasSlot(peerq, before, peers, picked, maxUploads);
      }
    }

    /** ul_on_new_peer: somewhere in the queue, at the head three times as likely. */
    method OnNewPeer(p: nat, state: Peer, draw: int)
      requires Valid() && p !in peerq && -2 <= draw <= |peerq|
      modifies this`peerq, this`peers
      ensures Valid() && WithinSlots() && Rechoked(peerq, old(peers)[p := state], peers, maxUploads)
      ensures var k := if draw < 1 then 0 else draw; peerq == old(peerq)[..k] + [p] + old(peerq)[k..]
    {
      var k := if draw < 1 then 0 else draw;
      InsertedOnce(peerq, k, p);
      peers := peers[p := state];
      peerq := peerq[..k] + [p] + peerq[k..];
      var picked := Rechoke();
    }

    /** ul_on_lost_peer: a slot that it had is given to others. */
    method OnLostPeer(p: nat)
      requires Valid() && WithinSlots() && p in peerq
      modifies this`peerq, this`peers
      ensures Valid() && WithinSlots() && peerq == Remove(old(peerq), p)
      ensures if old(peers)[p].wants && !old(peers)[p].choked then Rechoked(peerq, old(peers), peers, maxUploads)
              else peers == old(peers)
    {
      RemoveMembers(peerq, p);
      SubsetCard(Served(Remove(peerq, p), peers), Served(peerq, peers));
      peerq := Remove(peerq, p);
      if peers[p].wants && !peers[p].choked {
        var picked := Rechoke();
      }
    }

    /** ul_on_lost_torrent: all peers of a torrent leave, and the slots are given anew. */
    method OnLostTorrent(lost: seq<nat>)
      requires Valid()
      modifies this`peerq, this`peers
      ensures Valid() && WithinSlots()
      ensures Rechoked(peerq, old(peers), peers, maxUploads)
      ensures peerq == Without(old(peerq), lost) && forall p :: p in peerq <==> p in old(peerq) && p !in lost
    {
      for k := 0 to |lost|
        invariant Valid() && peers == old(peers) && peerq == Without(old(peerq), lost[..k])
        invariant forall p :: p in peerq <==> p in old(peerq) && p !in lost[..k]
      {
        RemoveMembers(peerq, lost[k]);
        TakeNext(lost, k);
        assert lost[..k + 1][..k] == lost[..k];
        peerq := Remove(peerq, lost[k]);
      }
      assert lost[..|lost|] == lost;
      var picked := Rechoke();
    }

    /** Whether the peer is interested is noted; if that is new and the peer has a slot, the slots are given anew. */
    ghost predicate Heard(p: nat, wants: bool, was: Peers)
      requires p in was
      reads this
    {
      var noted := was[p := was[p].(wants := wants)];
      if was[p].wants != wants && !was[p].choked then Rechoked(peerq, noted, peers, maxUploads) else peers == noted
    }

    /** peer_on_interest and ul_on_interest. */
    method OnInterest(p: nat)
      requires Valid() && WithinSlots() && p in peerq
      modifies this`peers
      ensures Valid() && WithinSlots() && Heard(p, true, old(peers))
    {
      if peers[p].wants {
        WantsAlready(peers, p);
        return;
      }
      if peers[p].choked {
        ServedSame(peerq, peers, p, true);
      }
      peers := peers[p := peers[p].(wants := true)];
      if !peers[p].choked {
        var picked := Rechoke();
      }
    }

    /** peer_on_uninterest and ul_on_uninterest. */
    method OnUninterest(p: nat)
      requires Valid() && WithinSlots() && p in peerq
      modifies this`peers
      ensures Valid() && WithinSlots() && Heard(p, false, old(peers))
    {
      if !peers[p].wants {
        WantsAlready(peers, p);
        return;
      }
      if peers[p].choked {
        ServedSame(peerq, peers, p, false);
      }
      peers := peers[p := peers[p].(wants := false)];
      if !peers[p].choked {
        var picked := Rechoke();
      }
    }

    /** Rates and pieces change without the choker being told. */
    method Observe(p: nat, now: Peer)
      requires Valid() && WithinSlots() && p in peerq && now.wants == peers[p].wants && now.choked == peers[p].choked
      modifies this`peers
      ensures Valid() && WithinSlots() && peers == old(peers)[p := now]
    {
      assert Served(peerq, peers[p := now]) == Served(peerq, peers);
      peers := peers[p := now];
    }

    /** What an event has done; one that cannot happen has changed nothing. */
    twostate predicate Handled(e: Event)
      reads this
    {
      var q, was := old(peerq), old(peers);
      match e
      case Tick =>
        && old(Valid()) && cbCount == old(cbCount) + 1
        && var k := if cbCount % 3 == 0 then FirstWaiting(q, was, 0) else 0;
           peerq == q[k..] + q[..k] && Rechoked(peerq, was, peers, maxUploads)
      case NewPeer(p, state, draw) =>
        if p in q || draw < -2 || |q| < draw then Unchanged()
        else
          var k := if draw < 1 then 0 else draw;
          && cbCount == old(cbCount) && peerq == q[..k] + [p] + q[k..]
          && Rechoked(peerq, was[p := state], peers, maxUploads)
      case LostPeer(p) =>
        if p !in q then Unchanged()
        else
          && cbCount == old(cbCount) && peerq == Remove(q, p) && p in was
          && if was[p].wants && !was[p].choked then Rechoked(peerq, was, peers, maxUploads) else peers == was
      case LostTorrent(lost) =>
        cbCount == old(cbCount) && peerq == Without(q, lost) && Rechoked(peerq, was, peers, maxUploads)
      case Interest(p) =>
        if p !in q then Unchanged() else cbCount == old(cbCount) && peerq == q && p in was && Heard(p, true, was)
      case Uninterest(p) =>
        if p !in q then Unchanged() else cbCount == old(cbCount) && peerq == q && p in was && Heard(p, false, was)
      case Seen(p, now) =>
        if p !in q || p !in was || now.wants != was[p].wants || now.choked != was[p].choked then Unchanged()
        else cbCount == old(cbCount) && peerq == q && peers == was[p := now]
    }

    twostate predicate Unchanged()
      reads this
    {
      peerq == old(peerq) && peers == old(peers) && cbCount == old(cbCount)
    }

    method Handle(e: Event)
      requires Valid() && WithinSlots()
      modifies this`peerq, this`peers, this`cbCount
      ensures Valid() && WithinSlots() && Handled(e)
    {
      match e
      case Tick => ChokeCb();
      case NewPeer(p, state, draw) =>
        if p !in peerq && -2 <= draw <= |peerq| {
          OnNewPeer(p, state, draw);
        }
      case LostPeer(p) =>
        if p in peerq {
          OnLostPeer(p);
        }
      case LostTorrent(lost) => OnLostTorrent(lost);
      case Interest(p) =>
        if p in peerq {
          OnInterest(p);
        }
      case Uninterest(p) =>
        if p in peerq {
          OnUninterest(p);
        }
      case Seen(p, now) =>
        if p in peerq && now.wants == peers[p].wants && now.choked == peers[p].choked {
          Observe(p, now);
        }
    }

    /** Over every run the slots are kept to. */
    method Run(events: seq<Event>)
      requires Valid() && WithinSlots()
      modifies this`peerq, this`peers, this`cbCount
      ensures Valid() && WithinSlots()
    {
      var i := 0;
      while i < |events|
        invariant Valid() && WithinSlots()
      {
        Handle(events[i]);
        i := i + 1;
      }
    }
  }

  datatype Event =
    | Tick
    | NewPeer(p: nat, state: Peer, draw: int)
    | LostPeer(p: nat)
    | LostTorrent(lost: seq<nat>)
    | Interest(p: nat)
    | Uninterest(p: nat)
    | Seen(p: nat, now: Peer)

  /** The queue without these, in its order. */
  ghost function Without(q: seq<nat>, lost: seq<nat>): seq<nat> {
    if lost == [] then q else Remove(Without(q, lost[..|lost| - 1]), lost[|lost| - 1])
  }

  lemma WantsAlready(peers: Peers, p: nat)
    requires p in peers
    ensures peers[p := peers[p].(wants := peers[p].wants)] == peers
  {
  }

  /** Interested and choked. */
  predicate Waiting(p: Peer) {
    p.wants && p.choked
  }

  /** The first peer from place i on that waits. */
  function FirstWaiting(q: seq<nat>, peers: Peers, i: nat): (k: nat)
    requires i <= |q| && Known(q, peers)
    ensures i <= k <= |q| && (k < |q| ==> peers[q[k]].wants && peers[q[k]].choked)
    ensures forall j :: i <= j < k ==> !(peers[q[j]].wants && peers[q[j]].choked)
    decreases |q| - i
  {
    if i == |q| || Waiting(peers[q[i]]) then i else FirstWaiting(q, peers, i + 1)
  }

  function Rotated(q: seq<nat>, k: nat): seq<nat>
    requires k <= |q|
  {
    q[k..] + q[..k]
  }

  lemma RotateOnce(q: seq<nat>, k: nat)
    requires k < |q| && NoDup(Rotated(q, k)) && forall p :: p in Rotated(q, k) <==> p in q
    ensures Rotated(q, k)[0] == q[k] && Rotated(q, k)[1..] + [Rotated(q, k)[0]] == Rotated(q, k + 1)
    ensures NoDup(Rotated(q, k + 1)) && forall p :: p in Rotated(q, k + 1) <==> p in q
  {
    var r := Rotated(q, k);
    assert r == [r[0]] + r[1..];
    assert r[1..] + [r[0]] == Rotated(q, k + 1);
  }

  lemma InsertedOnce(s: seq<nat>, k: nat, x: nat)
    requires NoDup(s) && k <= |s| && x !in s
    ensures NoDup(s[..k] + [x] + s[k..]) && forall p :: p in s[..k] + [x] + s[k..] <==> p in s || p == x
  {
    InsertedMembers(s, k, x);
  }

  /** Interest of a choked peer takes no slot. */
  lemma ServedSame(q: seq<nat>, peers: Peers, p: nat, wants: bool)
    requires p in peers && peers[p].choked
    ensures Served(q, peers[p := peers[p].(wants := wants)]) == Served(q, peers)
  {
  }

  /** Only these have been unchoked. */
  ghost predicate Unchoked(q: seq<nat>, before: Peers, now: Peers, picked: set<nat>) {
    && OnlyChokes(q, before, now)
    && (forall p :: p in now && p !in picked ==> now[p] == before[p])
    && forall p :: p in picked ==> p in now && !now[p].choked
  }

  lemma UnchokeOne(q: seq<nat>, before: Peers, now: Peers, picked: set<nat>, p: nat)
    requires Unchoked(q, before, now, picked) && p in q && p in now
    ensures Unchoked(q, before, now[p := now[p].(choked := false)], picked + {p})
  {
  }

  lemma PickNext(sorted: seq<nat>, i: nat, picked: set<nat>, peers: Peers)
    requires NoDup(sorted) && Known(sorted, peers) && i < |sorted| && forall p :: p in picked <==> p in sorted[i + 1..]
    ensures sorted[i] !in picked && forall p :: p in picked + {sorted[i]} <==> p in sorted[i..]
    ensures |Interested(picked + {sorted[i]}, peers)| == |Interested(picked, peers)| +
      if peers[sorted[i]].wants then 1 else 0
  {
    assert sorted[i..] == [sorted[i]] + sorted[i + 1..];
    if peers[sorted[i]].wants {
      assert Interested(picked + {sorted[i]}, peers) == Interested(picked, peers) + {sorted[i]};
    } else {
      assert Interested(picked + {sorted[i]}, peers) == Interested(picked, peers);
    }
  }

  lemma PickedAreFastest(q: seq<nat>, peers: Peers, sorted: seq<nat>, i: nat, picked: set<nat>, m: nat)
    requires Known(q, peers) && Known(sorted, peers) && Ascending(sorted, peers) && i <= |sorted| && m > 0
    requires forall p :: p in sorted <==> p in q && Worthy(peers[p])
    requires forall p :: p in picked <==> p in sorted[i..]
    requires |Interested(picked, peers)| < m && (i > 0 ==> |Interested(picked, peers)| == m - 1)
    ensures RatePass(q, peers, picked, m)
  {
    forall p, w | p in picked && w in q && Flowing(peers[w]) && w !in picked
      ensures NotFaster(peers[w], peers[p])
    {
      EarlierIsNotFaster(peers, sorted, i, w, p);
    }
    if w :| w in q && Flowing(peers[w]) && w !in picked {
      assert w in sorted && i > 0;
    }
  }

  lemma EarlierIsNotFaster(peers: Peers, sorted: seq<nat>, i: nat, w: nat, p: nat)
    requires Known(sorted, peers) && Ascending(sorted, peers) && i <= |sorted|
    requires w in sorted && w !in sorted[i..] && p in sorted[i..]
    ensures NotFaster(peers[w], peers[p])
  {
    assert forall k :: i <= k < |sorted| ==> sorted[k] == sorted[i..][k - i];
    var a :| 0 <= a < |sorted| && sorted[a] == w;
    var b :| 0 <= b < |sorted[i..]| && sorted[i..][b] == p;
    assert sorted[i + b] == p;
  }

  lemma InsertSorted(s: seq<nat>, k: nat, x: nat, peers: Peers)
    requires NoDup(s) && Known(s, peers) && Ascending(s, peers) && k <= |s| && x !in s && x in peers
    requires forall a :: 0 <= a < k ==> Rate(peers[s[a]]) < Rate(peers[x])
    requires k < |s| ==> Rate(peers[x]) <= Rate(peers[s[k]])
    ensures var r := s[..k] + [x] + s[k..];
      NoDup(r) && Known(r, peers) && Ascending(r, peers) && forall p :: p in r <==> p in s || p == x
  {
    var r := s[..k] + [x] + s[k..];
    forall a | 0 <= a < |r|
      ensures r[a] == if a < k then s[a] else if a == k then x else s[a - 1]
    {
    }
    InsertedMembers(s, k, x);
    forall a, b | 0 <= a < b < |r|
      ensures r[a] != r[b] && Rate(peers[r[a]]) <= Rate(peers[r[b]])
    {
    }
  }

  lemma InsertedMembers(s: seq<nat>, k: nat, x: nat)
    requires k <= |s|
    ensures forall p :: p in s[..k] + [x] + s[k..] <==> p in s || p == x
  {
    assert s == s[..k] + s[k..];
  }
}
