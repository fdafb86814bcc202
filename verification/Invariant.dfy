/** What the downloader keeps from one event to the next. */
module Invariant {
  import opened Lists
  import opened Peers
  import opened NetState
  import opened Requests
  import opened Withdrawals

  /** How many of the listed peers have piece i. */
  function Holders(order: seq<nat>, has: map<nat, set<nat>>, i: nat): nat {
    if order == [] then 0
    else (if order[0] in has && i in has[order[0]] then 1 else 0) + Holders(order[1..], has, i)
  }

  ghost predicate CountOk(count: seq<nat>, order: seq<nat>, has: map<nat, set<nat>>) {
    forall i :: 0 <= i < |count| ==> count[i] == Holders(order, has, i)
  }

  /** Peers that choke us have no outstanding requests. */
  ghost predicate Quiet(order: seq<nat>, chokes: set<nat>, peers: map<nat, Peer>) {
    forall q :: q in order && q in chokes && q in peers ==> peers[q].reqs == []
  }

  ghost predicate Outer(n: Net) {
    && Quiet(n.order, n.chokes, n.peers)
    && CountOk(n.count, n.order, n.has)
    && Elems(n.order) == n.peers.Keys
  }

  /** End game is on, whatever capacity may be idle. */
  ghost predicate SteadyEg(n: Net) {
    && Base(n) && n.endgame && Linked(n.getlst, n.busy) && Sorted(n)
    && n.got + n.busy == Range(|n.nblocks|)
    && WantOk(n.order, n.peers, n.has, n.busy)
  }

  /** End game is off, and the content is complete or some missing block is not requested. */
  ghost predicate SteadyNormal(n: Net) {
    && Normal(n)
    && (n.got == Range(|n.nblocks|) || WantSet(n) != {})
  }

  ghost predicate Steady(n: Net) {
    if n.endgame then SteadyEg(n) && AllLive(n.pieces, n.have) && Unfinished(n.nblocks, n.got, n.have)
    else SteadyNormal(n)
  }

  /** No capacity is left idle at q. */
  ghost predicate Cap(n: Net, q: nat) {
    if n.endgame then BusyEg(n, q) else Busy(n, q, WantSet(n))
  }

  ghost predicate Caps(n: Net, x: set<nat>) {
    forall q :: q in n.order && q !in x ==> Cap(n, q)
  }

  /** The invariant, but for idle capacity at the peers in x. */
  ghost predicate InvBut(n: Net, x: set<nat>) {
    Steady(n) && Outer(n) && Caps(n, x)
  }

  ghost predicate Inv(n: Net) {
    InvBut(n, {})
  }

  lemma GrewKeepsOuter(n: Net, m: Net)
    requires Outer(n) && Grew(n, m)
    ensures Outer(m)
  {
    forall q | q in m.order && q in m.chokes && q in m.peers
      ensures m.peers[q].reqs == []
    {
      assert n.peers[q].reqs == [];
    }
  }

  lemma EgInvSteady(n: Net)
    requires EgInv(n) && Unfinished(n.nblocks, n.got, n.have)
    ensures Steady(n) && Caps(n, {})
  {
    forall q | q in n.order
      ensures Cap(n, q)
    {
      var a :| 0 <= a < |n.order| && n.order[a] == q;
      assert BusyEg(n, n.order[a]);
    }
  }

  /** dl_assign_requests closes the gap at p. */
  lemma AssignedInv(n: Net, m: Net, p: nat)
    requires InvBut(n, {p}) && !n.endgame && Assigning(n, m, p)
    requires !m.endgame ==> Busy(m, p, WantSet(m))
    ensures Inv(m) && BegunOnTime(n, m)
  {
    GrewKeepsOuter(n, m);
    if m.endgame {
      EgInvSteady(m);
    } else {
      AssignedCaps(n, m, p);
    }
  }

  lemma AssignedCaps(n: Net, m: Net, p: nat)
    requires !n.endgame && !m.endgame && Caps(n, {p}) && Grew(n, m) && AllLoose(n.peers) && AllLoose(m.peers)
    requires WantSet(m) <= WantSet(n) && Busy(m, p, WantSet(m))
    ensures Caps(m, {})
  {
    forall q | q in m.order
      ensures Cap(m, q)
    {
      if q != p {
        assert Cap(n, q);
        GrewKeepsBusyOne(n, m, q, WantSet(n));
        BusySubset(m, q, WantSet(n), WantSet(m));
      }
    }
  }

  lemma BusySubset(n: Net, q: nat, w: set<nat>, w': set<nat>)
    requires Busy(n, q, w) && w' <= w
    ensures Busy(n, q, w')
  {
  }

  /** dl_assign_requests_eg closes the gap at p. */
  lemma AssignedEgInv(n: Net, m: Net, p: nat, x: set<nat>)
    requires InvBut(n, x + {p}) && n.endgame && AskedAll(n, m, p)
    requires p in n.order && p !in n.chokes
    requires Base(m) && Linked(m.getlst, m.busy) && Sorted(m)
    requires m.peers[p].Laden() || AllRequested(m, p)
    ensures InvBut(m, x)
  {
    GrewRefl(n);
    OnePeerGrows(n, n, m, p);
    GrewKeepsOuter(n, m);
    GrewKeepsLive(n.pieces, m.pieces, n.have);
    WantPut(n.order, n.peers, n.has, n.busy, p, m.peers[p]);
    AssignedEgCaps(n, m, p, x);
  }

  lemma AssignedEgCaps(n: Net, m: Net, p: nat, x: set<nat>)
    requires Caps(n, x + {p}) && n.endgame && AskedAll(n, m, p)
    requires m.peers[p].Laden() || AllRequested(m, p)
    ensures Caps(m, x)
  {
    forall q | q in m.order && q !in x
      ensures Cap(m, q)
    {
      if q != p {
        assert Cap(n, q);
        OnePeerKeepsBusy(n, m, p, q);
      }
    }
  }

  /** A peer that cannot be asked leaves no capacity idle. */
  lemma NotLeechOk(n: Net, p: nat)
    requires Steady(n) && p in n.order && p in n.peers && !LeechOk(n, p)
    ensures Cap(n, p)
  {
    if p !in n.chokes && !n.peers[p].Laden() {
      assert n.peers[p].Loose() && n.peers[p].nwant == 0;
      if n.endgame {
        UnwantedIsBusy(n, p);
      } else {
        SteadyWantOk(n);
        NoneWanted(n.has[p], WantSet(n));
      }
    }
  }

  lemma NoneWanted(has: set<nat>, w: set<nat>)
    requires |has * w| == 0
    ensures has * w == {} && has !! w
  {
    assert forall i :: i in has && i in w ==> i in has * w;
  }

  lemma SettledPeer(n: Net, p: nat)
    requires Steady(n) && Outer(n) && p in n.order
    ensures p in n.peers && p in n.has && n.peers[p].Settled()
  {
    assert p in Elems(n.order);
  }

  // ---------- Unchoke ----------

  lemma UnchokedInv(n: Net, p: nat)
    requires Inv(n) && p in n.order
    ensures InvBut(n.(chokes := n.chokes - {p}), {p})
    ensures !LeechOk(n.(chokes := n.chokes - {p}), p) ==> Inv(n.(chokes := n.chokes - {p}))
  {
    var m := n.(chokes := n.chokes - {p});
    SettledPeer(n, p);
    UnchokedSteady(n, p);
    UnchokedCaps(n, p);
    if !LeechOk(m, p) {
      NotLeechOk(m, p);
    }
  }

  lemma UnchokedSteady(n: Net, p: nat)
    requires Steady(n) && Outer(n)
    ensures Steady(n.(chokes := n.chokes - {p})) && Outer(n.(chokes := n.chokes - {p}))
  {
    WantSetStays(n, n.(chokes := n.chokes - {p}));
  }

  lemma UnchokedCaps(n: Net, p: nat)
    requires Caps(n, {})
    ensures Caps(n.(chokes := n.chokes - {p}), {p})
  {
    var m := n.(chokes := n.chokes - {p});
    WantSetStays(n, m);
    forall q | q in m.order && q != p
      ensures Cap(m, q)
    {
      assert Cap(n, q);
      RechokeKeepsCap(n, m, q);
    }
  }

  lemma RechokeKeepsCap(n: Net, m: Net, q: nat)
    requires m == n.(chokes := m.chokes) && WantSet(m) == WantSet(n) && Cap(n, q)
    requires q in n.chokes ==> q in m.chokes
    ensures Cap(m, q)
  {
    if n.endgame && AllRequested(n, q) {
      assert AllRequested(m, q);
    }
  }

  // ---------- Choke ----------

  /** A peer with a request outstanding: something is missing, so something is left to request. */
  lemma RequestMeansMissing(n: Net, p: nat)
    requires SteadyNormal(n) && p in n.peers && n.peers[p].nreqsOut > 0
    ensures WantSet(n) != {}
  {
    assert n.peers[p].Settled();
    FindListed(n, p, n.peers[p].reqs[0]);
    assert n.peers[p].reqs[0].piece in n.busy;
    assert n.peers[p].reqs[0].piece in Range(|n.nblocks|);
  }

  lemma ChokedReady(n: Net, p: nat)
    requires Inv(n) && p in n.order
    ensures var m := n.(chokes := n.chokes + {p});
      Steady(m) && Caps(m, {}) && CountOk(m.count, m.order, m.has) && Elems(m.order) == m.peers.Keys
      && p in m.peers && m.peers[p].Settled() && (n.peers[p].nreqsOut > 0 && !n.endgame ==> WantSet(m) != {})
  {
    var m := n.(chokes := n.chokes + {p});
    WantSetStays(n, m);
    SettledPeer(n, p);
    forall q | q in m.order
      ensures Cap(m, q)
    {
      assert Cap(n, q);
      RechokeKeepsCap(n, m, q);
    }
    if n.peers[p].nreqsOut > 0 && !n.endgame {
      RequestMeansMissing(n, p);
    }
  }

  lemma LostQuiet(n: Net, m: Net, p: nat)
    requires Quiet(n.order, n.chokes, n.peers) && Lost(n.(chokes := n.chokes + {p}), m, p)
    requires m.peers[p].reqs == []
    ensures Quiet(m.order, m.chokes, m.peers)
  {
    forall q | q in m.order && q in m.chokes && q in m.peers
      ensures m.peers[q].reqs == []
    {
      if q != p {
        assert n.peers[q].reqs == [];
      }
    }
  }

  lemma NormalCaps(n: Net)
    ensures !n.endgame ==> (AllBusy(n, WantSet(n)) <==> Caps(n, {}))
  {
    if !n.endgame {
      forall q | q in n.order
        ensures Busy(n, q, WantSet(n)) <==> Cap(n, q)
      {
      }
    }
  }

  lemma ChokedInv(n: Net, m: Net, p: nat)
    requires Outer(n) && p in n.order
    requires !n.endgame && Unassigning(n.(chokes := n.chokes + {p}), m, p) && m.peers[p].reqs == []
    ensures Inv(m)
  {
    LostQuiet(n, m, p);
    NormalCaps(m);
  }

  /** Withdrawing all of p's requests in end game costs no other peer anything. */
  lemma FewerKeepsCap(n: Net, m: Net, p: nat, q: nat)
    requires FewerAll(n, m, p) && n.endgame && Cap(n, q) && (q != p || p in n.chokes)
    ensures Cap(m, q)
  {
    if q !in n.chokes && AllRequested(n, q) {
      forall i | i in m.pieces && q in m.has && i in m.has[q] && i < |m.nblocks| && i < |m.have|
        ensures AllRequestedOf(m.peers, q, i, m.nblocks[i], m.have[i])
      {
        assert i in n.pieces && AllRequestedOf(n.peers, q, i, n.nblocks[i], n.have[i]);
        forall b: nat | b < m.nblocks[i] && b !in m.have[i]
          ensures Asks(m.peers, q, i, b)
        {
          assert Asks(n.peers, q, i, b);
        }
      }
    }
  }

  lemma FewerIsLost(n: Net, m: Net, p: nat)
    requires FewerAll(n, m, p)
    ensures Lost(n, m, p)
  {
  }

  lemma FewerSteady(n: Net, m: Net, p: nat)
    requires SteadyEg(n) && AllLive(n.pieces, n.have) && Unfinished(n.nblocks, n.got, n.have)
    requires FewerAll(n, m, p) && Base(m) && Linked(m.getlst, m.busy) && Sorted(m)
    ensures Steady(m)
  {
    FewerKeepsLive(n, m, p);
    WantPut(n.order, n.peers, n.has, n.busy, p, m.peers[p]);
  }

  lemma ChokedEgInv(n: Net, c: Net, m: Net, p: nat)
    requires Inv(n) && n.endgame && p in n.order && c == n.(chokes := n.chokes + {p})
    requires Steady(c) && Caps(c, {})
    requires FewerAll(c, m, p) && m.peers[p].reqs == []
    requires Base(m) && Linked(m.getlst, m.busy) && Sorted(m)
    ensures Inv(m)
  {
    FewerSteady(c, m, p);
    FewerIsLost(c, m, p);
    LostQuiet(n, m, p);
    forall q | q in m.order
      ensures Cap(m, q)
    {
      FewerKeepsCap(c, m, p, q);
    }
  }

  // ---------- Changes to one output queue ----------

  lemma RequeueKeepsBase(n: Net, p: nat, pr: Peer)
    requires Base(n) && p in n.peers && Requeued(n.peers[p], pr)
    ensures Base(n.(peers := n.peers[p := pr]))
  {
    PutPeer(n.peers, p, pr);
    PutSameReqs(n.peers, n.peers, p, pr);
    SameReqsLedger(n.pieces, n.have, n.peers, n.peers[p := pr]);
    HeldPut(n.order, n.peers, n.has, p, pr);
  }

  lemma RequeueKeepsCap(n: Net, p: nat, pr: Peer, q: nat)
    requires p in n.peers && Requeued(n.peers[p], pr) && Cap(n, q)
    ensures Cap(n.(peers := n.peers[p := pr]), q)
  {
    var m := n.(peers := n.peers[p := pr]);
    WantSetStays(n, m);
    if n.endgame && q !in n.chokes && AllRequested(n, q) {
      forall i | i in m.pieces && q in m.has && i in m.has[q] && i < |m.nblocks| && i < |m.have|
        ensures AllRequestedOf(m.peers, q, i, m.nblocks[i], m.have[i])
      {
        forall b: nat | b < m.nblocks[i] && b !in m.have[i]
          ensures Asks(m.peers, q, i, b)
        {
          assert AllRequestedOf(n.peers, q, i, n.nblocks[i], n.have[i]);
          assert Asks(n.peers, q, i, b);
        }
      }
    }
  }

  lemma RequeueKeepsSteady(n: Net, p: nat, pr: Peer)
    requires Steady(n) && p in n.peers && Requeued(n.peers[p], pr)
    ensures Steady(n.(peers := n.peers[p := pr]))
  {
    WantSetStays(n, n.(peers := n.peers[p := pr]));
    RequeueKeepsBase(n, p, pr);
    if n.endgame {
      WantPut(n.order, n.peers, n.has, n.busy, p, pr);
    } else {
      WantPut(n.order, n.peers, n.has, WantSet(n), p, pr);
    }
  }

  lemma RequeueKeepsInv(n: Net, p: nat, pr: Peer, x: set<nat>)
    requires InvBut(n, x) && p in n.peers && Requeued(n.peers[p], pr)
    ensures InvBut(n.(peers := n.peers[p := pr]), x)
    ensures SameReqs(n.peers, n.peers[p := pr])
  {
    RequeueKeepsSteady(n, p, pr);
    RequeueKeepsCaps(n, p, pr, x);
    PutPeer(n.peers, p, pr);
    PutSameReqs(n.peers, n.peers, p, pr);
    SameReqsOuter(n, n.(peers := n.peers[p := pr]));
  }

  lemma RequeueKeepsCaps(n: Net, p: nat, pr: Peer, x: set<nat>)
    requires p in n.peers && Requeued(n.peers[p], pr) && Caps(n, x)
    ensures Caps(n.(peers := n.peers[p := pr]), x)
  {
    var m := n.(peers := n.peers[p := pr]);
    forall q | q in m.order && q !in x
      ensures Cap(m, q)
    {
      assert Cap(n, q);
      RequeueKeepsCap(n, p, pr, q);
    }
  }

  lemma SameReqsOuter(n: Net, m: Net)
    requires Outer(n) && m == n.(peers := m.peers) && SameReqs(n.peers, m.peers)
    ensures Outer(m)
  {
  }

  // ---------- Peers come and go ----------

  lemma {:induction false} HoldersRemove(order: seq<nat>, has: map<nat, set<nat>>, p: nat, i: nat)
    requires NoDup(order) && p in order && p in has
    ensures Holders(order, has, i) == Holders(Remove(order, p), has, i) + (if i in has[p] then 1 else 0)
  {
    if order[0] != p {
      HoldersRemove(order[1..], has, p, i);
      assert Remove(order, p)[1..] == Remove(order[1..], p);
    }
  }

  lemma {:induction false} HoldersSame(order: seq<nat>, has: map<nat, set<nat>>, has': map<nat, set<nat>>, i: nat)
    requires forall q :: q in order ==> ((q in has && i in has[q]) <==> (q in has' && i in has'[q]))
    ensures Holders(order, has, i) == Holders(order, has', i)
  {
    if order == [] {
    } else {
      HoldersSame(order[1..], has, has', i);
    }
  }

  /** piece_count has been adjusted for the first k pieces. */
  ghost predicate CountSplit(count: seq<nat>, k: nat, order: seq<nat>, order': seq<nat>, has: map<nat, set<nat>>) {
    forall i :: 0 <= i < |count| ==> count[i] == Holders(if i < k then order' else order, has, i)
  }

  lemma CountDownStep(count: seq<nat>, k: nat, order: seq<nat>, has: map<nat, set<nat>>, p: nat)
    requires NoDup(order) && p in order && p in has && k < |count|
    requires CountSplit(count, k, order, Remove(order, p), has)
    ensures k in has[p] ==> count[k] > 0 && CountSplit(count[k := count[k] - 1], k + 1, order, Remove(order, p), has)
    ensures k !in has[p] ==> CountSplit(count, k + 1, order, Remove(order, p), has)
  {
    HoldersRemove(order, has, p, k);
  }

  ghost function Detached(n: Net, p: nat, count: seq<nat>): Net {
    n.(order := Remove(n.order, p), count := count)
  }

  lemma DetachKeepsBase(n: Net, p: nat, count: seq<nat>)
    requires Base(n) && p in n.order && |count| == |n.count|
    ensures Base(Detached(n, p, count)) && p !in Remove(n.order, p)
  {
    RemoveMembers(n.order, p);
  }

  lemma DetachKeepsWant(order: seq<nat>, peers: map<nat, Peer>, has: map<nat, set<nat>>, w: set<nat>, p: nat)
    requires NoDup(order) && WantOk(order, peers, has, w)
    ensures WantOk(Remove(order, p), peers, has, w)
  {
    RemoveMembers(order, p);
  }

  lemma DetachKeepsSteady(n: Net, p: nat, count: seq<nat>)
    requires Steady(n) && p in n.order && |count| == |n.count|
    ensures Steady(Detached(n, p, count))
  {
    var m := Detached(n, p, count);
    DetachKeepsBase(n, p, count);
    WantSetStays(n, m);
    DetachKeepsWant(n.order, n.peers, n.has, if n.endgame then n.busy else WantSet(n), p);
  }

  lemma DetachKeepsCaps(n: Net, p: nat, count: seq<nat>)
    requires NoDup(n.order) && Caps(n, {})
    ensures Caps(Detached(n, p, count), {})
  {
    var m := Detached(n, p, count);
    WantSetStays(n, m);
    RemoveMembers(n.order, p);
    forall q | q in m.order
      ensures Cap(m, q)
    {
      assert Cap(n, q);
      if n.endgame && q !in n.chokes && AllRequested(n, q) {
        assert AllRequested(m, q);
      }
    }
  }

  ghost function Forgotten(n: Net, p: nat): Net {
    n.(peers := n.peers - {p}, has := n.has - {p}, chokes := n.chokes - {p})
  }

  lemma ForgetKeepsLedger(pieces: map<nat, Piece>, have: seq<set<nat>>, peers: map<nat, Peer>, p: nat)
    requires Ledger(pieces, have, peers) && p in peers && peers[p].reqs == []
    ensures Ledger(pieces, have, peers - {p})
  {
    var peers' := peers - {p};
    forall q, i, b
      ensures Asks(peers', q, i, b) <==> Listed(pieces, have, q, i, b)
    {
      assert Asks(peers, q, i, b) <==> Listed(pieces, have, q, i, b);
    }
  }

  lemma ForgetKeepsBase(n: Net, p: nat)
    requires Base(n) && p in n.peers && p !in n.order && n.peers[p].reqs == []
    ensures Base(Forgotten(n, p))
  {
    ForgetKeepsLedger(n.pieces, n.have, n.peers, p);
    ForgetKeepsPeers(n.peers, p);
    ForgetKeepsLists(|n.nblocks|, n.order, n.peers, n.has, p);
  }

  lemma ForgetKeepsLists(npieces: nat, order: seq<nat>, peers: map<nat, Peer>, has: map<nat, set<nat>>, p: nat)
    requires PeerListsOk(npieces, order, peers, has) && p !in order
    ensures PeerListsOk(npieces, order, peers - {p}, has - {p})
    ensures HeldOk(order, peers, has) ==> HeldOk(order, peers - {p}, has - {p})
  {
    assert p !in Elems(order);
  }

  lemma ForgetKeepsPeers(peers: map<nat, Peer>, p: nat)
    ensures AllSettled(peers) ==> AllSettled(peers - {p})
    ensures AllLoose(peers) ==> AllLoose(peers - {p})
    ensures (peers - {p}).Keys == peers.Keys - {p}
  {
  }

  lemma ForgetKeepsSteady(n: Net, p: nat)
    requires Steady(n) && p in n.peers && p !in n.order && n.peers[p].reqs == []
    ensures Steady(Forgotten(n, p))
  {
    ForgetKeepsBase(n, p);
    WantSetStays(n, Forgotten(n, p));
    ForgetKeepsWant(n.order, n.peers, n.has, if n.endgame then n.busy else WantSet(n), p);
  }

  lemma ForgetKeepsWant(order: seq<nat>, peers: map<nat, Peer>, has: map<nat, set<nat>>, w: set<nat>, p: nat)
    requires WantOk(order, peers, has, w) && p !in order
    ensures WantOk(order, peers - {p}, has - {p}, w)
  {
  }

  lemma ForgetKeepsCap(n: Net, p: nat, q: nat)
    requires Cap(n, q) && q != p
    ensures Cap(Forgotten(n, p), q)
  {
    var m := Forgotten(n, p);
    WantSetStays(n, m);
    if n.endgame && q !in n.chokes && AllRequested(n, q) {
      forall i | i in m.pieces && q in m.has && i in m.has[q] && i < |m.nblocks| && i < |m.have|
        ensures AllRequestedOf(m.peers, q, i, m.nblocks[i], m.have[i])
      {
        forall b: nat | b < m.nblocks[i] && b !in m.have[i]
          ensures Asks(m.peers, q, i, b)
        {
          assert AllRequestedOf(n.peers, q, i, n.nblocks[i], n.have[i]);
          assert Asks(n.peers, q, i, b);
        }
      }
    }
  }

  lemma ForgetKeepsOuter(n: Net, o: Net, p: nat)
    requires Outer(n) && NoDup(n.order) && p in n.order
    requires o.order == Remove(n.order, p) && o.has == n.has && o.chokes == n.chokes && o.peers.Keys == n.peers.Keys
    requires CountOk(o.count, o.order, o.has)
    requires forall q :: q in n.peers && q != p && q in n.chokes ==> q in o.peers && o.peers[q].reqs == n.peers[q].reqs
    ensures Outer(Forgotten(o, p))
  {
    RemoveMembers(n.order, p);
    RemoveElems(n.order, p);
    ForgetKeepsCount(o.count, o.order, o.has, p);
    ForgetKeepsPeers(o.peers, p);
  }

  lemma ForgetKeepsCount(count: seq<nat>, order: seq<nat>, has: map<nat, set<nat>>, p: nat)
    requires CountOk(count, order, has) && p !in order
    ensures CountOk(count, order, has - {p})
  {
    forall i | 0 <= i < |count|
      ensures count[i] == Holders(order, has - {p}, i)
    {
      HoldersSame(order, has, has - {p}, i);
    }
  }

  lemma ForgottenInv(n: Net, o: Net, p: nat)
    requires Steady(o) && Caps(o, {}) && p in o.peers && p !in o.order && o.peers[p].reqs == []
    requires Outer(Forgotten(o, p))
    ensures Inv(Forgotten(o, p))
  {
    ForgetKeepsSteady(o, p);
    forall q | q in o.order
      ensures Cap(Forgotten(o, p), q)
    {
      assert Cap(o, q);
      ForgetKeepsCap(o, p, q);
    }
  }

  lemma FewerKeepsCaps(n: Net, m: Net, p: nat)
    requires FewerAll(n, m, p) && n.endgame && Caps(n, {}) && p !in n.order
    ensures Caps(m, {})
  {
    forall q | q in m.order
      ensures Cap(m, q)
    {
      assert Cap(n, q);
      FewerKeepsCap(n, m, p, q);
    }
  }

  /** p is gone with all that was its; the other peers keep what they had been asked for. */
  ghost predicate WithoutPeer(n: Net, m: Net, p: nat) {
    && m.nblocks == n.nblocks && m.got == n.got && m.have == n.have
    && m.order == Remove(n.order, p)
    && m.peers.Keys == n.peers.Keys - {p} && m.has == n.has - {p} && m.chokes == n.chokes - {p}
    && (forall q :: q in n.peers && q != p ==>
         q in m.peers && n.peers[q].reqs <= m.peers[q].reqs && SameRecord(n.peers[q], m.peers[q]))
  }

  lemma WithoutPeerHolds(n: Net, d: Net, o: Net, p: nat)
    requires d == Detached(n, p, d.count) && Lost(d, o, p)
    ensures WithoutPeer(n, Forgotten(o, p), p)
  {
  }

  ghost function WithPeer(n: Net, p: nat): Net {
    n.(order := [p] + n.order, peers := n.peers[p := FRESH_PEER], has := n.has[p := {}], chokes := n.chokes + {p})
  }

  lemma FreshPeerSettled()
    ensures FRESH_PEER.Settled()
  {
    assert Interests([]) == [] && FRESH_PEER.sent + FRESH_PEER.outq == [];
    forall x
      ensures Squares([], [], FRESH_PEER.past, x)
    {
    }
  }

  lemma JoinKeepsLedger(pieces: map<nat, Piece>, have: seq<set<nat>>, peers: map<nat, Peer>, p: nat)
    requires Ledger(pieces, have, peers) && p !in peers
    ensures Ledger(pieces, have, peers[p := FRESH_PEER])
  {
    var peers' := peers[p := FRESH_PEER];
    forall q, i, b
      ensures Asks(peers', q, i, b) <==> Listed(pieces, have, q, i, b)
    {
      assert Asks(peers, q, i, b) <==> Listed(pieces, have, q, i, b);
    }
  }

  lemma JoinKeepsBase(n: Net, p: nat)
    requires Base(n) && p !in n.peers
    ensures Base(WithPeer(n, p))
  {
    FreshPeerSettled();
    JoinKeepsLedger(n.pieces, n.have, n.peers, p);
    JoinKeepsPeers(n.peers, p);
    JoinKeepsLists(|n.nblocks|, n.order, n.peers, n.has, p);
  }

  lemma JoinKeepsLists(npieces: nat, order: seq<nat>, peers: map<nat, Peer>, has: map<nat, set<nat>>, p: nat)
    requires PeerListsOk(npieces, order, peers, has) && p !in peers
    ensures PeerListsOk(npieces, [p] + order, peers[p := FRESH_PEER], has[p := {}])
  {
    assert p !in Elems(order);
    NoDupCons(p, order);
    assert Elems([p] + order) == {p} + Elems(order);
  }

  lemma JoinKeepsPeers(peers: map<nat, Peer>, p: nat)
    requires FRESH_PEER.Settled()
    ensures AllSettled(peers) ==> AllSettled(peers[p := FRESH_PEER])
    ensures AllLoose(peers) ==> AllLoose(peers[p := FRESH_PEER])
  {
  }

  lemma JoinKeepsWant(order: seq<nat>, peers: map<nat, Peer>, has: map<nat, set<nat>>, w: set<nat>, p: nat)
    requires WantOk(order, peers, has, w) && p !in order
    ensures WantOk([p] + order, peers[p := FRESH_PEER], has[p := {}], w)
  {
    var has' := has[p := {}];
    assert has'[p] * w == {};
  }

  lemma JoinKeepsSteady(n: Net, p: nat)
    requires Steady(n) && p !in n.peers
    ensures Steady(WithPeer(n, p))
  {
    assert p !in Elems(n.order);
    JoinKeepsBase(n, p);
    WantSetStays(n, WithPeer(n, p));
    JoinKeepsWant(n.order, n.peers, n.has, if n.endgame then n.busy else WantSet(n), p);
  }

  lemma JoinKeepsCap(n: Net, p: nat, q: nat)
    requires Cap(n, q) && q != p
    ensures Cap(WithPeer(n, p), q)
  {
    var m := WithPeer(n, p);
    WantSetStays(n, m);
    if n.endgame && q !in n.chokes && AllRequested(n, q) {
      forall i | i in m.pieces && q in m.has && i in m.has[q] && i < |m.nblocks| && i < |m.have|
        ensures AllRequestedOf(m.peers, q, i, m.nblocks[i], m.have[i])
      {
        forall b: nat | b < m.nblocks[i] && b !in m.have[i]
          ensures Asks(m.peers, q, i, b)
        {
          assert AllRequestedOf(n.peers, q, i, n.nblocks[i], n.have[i]);
          assert Asks(n.peers, q, i, b);
        }
      }
    }
  }

  lemma JoinKeepsOuter(n: Net, p: nat)
    requires Outer(n) && p !in n.peers
    ensures Outer(WithPeer(n, p))
  {
    var m := WithPeer(n, p);
    assert p !in Elems(n.order);
    forall i | 0 <= i < |m.count|
      ensures m.count[i] == Holders(m.order, m.has, i)
    {
      HoldersSame(n.order, n.has, m.has, i);
      assert m.order[1..] == n.order;
    }
    assert Elems(m.order) == {p} + Elems(n.order);
  }

  lemma WithPeerInv(n: Net, p: nat)
    requires Inv(n) && p !in n.peers
    ensures Inv(WithPeer(n, p))
  {
    JoinKeepsSteady(n, p);
    JoinKeepsOuter(n, p);
    forall q | q in WithPeer(n, p).order
      ensures Cap(WithPeer(n, p), q)
    {
      if q != p {
        assert q in n.order;
        assert Cap(n, q);
        JoinKeepsCap(n, p, q);
      }
    }
  }

  // ---------- Announcements ----------

  /** The state with p's piece field as far as it has been announced. */
  ghost function Masked(n: Net, p: nat, seen: set<nat>): Net {
    n.(has := n.has[p := seen])
  }

  /** p has shown piece i, and nothing has been made of it yet. */
  ghost function Shown(n: Net, p: nat, i: nat): Net
    requires p in n.peers && p in n.has && i < |n.count|
  {
    n.(has := n.has[p := n.has[p] + {i}],
       peers := n.peers[p := n.peers[p].(npieces := n.peers[p].npieces + 1)],
       count := n.count[i := n.count[i] + 1])
  }

  ghost predicate CanShow(n: Net, p: nat, i: nat) {
    Inv(n) && p in n.order && p in n.peers && p in n.has && i < |n.count| && i !in n.has[p]
  }

  lemma NpiecesKeepsSettled(p: Peer)
    requires p.Settled()
    ensures p.(npieces := p.npieces + 1).Settled()
  {
  }

  lemma ShownKeepsBase(n: Net, p: nat, i: nat, pr: Peer)
    requires Base(n) && p in n.order && p in n.peers && p in n.has && i < |n.count| && i !in n.has[p]
    requires pr.Settled() && pr.reqs == n.peers[p].reqs && pr.npieces == n.peers[p].npieces + 1
    ensures Base(Shown(n, p, i).(peers := n.peers[p := pr]))
  {
    PutPeer(n.peers, p, pr);
    ShownKeepsLedger(n.pieces, n.have, n.peers, p, pr);
    ShownKeepsHeld(n.order, n.peers, n.has, p, i, pr);
    ShownKeepsLists(|n.nblocks|, n.order, n.peers, n.has, p, i, pr);
  }

  lemma ShownKeepsLists(npieces: nat, order: seq<nat>, peers: map<nat, Peer>, has: map<nat, set<nat>>, p: nat,
                        i: nat, pr: Peer)
    requires PeerListsOk(npieces, order, peers, has) && p in peers && p in has && i < npieces
    ensures PeerListsOk(npieces, order, peers[p := pr], has[p := has[p] + {i}])
  {
  }

  lemma ShownKeepsLedger(pieces: map<nat, Piece>, have: seq<set<nat>>, peers: map<nat, Peer>, p: nat, pr: Peer)
    requires Ledger(pieces, have, peers) && p in peers && pr.reqs == peers[p].reqs
    ensures Ledger(pieces, have, peers[p := pr])
  {
    var peers' := peers[p := pr];
    forall q, i, b
      ensures Asks(peers', q, i, b) <==> Listed(pieces, have, q, i, b)
    {
      assert Asks(peers, q, i, b) <==> Listed(pieces, have, q, i, b);
    }
  }

  lemma ShownKeepsHeld(order: seq<nat>, peers: map<nat, Peer>, has: map<nat, set<nat>>, p: nat, i: nat, pr: Peer)
    requires HeldOk(order, peers, has) && p in order && p in peers && p in has && i !in has[p]
    requires pr.npieces == peers[p].npieces + 1
    ensures HeldOk(order, peers[p := pr], has[p := has[p] + {i}])
  {
  }

  lemma {:induction false} HoldersShown(order: seq<nat>, has: map<nat, set<nat>>, p: nat, i: nat, j: nat)
    requires NoDup(order) && p in has && i !in has[p]
    ensures Holders(order, has[p := has[p] + {i}], j) ==
            Holders(order, has, j) + (if p in order && j == i then 1 else 0)
  {
    var has' := has[p := has[p] + {i}];
    if order != [] {
      if order[0] == p {
        HoldersSame(order[1..], has, has', j);
      } else {
        HoldersShown(order[1..], has, p, i, j);
      }
    }
  }

  lemma ShownKeepsOuter(n: Net, p: nat, i: nat)
    requires Outer(n) && NoDup(n.order) && p in n.order && p in n.peers && p in n.has && i < |n.count| && i !in n.has[p]
    ensures Outer(Shown(n, p, i))
  {
    var m := Shown(n, p, i);
    forall j | 0 <= j < |m.count|
      ensures m.count[j] == Holders(m.order, m.has, j)
    {
      HoldersShown(n.order, n.has, p, i, j);
    }
    assert m.peers.Keys == n.peers.Keys;
  }

  /** The want levels once p, if the new piece is wanted, has been wanted for it. */
  lemma ShownWant(order: seq<nat>, peers: map<nat, Peer>, has: map<nat, set<nat>>, w: set<nat>, p: nat, i: nat,
                  pr: Peer)
    requires WantOk(order, peers, has, w) && p in peers && p in has && i !in has[p] && p in order
    requires pr.nwant == peers[p].nwant + (if i in w then 1 else 0)
    ensures WantOk(order, peers[p := pr], has[p := has[p] + {i}], w)
  {
    var has' := has[p := has[p] + {i}];
    MeetGrow(w, has[p], i);
    assert w * (has[p] + {i}) == has'[p] * w;
    assert w * has[p] == has[p] * w;
  }

  lemma ShownKeepsCap(n: Net, p: nat, i: nat, q: nat, pr: Peer)
    requires p in n.peers && p in n.has && i < |n.count| && Cap(n, q)
    requires pr.reqs == n.peers[p].reqs && pr.nreqsOut == n.peers[p].nreqsOut
    requires q == p ==> i !in WantSet(n) && (n.endgame ==> i !in n.pieces)
    ensures Cap(Shown(n, p, i).(peers := n.peers[p := pr]), q)
  {
    var m := Shown(n, p, i).(peers := n.peers[p := pr]);
    WantSetStays(n, m);
    if n.endgame && q !in n.chokes && AllRequested(n, q) {
      forall j | j in m.pieces && q in m.has && j in m.has[q] && j < |m.nblocks| && j < |m.have|
        ensures AllRequestedOf(m.peers, q, j, m.nblocks[j], m.have[j])
      {
        assert j in n.has[q];
        forall b: nat | b < m.nblocks[j] && b !in m.have[j]
          ensures Asks(m.peers, q, j, b)
        {
          assert AllRequestedOf(n.peers, q, j, n.nblocks[j], n.have[j]);
          assert Asks(n.peers, q, j, b);
        }
      }
    }
  }

  lemma SteadyWantOk(n: Net)
    requires Steady(n)
    ensures WantOk(n.order, n.peers, n.has, WantSet(n))
    ensures n.endgame ==> WantSet(n) == n.busy
  {
    if n.endgame {
      WantSetEg(n);
    }
  }

  lemma ShownKeepsSteady(n: Net, p: nat, i: nat, pr: Peer)
    requires Steady(n) && p in n.order && p in n.peers && p in n.has && i < |n.count| && i !in n.has[p]
    requires pr.Settled() && pr.nwant == n.peers[p].nwant + (if i in WantSet(n) then 1 else 0)
    requires pr.reqs == n.peers[p].reqs && pr.npieces == n.peers[p].npieces + 1
    ensures Steady(Shown(n, p, i).(peers := n.peers[p := pr]))
  {
    var m := Shown(n, p, i).(peers := n.peers[p := pr]);
    ShownKeepsBase(n, p, i, pr);
    WantSetStays(n, m);
    SteadyWantOk(n);
    ShownWant(n.order, n.peers, n.has, WantSet(n), p, i, pr);
  }

  /** A piece that is not wanted changes no want level and leaves no capacity idle. */
  lemma ShownUnwanted(n: Net, p: nat, i: nat)
    requires CanShow(n, p, i) && i !in WantSet(n)
    ensures Inv(Shown(n, p, i))
  {
    var m := Shown(n, p, i);
    SettledPeer(n, p);
    NpiecesKeepsSettled(n.peers[p]);
    SteadyWantOk(n);
    ShownKeepsSteady(n, p, i, m.peers[p]);
    ShownKeepsOuter(n, p, i);
    forall q | q in m.order
      ensures Cap(m, q)
    {
      assert Cap(n, q);
      ShownKeepsCap(n, p, i, q, m.peers[p]);
    }
  }

  ghost function ShownWanted(n: Net, p: nat, i: nat): Net
    requires p in n.peers && p in n.has && i < |n.count|
    requires n.peers[p].Settled() && n.peers[p].nwant <= n.peers[p].npieces
  {
    NpiecesKeepsSettled(n.peers[p]);
    Shown(n, p, i).(peers := n.peers[p := Want(n.peers[p].(npieces := n.peers[p].npieces + 1))])
  }

  lemma WantBelow(n: Net, p: nat)
    requires Steady(n) && p in n.order && p in n.peers && p in n.has
    ensures n.peers[p].nwant <= n.peers[p].npieces
  {
    SteadyWantOk(n);
    SubsetCard(n.has[p] * WantSet(n), n.has[p]);
  }

  lemma ShownWantedInv(n: Net, p: nat, i: nat)
    requires CanShow(n, p, i) && i in WantSet(n)
    requires n.peers[p].Settled() && n.peers[p].nwant <= n.peers[p].npieces
    ensures InvBut(ShownWanted(n, p, i), {p}) && WantSet(ShownWanted(n, p, i)) == WantSet(n)
    ensures !LeechOk(ShownWanted(n, p, i), p) ==> Inv(ShownWanted(n, p, i))
  {
    var m := ShownWanted(n, p, i);
    ShownKeepsSteady(n, p, i, m.peers[p]);
    ShownKeepsOuter(n, p, i);
    PutPeer(n.peers, p, m.peers[p]);
    PutTwice(n.peers, p, Shown(n, p, i).peers[p], m.peers[p]);
    ShownAgain(Shown(n, p, i), p, m.peers[p]);
    WantSetStays(n, m);
    forall q | q in m.order && q != p
      ensures Cap(m, q)
    {
      assert Cap(n, q);
      ShownKeepsCap(n, p, i, q, m.peers[p]);
    }
    if !LeechOk(m, p) {
      NotLeechOk(m, p);
    }
  }

  lemma ShownAgain(n: Net, p: nat, pr: Peer)
    requires Outer(n) && p in n.peers && pr.reqs == n.peers[p].reqs
    ensures Outer(n.(peers := n.peers[p := pr]))
  {
    assert n.peers[p := pr].Keys == n.peers.Keys;
  }

  /** Before the announcement p had nothing to offer, unless it chokes us or is laden. */
  lemma OnlyNewPiece(n: Net, p: nat, i: nat)
    requires CanShow(n, p, i) && !n.endgame && i in WantSet(n)
    requires p !in n.chokes && !n.peers[p].Laden()
    ensures (n.has[p] + {i}) * WantSet(n) == {i}
  {
    assert Cap(n, p);
  }

  /** Assigning requests on the new piece alone is enough. */
  lemma AnnouncedInv(n: Net, l: Net, m: Net, p: nat, i: nat)
    requires InvBut(n, {p}) && !n.endgame && p in n.order && p in n.has && LeechOk(n, p)
    requires n.has[p] * WantSet(n) == {i}
    requires l == n || (i < |n.have| && l == Started(n, i))
    requires Base(l) && Linked(l.getlst, l.busy) && WantSet(l) == WantSet(n) && Grew(n, l)
    requires Assigned(l, m, i, p)
    ensures Inv(m)
  {
    AssigningStart(n, p);
    if l != n {
      AssigningNew(n, n, l, p, i);
    }
    AssigningStep(n, l, m, i, p);
    if !m.endgame {
      NothingElse(n.has[p], WantSet(n), i);
    }
    AssignedInv(n, m, p);
  }

  lemma NothingElse(has: set<nat>, w: set<nat>, i: nat)
    requires has * w == {i}
    ensures has !! (w - {i})
  {
  }

  lemma NewIsWanted(n: Net, p: nat, i: nat)
    requires SteadyNormal(n) && p in n.order && p in n.has && n.has[p] * WantSet(n) == {i}
    ensures i in WantSet(n) && i in n.has[p] && i < |n.nblocks| && i !in n.got
    ensures i !in n.pieces ==> i !in n.busy
  {
    assert i in n.has[p] * WantSet(n);
    assert Wanted(n, i);
  }

  /** The branches of dl_on_piece_ann tell wanted pieces from the others. */
  lemma AnnBranches(n: Net, p: nat, i: nat)
    requires CanShow(n, p, i)
    ensures i < |n.nblocks|
    ensures n.endgame && i !in n.got ==> i in n.pieces
    ensures i in WantSet(n) <==> i !in n.got && (n.endgame || i !in n.pieces || !Full(n.pieces[i], n.nblocks[i]))
  {
    assert i in WantSet(n) <==> Wanted(n, i);
    if n.endgame && i !in n.got {
      SteadyWantOk(n);
      assert Wanted(n, i);
      assert i in WantSet(n);
    }
  }

  lemma WantedGrew(n: Net, p: nat, i: nat)
    requires p in n.order && p in n.peers && p in n.has && i < |n.count|
    requires n.peers[p].Settled() && n.peers[p].nwant <= n.peers[p].npieces
    ensures Grew(Shown(n, p, i), ShownWanted(n, p, i))
  {
    var s, w := Shown(n, p, i), ShownWanted(n, p, i);
    assert w.peers.Keys == s.peers.Keys;
  }

  lemma MaskSame(n: Net, p: nat, seen: set<nat>)
    requires p in n.has && n.has[p] == seen
    ensures Masked(n, p, seen) == n
  {
    assert n.has[p := seen] == n.has;
  }

  lemma WantedReady(n: Net, p: nat, i: nat)
    requires CanShow(n, p, i) && i in WantSet(n)
    ensures n.peers[p].Settled() && n.peers[p].nwant <= n.peers[p].npieces
    ensures Shown(n, p, i).peers[p].Settled() && Shown(n, p, i).peers[p].nwant < Shown(n, p, i).peers[p].npieces
  {
    SettledPeer(n, p);
    WantBelow(n, p);
    NpiecesKeepsSettled(n.peers[p]);
  }

  lemma MaskWanted(n: Net, m: Net, p: nat, i: nat, seen: set<nat>)
    requires CanShow(n, p, i) && n.has[p] == seen && i in WantSet(n)
    requires n.peers[p].Settled() && n.peers[p].nwant <= n.peers[p].npieces
    requires Shown(n, p, i).peers[p].Settled()
    requires p in m.peers && m.peers == Shown(n, p, i).peers[p := Want(Shown(n, p, i).peers[p])]
    requires Masked(m, p, seen + {i}) == Shown(n, p, i).(peers := m.peers)
    ensures Masked(m, p, seen + {i}) == ShownWanted(n, p, i)
    ensures InvBut(ShownWanted(n, p, i), {p}) && WantSet(ShownWanted(n, p, i)) == WantSet(n)
    ensures Grew(Shown(n, p, i), ShownWanted(n, p, i))
    ensures LeechOk(m, p) <==> LeechOk(ShownWanted(n, p, i), p)
    ensures !LeechOk(m, p) ==> Inv(ShownWanted(n, p, i))
  {
    PutTwice(n.peers, p, Shown(n, p, i).peers[p], Want(Shown(n, p, i).peers[p]));
    ShownWantedInv(n, p, i);
    WantedGrew(n, p, i);
  }

  lemma SkipNew(n: Net, m: Net, p: nat, i: nat, seen: set<nat>)
    requires CanShow(n, p, i) && i !in WantSet(n)
    requires Masked(m, p, seen + {i}) == Shown(n, p, i)
    ensures Inv(Masked(m, p, seen + {i})) && Grew(Shown(n, p, i), Masked(m, p, seen + {i}))
  {
    ShownUnwanted(n, p, i);
    GrewRefl(Shown(n, p, i));
  }

  lemma MaskCount(n: Net, m: Net, p: nat, i: nat, seen: set<nat>)
    requires p in n.peers && p in n.has && i < |n.count|
    requires Masked(m, p, seen + {i}) == Shown(n, p, i).(count := n.count)
    ensures i < |m.count| && m.got == n.got && m.endgame == n.endgame && m.pieces == n.pieces && m.nblocks == n.nblocks
    ensures Masked(m.(count := m.count[i := m.count[i] + 1]), p, seen + {i}) == Shown(n, p, i)
  {
  }

  lemma AnnounceMask(m: Net, p: nat, i: nat, seen: set<nat>)
    requires p in m.peers && i < |m.count|
    ensures Masked(m.(peers := m.peers[p := m.peers[p].(npieces := m.peers[p].npieces + 1)]), p, seen + {i})
         == Shown(Masked(m, p, seen), p, i).(count := m.count)
  {
    PutTwice(m.has, p, seen, seen + {i});
  }

  lemma HaveMask(n: Net, p: nat, i: nat)
    requires Inv(n) && p in n.order && p in n.peers && p in n.has && i < |n.nblocks| && i !in n.has[p]
    ensures CanShow(n, p, i)
    ensures Masked(n.(has := n.has[p := n.has[p] + {i}]), p, n.has[p]) == n
  {
    PutTwice(n.has, p, n.has[p] + {i}, n.has[p]);
    MaskSame(n, p, n.has[p]);
  }

  /** Requests were only added, and nothing was written. */
  ghost predicate KeptRequests(peers: map<nat, Peer>, peers': map<nat, Peer>) {
    forall q :: q in peers ==> q in peers' && peers[q].reqs <= peers'[q].reqs && SamePast(peers[q], peers'[q])
  }

  lemma KeptRequestsTransitive(a: map<nat, Peer>, b: map<nat, Peer>, c: map<nat, Peer>)
    requires KeptRequests(a, b) && KeptRequests(b, c)
    ensures KeptRequests(a, c)
  {
    forall q | q in a
      ensures q in c && a[q].reqs <= c[q].reqs && SamePast(a[q], c[q])
    {
      assert a[q].reqs <= b[q].reqs <= c[q].reqs;
    }
  }

  ghost function Below(field: set<nat>, i: nat): set<nat> {
    set j | j in field && j < i
  }

  /** The pieces of the bit field below i have been announced; s is the state as far as they go. */
  ghost predicate Announced(n: Net, m: Net, s: Net, p: nat, field: set<nat>, i: nat) {
    && m.has == n.has && p in n.has && n.has[p] == field && s == Masked(m, p, Below(field, i)) && Inv(s)
    && m.nblocks == n.nblocks && m.order == n.order && m.chokes == n.chokes && m.got == n.got && m.have == n.have
    && p in n.order && p in n.chokes && KeptRequests(n.peers, m.peers) && m.endgame == n.endgame
  }

  /** The same, kept folded until a step of the loop needs its parts. */
  ghost predicate Announcing(n: Net, m: Net, s: Net, p: nat, field: set<nat>, i: nat) {
    forall j: nat {:trigger Announced(n, m, s, p, field, j)} :: j == i ==> Announced(n, m, s, p, field, j)
  }

  lemma BitfieldStart(n: Net, p: nat, field: set<nat>) returns (s: Net)
    requires Inv(n) && p in n.order && p in n.chokes && p in n.has && n.has[p] == {}
    ensures var m := n.(has := n.has[p := field]);
      Announced(m, m, s, p, field, 0)
  {
    s := n;
    assert Below(field, 0) == {};
    PutTwice(n.has, p, field, {});
    MaskSame(n, p, {});
    KeptRequestsRefl(n.peers);
  }

  lemma KeptRequestsRefl(peers: map<nat, Peer>)
    ensures KeptRequests(peers, peers)
  {
  }

  lemma BitfieldTurn(n: Net, m: Net, s: Net, p: nat, field: set<nat>, i: nat)
    requires Announced(n, m, s, p, field, i) && i < |m.nblocks|
    ensures p in m.has && p in m.chokes
    ensures i in m.has[p] ==> CanShow(Masked(m, p, Below(field, i)), p, i)
    ensures i !in m.has[p] ==> Announced(n, m, s, p, field, i + 1)
  {
    BelowStep(field, i);
    SettledPeer(s, p);
  }

  lemma BelowStep(field: set<nat>, i: nat)
    ensures Below(field, i + 1) == if i in field then Below(field, i) + {i} else Below(field, i)
  {
  }

  lemma BitfieldStep(n: Net, m: Net, l: Net, s: Net, p: nat, field: set<nat>, i: nat) returns (s': Net)
    requires Announced(n, m, s, p, field, i) && i in field
    requires CanShow(s, p, i)
    requires l.has == m.has && l.endgame == m.endgame && Inv(Masked(l, p, Below(field, i) + {i}))
    requires Grew(Shown(s, p, i), Masked(l, p, Below(field, i) + {i}))
    ensures Announced(n, l, s', p, field, i + 1)
  {
    BelowStep(field, i);
    s' := Masked(l, p, Below(field, i) + {i});
    GrewRequests(Shown(s, p, i), s');
    ShownRequests(m.peers, p, Shown(s, p, i).peers[p]);
    KeptRequestsTransitive(m.peers, Shown(s, p, i).peers, l.peers);
    KeptRequestsTransitive(n.peers, m.peers, l.peers);
  }

  lemma GrewRequests(n: Net, m: Net)
    requires Grew(n, m)
    ensures KeptRequests(n.peers, m.peers)
  {
  }

  lemma ShownRequests(peers: map<nat, Peer>, p: nat, pr: Peer)
    requires p in peers && pr.reqs == peers[p].reqs && SamePast(peers[p], pr)
    ensures KeptRequests(peers, peers[p := pr])
  {
  }

  lemma BitfieldEnd(n: Net, m: Net, s: Net, p: nat, field: set<nat>, i: nat)
    requires i == |n.nblocks| && Announced(n, m, s, p, field, i) && field <= Range(i)
    ensures Inv(m)
  {
    assert Below(field, i) == field;
    MaskSame(m, p, field);
  }

  // ---------- Runs ----------

  datatype Event =
    | NewPeer(p: nat)
    | LostPeer(p: nat)
    | GotHave(p: nat, i: nat)
    | GotBitfield(p: nat, field: set<nat>)
    | GotChoke(p: nat)
    | GotUnchoke(p: nat)
    | GotPiece(p: nat, x: Block)
    | Wrote(p: nat, k: nat, part: bool)
    | SentOther(p: nat)
    | WithdrewOther(p: nat, k: nat)

  predicate Enabled(n: Net, e: Event) {
    match e
    case NewPeer(p) => p !in n.peers
    case LostPeer(p) => p in n.order
    case GotHave(p, i) => p in n.order && i < |n.nblocks|
    case GotBitfield(p, field) =>
      p in n.order && p in n.chokes && p in n.has && n.has[p] == {} && forall i :: i in field ==> i < |n.nblocks|
    case GotChoke(p) => p in n.order
    case GotUnchoke(p) => p in n.order
    case GotPiece(p, x) => p in n.order
    case Wrote(p, k, part) => p in n.order && p in n.peers && k <= |n.peers[p].outq|
    case SentOther(p) => p in n.order
    case WithdrewOther(p, k) => p in n.order && p in n.peers && k < |n.peers[p].outq| && n.peers[p].outq[k].Other?
  }

  /** The first k messages for p are written, and perhaps a part of the next. */
  ghost predicate WrittenTo(n: Net, m: Net, p: nat, k: nat, part: bool)
    requires p in n.peers && k <= |n.peers[p].outq|
  {
    var o := n.peers[p];
    m == n.(peers := n.peers[p := o.(sent := o.sent + o.outq[..k], outq := o.outq[k..],
      begun := k < |o.outq| && (part || (k == 0 && o.begun)))])
  }

  ghost predicate OtherSent(n: Net, m: Net, p: nat)
    requires p in n.peers
  {
    var o := n.peers[p];
    m == n.(peers := n.peers[p := o.(outq := o.outq + [Other], past := o.past.(others := o.past.others + 1))])
  }

  ghost predicate OtherUnsent(n: Net, m: Net, p: nat, k: nat)
    requires p in n.peers && k < |n.peers[p].outq|
  {
    var o := n.peers[p];
    if k == 0 && o.begun then m == n
    else o.past.others > 0 && m == n.(peers := n.peers[p :=
      o.(outq := o.outq[..k] + o.outq[k + 1..], past := o.past.(others := o.past.others - 1))])
  }

  lemma OtherUnsentHolds(n: Net, p: nat, k: nat)
    requires p in n.peers && k < |n.peers[p].outq| && n.peers[p].past.others > 0
    ensures OtherUnsent(n, n.(peers := n.peers[p := UnsendOther(n.peers[p], k)]), p, k)
  {
    PutSame(n.peers, p);
  }

  /** What has been stored and verified stays so. */
  ghost predicate Progress(n: Net, m: Net) {
    && m.nblocks == n.nblocks && n.got <= m.got && |m.have| == |n.have| && (n.endgame ==> m.endgame)
    && forall i :: 0 <= i < |n.have| ==> n.have[i] <= m.have[i]
  }

  lemma ProgressTransitive(n: Net, m: Net, l: Net)
    requires Progress(n, m) && Progress(m, l)
    ensures Progress(n, l)
  {
    forall i | 0 <= i < |n.have|
      ensures n.have[i] <= l.have[i]
    {
      assert n.have[i] <= m.have[i] <= l.have[i];
    }
  }

  function FreshNet(nblocks: seq<nat>, got: set<nat>, have: seq<set<nat>>): Net {
    Net(nblocks, false, got, |got|, have, {}, 0, [], map[], [], map[], map[], {}, seq(|nblocks|, i => 0))
  }

  lemma FreshInv(nblocks: seq<nat>, got: set<nat>, have: seq<set<nat>>)
    requires TorrentOk(nblocks, got, |got|, have) && Unfinished(nblocks, got, have)
    ensures Inv(FreshNet(nblocks, got, have))
  {
    var n := FreshNet(nblocks, got, have);
    FreshBase(nblocks, got, have);
    assert Elems<nat>([]) == {};
    if n.got != Range(|nblocks|) {
      FreshWants(n);
    }
  }

  lemma FreshBase(nblocks: seq<nat>, got: set<nat>, have: seq<set<nat>>)
    requires TorrentOk(nblocks, got, |got|, have)
    ensures Base(FreshNet(nblocks, got, have))
  {
    var n := FreshNet(nblocks, got, have);
    assert Ledger(n.pieces, n.have, n.peers) by {
      forall q, i, b
        ensures Asks(n.peers, q, i, b) <==> Listed(n.pieces, n.have, q, i, b)
      {
      }
    }
    assert Elems<nat>([]) == {};
  }

  lemma FreshWants(n: Net)
    requires Bounded(n.got, |n.nblocks|) && n.got != Range(|n.nblocks|) && !n.endgame && n.pieces == map[]
    ensures WantSet(n) != {}
  {
    var i :| i in Range(|n.nblocks|) && i !in n.got;
    assert Wanted(n, i) && i in WantSet(n);
  }
}
