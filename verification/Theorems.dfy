/**
 What the invariant says about the downloader in every reachable state: the commandments at
 the head of btpd/download_subr.c and the facts its assertions rest on.
 */
module Theorems {
  import opened Lists
  import opened Peers
  import opened NetState
  import opened Requests
  import opened Withdrawals
  import opened Invariant

  lemma UnstartedIsUnasked(n: Net, i: nat, b: nat)
    requires Core(n) && i !in n.pieces
    ensures !Outstanding(n, i, b)
  {
    forall q
      ensures !Asks(n.peers, q, i, b)
    {
      assert Asks(n.peers, q, i, b) <==> Listed(n.pieces, n.have, q, i, b);
    }
  }

  lemma FreeIsUnrequested(n: Net, i: nat, b: nat)
    requires Core(n) && !n.endgame && i in n.pieces && b !in n.pieces[i].down
    ensures !Outstanding(n, i, b)
  {
    AsksAreLive(n, i);
    assert PieceOk(n.pieces[i], n.nblocks[i], n.have[i], false);
  }

  /** A piece is wanted exactly while it has a missing block that nobody has been asked for. */
  lemma WantedMeansUnrequested(n: Net, i: nat)
    requires SteadyNormal(n)
    ensures i in WantSet(n) <==> exists b: nat :: Missing(n, i, b) && !Outstanding(n, i, b)
  {
    if i in WantSet(n) {
      assert Wanted(n, i);
      if i in n.pieces {
        assert PieceOk(n.pieces[i], n.nblocks[i], n.have[i], false);
        var b := FreeBlock(n.pieces[i], n.nblocks[i], n.have[i]);
        FreeIsUnrequested(n, i, b);
        assert Missing(n, i, b) && !Outstanding(n, i, b);
      } else {
        var b := LackedBlock(n.have[i], n.nblocks[i]);
        UnstartedIsUnasked(n, i, b);
        assert Missing(n, i, b) && !Outstanding(n, i, b);
      }
    } else {
      forall b: nat | Missing(n, i, b)
        ensures Outstanding(n, i, b)
      {
        assert !Wanted(n, i);
        FullIsRequested(n, i, b);
      }
    }
  }

  lemma LackedBlock(have: set<nat>, nblocks: nat) returns (b: nat)
    requires Bounded(have, nblocks) && |have| < nblocks
    ensures b < nblocks && b !in have
  {
    SubsetCard(have, Range(nblocks));
    assert have != Range(nblocks);
    b :| b in Range(nblocks) && b !in have;
  }

  /** No idle capacity, outside end game: whatever such a peer has, every missing block of it is requested. */
  lemma NoIdleCapacity(n: Net, q: nat)
    requires Inv(n) && !n.endgame && q in n.order && q !in n.chokes
    ensures q in n.peers && q in n.has
    ensures |n.peers[q].reqs| < 10 ==> n.peers[q].nwant == 0
    ensures |n.peers[q].reqs| < 10 ==>
      forall i, b: nat :: i in n.has[q] && Missing(n, i, b) ==> Outstanding(n, i, b)
  {
    SettledPeer(n, q);
    if |n.peers[q].reqs| < 10 {
      assert Cap(n, q);
      assert n.has[q] * WantSet(n) == {};
      forall i, b: nat | i in n.has[q] && Missing(n, i, b)
        ensures Outstanding(n, i, b)
      {
        WantedMeansUnrequested(n, i);
      }
    }
  }

  /** No idle capacity, in end game: such a peer has itself been asked for every missing block it has. */
  lemma NoIdleCapacityEg(n: Net, q: nat)
    requires Inv(n) && n.endgame && q in n.order && q !in n.chokes
    ensures q in n.peers && q in n.has
    ensures |n.peers[q].reqs| < 10 ==>
      forall i, b: nat :: i in n.has[q] && Missing(n, i, b) ==> Asks(n.peers, q, i, b)
  {
    SettledPeer(n, q);
    if |n.peers[q].reqs| < 10 {
      assert Cap(n, q);
      forall i, b: nat | i in n.has[q] && Missing(n, i, b)
        ensures Asks(n.peers, q, i, b)
      {
        assert i in n.got + n.busy;
        assert AllRequestedOf(n.peers, q, i, n.nblocks[i], n.have[i]);
      }
    }
  }

  /** What a peer has that is worth asking for. */
  ghost function Wishes(n: Net, q: nat): set<nat>
    requires q in n.has
  {
    set i | i in n.has[q] && i < |n.nblocks| && i !in n.got &&
            (n.endgame || exists b: nat :: Missing(n, i, b) && !Outstanding(n, i, b))
  }

  /**
   The want level counts the pieces a peer has that still have a block to request; in end game,
   all that are missing.
   */
  lemma ExactWantLevel(n: Net, q: nat)
    requires Inv(n) && q in n.order
    ensures q in n.peers && q in n.has && n.peers[q].nwant == |Wishes(n, q)|
    ensures n.peers[q].nwant <= n.peers[q].npieces
  {
    SettledPeer(n, q);
    SteadyWantOk(n);
    WantBelow(n, q);
    WishesAreWanted(n, q);
  }

  lemma WishesAreWanted(n: Net, q: nat)
    requires Steady(n) && q in n.has
    ensures Wishes(n, q) == n.has[q] * WantSet(n)
  {
    forall i
      ensures i in Wishes(n, q) <==> i in n.has[q] * WantSet(n)
    {
      assert i in WantSet(n) <==> Wanted(n, i);
      if !n.endgame {
        WantedMeansUnrequested(n, i);
      }
    }
  }

  /**
   While end game is off and content is missing, some missing block has not been asked for; once
   it is on, every missing piece is listed. The first is one-way: in end game the peer that alone
   was asked for a block may choke us.
   */
  lemma EndgameOnTime(n: Net)
    requires Inv(n)
    ensures !n.endgame && n.got != Range(|n.nblocks|) ==>
      exists i: nat, b: nat :: Missing(n, i, b) && !Outstanding(n, i, b)
    ensures n.endgame ==> forall i: nat :: i < |n.nblocks| && i !in n.got ==> i in n.getlst
  {
    if !n.endgame && n.got != Range(|n.nblocks|) {
      var i :| i in WantSet(n);
      WantedMeansUnrequested(n, i);
    }
    if n.endgame {
      forall i: nat | i < |n.nblocks| && i !in n.got
        ensures i in n.getlst
      {
        assert i in n.got + n.busy;
        assert i in Elems(n.getlst);
      }
    }
  }

  /** Outside end game nothing is wanted exactly when every missing block has been asked for. */
  lemma NothingWantedMeansAllRequested(n: Net)
    requires Normal(n)
    ensures WantSet(n) == {} <==> forall i: nat, b: nat :: Missing(n, i, b) ==> Outstanding(n, i, b)
  {
    if WantSet(n) == {} {
      forall i: nat, b: nat | Missing(n, i, b)
        ensures Outstanding(n, i, b)
      {
        assert i !in WantSet(n) && !Wanted(n, i);
        FullIsRequested(n, i, b);
      }
    } else {
      assert SteadyNormal(n);
      var i :| i in WantSet(n);
      WantedMeansUnrequested(n, i);
    }
  }

  /** The request ledger: counters are sizes, both lists agree, and nothing stored is outstanding. */
  lemma RequestLedger(n: Net, i: nat)
    requires Inv(n) && i in n.pieces
    ensures i < |n.have| && i !in n.got
    ensures var pc := n.pieces[i];
      && pc.ngot == |n.have[i]| && pc.nbusy == |pc.down| && pc.nreqs == |pc.reqs|
      && pc.down !! n.have[i] && |n.have[i]| < n.nblocks[i]
      && NoDup(pc.reqs)
      && (forall q, b :: Req(q, b) in pc.reqs <==> Asks(n.peers, q, i, b))
    ensures !n.endgame ==> forall b :: b in n.pieces[i].down <==> Outstanding(n, i, b)
    ensures !n.endgame ==> forall p, q, b :: Asks(n.peers, p, i, b) && Asks(n.peers, q, i, b) ==> p == q
  {
    var pc := n.pieces[i];
    assert i in n.busy;
    assert PieceOk(pc, n.nblocks[i], n.have[i], n.endgame);
    LiveLedger(n, i);
    if !n.endgame {
      forall b
        ensures b in pc.down <==> Outstanding(n, i, b)
      {
        if b in pc.down {
          TakenIsAsked(n, i, b);
        } else {
          FreeIsUnrequested(n, i, b);
        }
      }
      forall p, q, b | Asks(n.peers, p, i, b) && Asks(n.peers, q, i, b)
        ensures p == q
      {
        assert Req(p, b) in pc.reqs && Req(q, b) in pc.reqs;
        assert Req(p, b) == Req(q, b);
      }
    }
  }

  lemma AllAreLive(reqs: seq<Req>, have: set<nat>)
    requires NoDup(reqs) && LiveOnly(reqs, have)
    ensures |Live(reqs, have)| == |reqs|
  {
    assert Live(reqs, have) == Elems(reqs);
    NoDupCard(reqs);
  }

  lemma LiveLedger(n: Net, i: nat)
    requires Inv(n) && i in n.pieces
    ensures i < |n.have|
    ensures n.pieces[i].nreqs == |n.pieces[i].reqs|
    ensures forall q, b :: Req(q, b) in n.pieces[i].reqs <==> Asks(n.peers, q, i, b)
  {
    if !n.endgame {
      DownIsLive(n);
    }
    var pc := n.pieces[i];
    assert PieceOk(pc, n.nblocks[i], n.have[i], n.endgame);
    AllAreLive(pc.reqs, n.have[i]);
    forall q, b
      ensures Req(q, b) in pc.reqs <==> Asks(n.peers, q, i, b)
    {
      assert Asks(n.peers, q, i, b) <==> Listed(n.pieces, n.have, q, i, b);
    }
  }

  /** A peer's list: at most ten requests, none twice, none of a peer that chokes us, none for a stored block. */
  lemma PeerLedger(n: Net, q: nat)
    requires Inv(n) && q in n.order
    ensures q in n.peers && q in n.has
    ensures n.peers[q].nreqsOut == |n.peers[q].reqs| <= 10 && NoDup(n.peers[q].reqs)
    ensures q in n.chokes ==> n.peers[q].reqs == []
    ensures forall x :: x in n.peers[q].reqs ==> x.piece in n.getlst && Missing(n, x.piece, x.block)
  {
    SettledPeer(n, q);
    forall x | x in n.peers[q].reqs
      ensures x.piece in n.getlst && Missing(n, x.piece, x.block)
    {
      FindListed(n, q, x);
      assert x.piece in n.busy;
      assert x.piece in Elems(n.getlst);
    }
  }

  /** Both pieces lack blocks, and i has no more requests per missing block than j. */
  ghost predicate NoMoreLoaded(n: Net, i: nat, j: nat) {
    && i in n.pieces && j in n.pieces && i < |n.nblocks| && j < |n.nblocks|
    && n.pieces[i].ngot < n.nblocks[i] && n.pieces[j].ngot < n.nblocks[j]
    && n.pieces[i].nreqs / (n.nblocks[i] - n.pieces[i].ngot) <= n.pieces[j].nreqs / (n.nblocks[j] - n.pieces[j].ngot)
  }

  /** getlst in end game: exactly the missing pieces, the least loaded first. */
  lemma EndgameOrder(n: Net)
    requires Inv(n) && n.endgame
    ensures NoDup(n.getlst) && n.nbusy == |n.getlst|
    ensures forall i: nat :: i in n.getlst <==> i < |n.nblocks| && i !in n.got
    ensures forall a, b :: 0 <= a < b < |n.getlst| ==> NoMoreLoaded(n, n.getlst[a], n.getlst[b])
  {
    NoDupCard(n.getlst);
    EndgameMembers(n);
    forall a, b | 0 <= a < b < |n.getlst|
      ensures NoMoreLoaded(n, n.getlst[a], n.getlst[b])
    {
      EndgamePair(n, a, b);
    }
  }

  lemma EndgameMembers(n: Net)
    requires Linked(n.getlst, n.busy) && n.got + n.busy == Range(|n.nblocks|) && n.got !! n.busy
    ensures forall i: nat :: i in n.getlst <==> i < |n.nblocks| && i !in n.got
  {
    forall i: nat
      ensures i in n.getlst <==> i < |n.nblocks| && i !in n.got
    {
      assert i in n.getlst <==> i in Elems(n.getlst);
      assert i in n.got + n.busy <==> i in Range(|n.nblocks|);
    }
  }

  lemma EndgamePair(n: Net, a: nat, b: nat)
    requires Core(n) && Linked(n.getlst, n.busy) && Unfinished(n.nblocks, n.got, n.have) && Sorted(n)
    requires a < b < |n.getlst|
    ensures NoMoreLoaded(n, n.getlst[a], n.getlst[b])
  {
    ListedIncomplete(n, a);
    ListedIncomplete(n, b);
    InOrder(n, a, b);
    RankRatio(n.pieces[n.getlst[a]], n.nblocks[n.getlst[a]], n.pieces[n.getlst[b]], n.nblocks[n.getlst[b]]);
  }

  lemma RankRatio(p: Piece, np: nat, q: Piece, nq: nat)
    requires p.ngot < np && q.ngot < nq && RankLe(RankOf(p, np), RankOf(q, nq))
    ensures p.nreqs / (np - p.ngot) <= q.nreqs / (nq - q.ngot)
  {
  }

  lemma InOrder(n: Net, a: nat, b: nat)
    requires Sorted(n) && a < b < |n.getlst|
    requires n.getlst[a] in n.pieces && n.getlst[a] < |n.nblocks| && n.getlst[b] in n.pieces &&
      n.getlst[b] < |n.nblocks|
    ensures RankLe(RankOf(n.pieces[n.getlst[a]], n.nblocks[n.getlst[a]]),
                   RankOf(n.pieces[n.getlst[b]], n.nblocks[n.getlst[b]]))
  {
    var ranks := Ranks(n.pieces, n.nblocks);
    assert RankLe(ranks[n.getlst[a]], ranks[n.getlst[b]]);
  }

  lemma ListedIncomplete(n: Net, a: nat)
    requires Core(n) && Linked(n.getlst, n.busy) && Unfinished(n.nblocks, n.got, n.have) && a < |n.getlst|
    ensures n.getlst[a] in n.pieces && n.getlst[a] < |n.nblocks|
    ensures n.pieces[n.getlst[a]].ngot < n.nblocks[n.getlst[a]]
  {
    var i := n.getlst[a];
    assert i in Elems(n.getlst);
    assert i in n.busy && i !in n.got;
    assert PieceOk(n.pieces[i], n.nblocks[i], n.have[i], n.endgame);
  }

  /** The interest protocol, over all messages written or queued for a peer. */
  lemma InterestProtocol(n: Net, q: nat)
    requires Inv(n) && q in n.order
    ensures q in n.peers
    ensures var p := n.peers[q]; var s := Interests(p.sent + p.outq);
      && (forall k :: 0 <= k < |s| ==> (s[k] <==> k % 2 == 0))
      && (s != [] && s[|s| - 1] <==> p.nwant > 0 || p.reqs != [])
      && (p.wanted <==> p.nwant > 0)
      && (p.doUnwant <==> p.nwant == 0 && p.nreqsOut > 0)
  {
    SettledPeer(n, q);
    SettledInterest(n.peers[q]);
  }

  /**
   Requests over the wire: one that is open has been put into the stream for its peer and no
   cancel follows it, and every other request in the stream is cancelled, answered, or void since
   the peer choked us; swept are those that were taken from the queue after a choke.
   */
  lemma RequestProtocol(n: Net, q: nat, x: Block)
    requires Inv(n) && q in n.order
    ensures q in n.peers
    ensures var p := n.peers[q]; var s := p.sent + p.outq;
      && (x in p.reqs ==>
           exists k :: 0 <= k < |s| && s[k] == Request(x) && forall j :: k < j < |s| ==> s[j] != Cancel(x))
      && multiset(s)[Request(x)] + p.past.swept[x]
           == (if x in p.reqs then 1 else 0) + multiset(s)[Cancel(x)] + p.past.answered[x] + p.past.lapsed[x]
  {
    SettledPeer(n, q);
    var p := n.peers[q];
    assert Squares(p.sent + p.outq, p.reqs, p.past, x);
    if x in p.reqs {
      assert Stands(p.sent + p.outq, x);
    }
  }

  /** The record of have messages is that of the stream. */
  lemma HavesAreRecorded(n: Net, q: nat, i: nat)
    requires Inv(n) && q in n.order
    ensures q in n.peers && multiset(n.peers[q].sent + n.peers[q].outq)[Have(i)] == n.peers[q].past.haves[i]
  {
    SettledPeer(n, q);
    assert Counted(n.peers[q].sent + n.peers[q].outq, n.peers[q].past, Have(i));
  }

  ghost function HolderSet(order: seq<nat>, has: map<nat, set<nat>>, i: nat): set<nat> {
    set q | q in order && q in has && i in has[q]
  }

  /** piece_count is the number of attached peers that have the piece. */
  lemma PieceCounts(n: Net, i: nat)
    requires Inv(n) && i < |n.nblocks|
    ensures i < |n.count| && n.count[i] == |HolderSet(n.order, n.has, i)|
  {
    HoldersCount(n.order, n.has, i);
  }

  lemma {:induction false} HoldersCount(order: seq<nat>, has: map<nat, set<nat>>, i: nat)
    requires NoDup(order)
    ensures Holders(order, has, i) == |HolderSet(order, has, i)|
  {
    if order == [] {
      assert HolderSet(order, has, i) == {};
    } else {
      var rest := order[1..];
      HoldersCount(rest, has, i);
      HolderSetStep(order, has, i);
    }
  }

  lemma HolderSetStep(order: seq<nat>, has: map<nat, set<nat>>, i: nat)
    requires NoDup(order) && order != []
    ensures |HolderSet(order, has, i)| ==
      |HolderSet(order[1..], has, i)| + (if order[0] in has && i in has[order[0]] then 1 else 0)
  {
    var t := HolderSet(order[1..], has, i);
    assert order == [order[0]] + order[1..];
    assert order[0] !in order[1..];
    if order[0] in has && i in has[order[0]] {
      assert HolderSet(order, has, i) == t + {order[0]};
    } else {
      assert HolderSet(order, has, i) == t;
    }
  }
}
