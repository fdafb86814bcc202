/** The piece and block scheduler (btpd/download_subr.c and btpd/download.c). */
module Scheduler {
  import opened Lists
  import opened Peers
  import opened NetState
  import opened Requests
  import opened Withdrawals
  import opened Invariant
  import opened Blocks
  import opened Orders

  class Downloader {
    var net: Net

    /** A torrent with what earlier runs have left on disk, and no peers yet. */
    constructor (nblocks: seq<nat>, got: set<nat>, have: seq<set<nat>>)
      requires TorrentOk(nblocks, got, |got|, have) && Unfinished(nblocks, got, have)
      ensures Inv(net) && net.order == [] && net.got == got && net.have == have && net.nblocks == nblocks
    {
      net := FreshNet(nblocks, got, have);
      FreshInv(nblocks, got, have);
    }

    /** dl_new_request for the piece's next block. */
    method NewRequest(p: nat, i: nat)
      requires Core(net) && AllSettled(net.peers) && CanRequest(net, p, i)
      modifies this
      ensures Core(net) && AllSettled(net.peers)
      ensures net == old(Requested(net, p, i))
    {
      RequestKeepsCore(net, p, i);
      var pc := net.pieces[i];
      net := net.(
        pieces := net.pieces[i := PieceAsked(pc, p, net.endgame)],
        peers := net.peers[p := AddRequest(net.peers[p], Block(i, pc.next))]);
    }

    /** The loop of dl_on_piece_unfull that raises the want level of the peers that have the piece. */
    method WantLoop(i: nat, ghost w: set<nat>, ghost n: Net) returns (k: nat)
      requires Attached(n) && Rewanted(n, net, 0, w, w + {i}) && i !in w
      modifies this
      ensures k == |n.order| && Rewanted(n, net, k, w, w + {i})
    {
      var npeers := |net.order|;
      k := 0;
      while k < npeers
        invariant k <= npeers == |n.order|
        invariant Rewanted(n, net, k, w, w + {i})
      {
        WantOne(i, k, w, n);
        k := k + 1;
      }
    }

    method WantOne(i: nat, k: nat, ghost w: set<nat>, ghost n: Net)
      requires Attached(n) && Rewanted(n, net, k, w, w + {i}) && i !in w && k < |n.order|
      modifies this
      ensures Rewanted(n, net, k + 1, w, w + {i})
    {
      var q := net.order[k];
      WantReady(n, net, k, w, i);
      var pr := if i in net.has[q] then Want(net.peers[q]) else net.peers[q];
      RewantStep(n, net, k, w, w + {i}, pr);
      net := net.(peers := net.peers[q := pr]);
    }

    method WantAll(i: nat, ghost w: set<nat>)
      requires Base(net) && WantOk(net.order, net.peers, net.has, w)
      requires i !in w
      modifies this
      ensures Base(net) && net == old(net).(peers := net.peers)
      ensures SameReqs(old(net.peers), net.peers) && AllRecorded(old(net.peers), net.peers)
      ensures DetachedSame(net.order, old(net.peers), net.peers)
      ensures WantOk(net.order, net.peers, net.has, w + {i})
    {
      ghost var n := net;
      RewantStart(n, w, w + {i});
      var k := WantLoop(i, w, n);
      RewantEnd(n, net, k, w, w + {i});
    }

    /** dl_piece_insert_eg */
    method InsertEg(i: nat)
      requires i in net.pieces && i < |net.nblocks|
      requires NoDup(net.getlst) && i !in net.getlst && Sorted(net)
      modifies this
      ensures net == old(net).(getlst := net.getlst)
      ensures NoDup(net.getlst) && Elems(net.getlst) == Elems(old(net.getlst)) + {i}
      ensures Sorted(net) && PutInOrder(old(net.getlst), net.getlst, i, Ranks(net.pieces, net.nblocks))
    {
      ghost var ranks := Ranks(net.pieces, net.nblocks);
      var lst := net.getlst;
      var r := RankOf(net.pieces[i], net.nblocks[i]);
      var k := |lst|;
      if r.Load? {
        k := 0;
        while k < |lst| && RankLe(RankOf(net.pieces[lst[k]], net.nblocks[lst[k]]), r)
          invariant k <= |lst|
          invariant forall a :: 0 <= a < k ==> RankLe(ranks[lst[a]], r)
          invariant forall a :: 0 <= a < |lst| ==> lst[a] in ranks
        {
          k := k + 1;
        }
      }
      InsertedInOrder(lst, k, i, ranks);
      RankedInsert(lst, k, i, ranks);
      InsertMembers(lst, k, i);
      net := net.(getlst := lst[..k] + [i] + lst[k..]);
    }

    /** INCNEXTBLOCK */
    method Advance(i: nat)
      requires Base(net) && i in net.pieces
      modifies this
      ensures Base(net) && net == Advanced(old(net), i)
    {
      var pc := net.pieces[i];
      NextKeepsBase(net, i, Inc(pc.next, net.nblocks[i]));
      net := net.(pieces := net.pieces[i := pc.(next := Inc(pc.next, net.nblocks[i]))]);
    }

    /** The next block is asked for, if it is missing and was not asked for. */
    method AskBlockEg(i: nat, p: nat)
      requires Base(net) && net.endgame
      requires i in net.pieces && p in net.peers && net.peers[p].nwant > 0 && !net.peers[p].Laden()
      modifies this
      ensures Base(net) && AskedMore(old(net), net, i, p)
      ensures net.pieces[i].next == old(net.pieces[i].next)
      ensures net.pieces[i].next !in net.have[i] ==> Asks(net.peers, p, i, net.pieces[i].next)
    {
      var b := net.pieces[i].next;
      if b !in net.have[i] && Block(i, b) !in net.peers[p].reqs {
        RequestedIsMore(net, p, i);
        NewRequest(p, i);
      }
    }

    /** One turn of the loop of dl_piece_assign_requests_eg. */
    method AskNextEg(i: nat, p: nat)
      requires Base(net) && net.endgame
      requires i in net.pieces && p in net.peers && net.peers[p].nwant > 0 && !net.peers[p].Laden()
      modifies this
      ensures Base(net) && AskedMore(old(net), net, i, p)
      ensures net.pieces[i].next == Inc(old(net.pieces[i].next), old(net.nblocks[i]))
      ensures old(net.pieces[i].next) !in net.have[i] ==> Asks(net.peers, p, i, old(net.pieces[i].next))
    {
      ghost var n := net;
      AskBlockEg(i, p);
      AdvancedIsMore(net, i, p);
      AskedMoreTransitive(n, net, Advanced(net, i), i, p);
      Advance(i);
    }

    method AskTurnEg(i: nat, p: nat, first: nat, ghost k: nat, ghost n: Net)
      requires Base(net) && net.endgame && AskedMore(n, net, i, p)
      requires net.peers[p].nwant > 0 && !net.peers[p].Laden() && first < n.nblocks[i] && k < n.nblocks[i]
      requires net.pieces[i].next == Ahead(first, k, n.nblocks[i])
      requires SweptTo(net.peers, p, i, n.have[i], first, k, n.nblocks[i])
      modifies this
      ensures Base(net) && AskedMore(n, net, i, p)
      ensures net.pieces[i].next == Ahead(first, k + 1, n.nblocks[i])
      ensures net.pieces[i].next == first <==> k + 1 == n.nblocks[i]
      ensures SweptTo(net.peers, p, i, n.have[i], first, k + 1, n.nblocks[i])
    {
      ghost var m := net;
      AskNextEg(i, p);
      AskedMoreTransitive(n, m, net, i, p);
      AskedMoreKeeps(m, net, i, p);
      SweepStep(m.peers, net.peers, p, i, n.have[i], first, k, n.nblocks[i]);
      AheadStep(first, k, n.nblocks[i]);
    }

    /** dl_piece_assign_requests_eg */
    method PieceAssignEg(i: nat, p: nat)
      requires Base(net) && net.endgame
      requires i in net.pieces && p in net.peers && net.peers[p].nwant > 0 && !net.peers[p].Laden()
      modifies this
      ensures Base(net) && AskedMore(old(net), net, i, p)
      ensures net.peers[p].Laden() || AllRequestedOf(net.peers, p, i, net.nblocks[i], net.have[i])
    {
      ghost var n := net;
      var first := net.pieces[i].next;
      ghost var nb, k := n.nblocks[i], 0;
      var more := true;
      while more
        invariant k <= nb && (more ==> k < nb)
        invariant Base(net) && AskedMore(n, net, i, p)
        invariant more ==> !net.peers[p].Laden()
        invariant !more ==> net.peers[p].Laden() || k == nb
        invariant net.pieces[i].next == Ahead(first, k, nb)
        invariant SweptTo(net.peers, p, i, n.have[i], first, k, nb)
        decreases nb - k
      {
        AskTurnEg(i, p, first, k, n);
        k := k + 1;
        more := !net.peers[p].Laden() && net.pieces[i].next != first;
      }
      SweepEnd(net.peers, p, i, n.have[i], first, nb);
    }

    /** One turn of the first loop of dl_assign_requests_eg: a piece is asked for and moved, or passed. */
    method TakeNextEg(p: nat, k: nat, tmp: seq<nat>, ghost n: Net, ghost c: nat) returns (k': nat, tmp': seq<nat>)
      requires Taking(n, net, p, k, tmp) && k < |net.getlst| && !net.peers[p].Laden()
      requires TakenInOrder(n, net, p, k, c)
      modifies this
      ensures Taking(n, net, p, k', tmp') && |net.getlst| - k' < |old(net).getlst| - k
      ensures TakenInOrder(n, net, p, k', c + 1)
    {
      var i := net.getlst[k];
      TakingReady(n, net, p, k, tmp);
      if i in net.has[p] && net.nblocks[i] != net.pieces[i].ngot {
        MoveEg(p, i, k, tmp, n, c);
        return k, [i] + tmp;
      } else {
        SkipTaking(n, net, p, k, tmp);
        SkipExhausts(net, p, k);
        TakenSkip(n, net, p, k, c);
        return k + 1, tmp;
      }
    }

    method MoveEg(p: nat, i: nat, k: nat, ghost tmp: seq<nat>, ghost n: Net, ghost c: nat)
      requires Taking(n, net, p, k, tmp) && k < |net.getlst| && !net.peers[p].Laden()
      requires i == net.getlst[k] && i in net.pieces && i < |net.nblocks| && TakenInOrder(n, net, p, k, c)
      modifies this
      ensures Taking(n, net, p, k, [i] + tmp) && |net.getlst| < |old(net).getlst|
      ensures TakenInOrder(n, net, p, k, c + 1)
    {
      ghost var m := net;
      PieceAssignEg(i, p);
      TakingStep(n, m, net, p, k, tmp);
      TakenMove(n, m, net, p, k, c);
      net := net.(getlst := net.getlst[..k] + net.getlst[k + 1..]);
    }

    /**
     The first loop of dl_assign_requests_eg: asks p for the pieces it has, from the head of
     getlst on, and moves those pieces to a list of their own.
     */
    method TakeEg(p: nat) returns (tmp: seq<nat>)
      requires Base(net) && net.endgame && Linked(net.getlst, net.busy) && Sorted(net)
      requires LeechOk(net, p) && p in net.has
      modifies this
      ensures Base(net) && AskedAll(old(net), net, p) && Sorted(net)
      ensures SplitList(net.getlst, tmp, net.busy)
      ensures net.peers[p].Laden() || AllRequested(net, p)
      ensures InListOrderEg(old(net), net, p)
    {
      ghost var n, c: nat := net, 0;
      tmp := [];
      var k: nat := 0;
      TakingStart(net, p);
      TakenStart(net, p);
      while !net.peers[p].Laden() && k < |net.getlst|
        invariant k <= |net.getlst| && Taking(n, net, p, k, tmp) && TakenInOrder(n, net, p, k, c)
        decreases |net.getlst| - k
      {
        k, tmp := TakeNextEg(p, k, tmp, n, c);
        c := c + 1;
      }
      TakingEnd(n, net, p, k, tmp);
      TakenOrdered(n, net, p, k, c);
    }

    /** The loops that put the pieces of a temporary list back into getlst. */
    method ReinsertEg(tmp: seq<nat>)
      requires Base(net) && Sorted(net) && SplitList(net.getlst, tmp, net.busy)
      modifies this
      ensures Base(net) && net == old(net).(getlst := net.getlst)
      ensures Linked(net.getlst, net.busy) && Sorted(net)
    {
      ghost var n := net;
      var k := 0;
      while k < |tmp|
        invariant k <= |tmp| && net == n.(getlst := net.getlst) && Sorted(net)
        invariant SplitList(net.getlst, tmp[k..], net.busy)
      {
        ghost var lst := net.getlst;
        ReinsertFits(lst, tmp[k..], net.busy);
        InsertEg(tmp[k]);
        assert tmp[k..][1..] == tmp[k + 1..];
        ReinsertKeepsSplit(lst, net.getlst, tmp[k..], net.busy);
        k := k + 1;
      }
      RelinkKeepsBase(n, net.getlst);
    }

    /** dl_assign_requests_eg */
    method AssignEg(p: nat)
      requires Base(net) && net.endgame && Linked(net.getlst, net.busy) && Sorted(net)
      requires LeechOk(net, p) && p in net.has
      modifies this
      ensures Base(net) && AskedAll(old(net), net, p)
      ensures Linked(net.getlst, net.busy) && Sorted(net)
      ensures net.peers[p].Laden() || AllRequested(net, p)
      ensures InListOrderEg(old(net), net, p)
    {
      var tmp := TakeEg(p);
      ghost var m := net;
      ReinsertEg(tmp);
      RelinkedAsked(old(net), m, net, p);
      RelinkedInOrder(old(net), m, net, p);
    }

    method ConvertPiece(k: nat, ghost n: Net)
      requires NoDup(n.getlst) && k < |n.getlst| && net == n.(endgame := true, pieces := net.pieces)
      requires Converted(n.getlst, k, n.pieces, net.pieces)
      modifies this
      ensures net == n.(endgame := true, pieces := net.pieces)
      ensures Converted(n.getlst, k + 1, n.pieces, net.pieces)
    {
      var i := net.getlst[k];
      ConvertStep(n.getlst, k, n.pieces, net.pieces);
      net := net.(pieces := net.pieces[i := EgPiece(net.pieces[i])]);
    }

    method ConvertLoop()
      requires NoDup(net.getlst) && Converted(net.getlst, 0, net.pieces, net.pieces)
      modifies this
      ensures net == old(net).(endgame := true, pieces := net.pieces)
      ensures Converted(net.getlst, |net.getlst|, old(net.pieces), net.pieces)
    {
      ghost var n := net;
      net := net.(endgame := true);
      var k := 0;
      while k < |net.getlst|
        invariant k <= |n.getlst| && net == n.(endgame := true, pieces := net.pieces)
        invariant Converted(n.getlst, k, n.pieces, net.pieces)
      {
        ConvertPiece(k, n);
        k := k + 1;
      }
    }

    /** The first part of dl_enter_endgame: every block is free to be asked for again. */
    method ConvertPieces()
      requires Base(net) && !net.endgame && Linked(net.getlst, net.busy)
      modifies this
      ensures Base(net) && net == old(net).(endgame := true, pieces := net.pieces)
      ensures Converted(net.getlst, |net.getlst|, old(net.pieces), net.pieces)
    {
      ghost var n := net;
      ConvertLoop();
      ConvertedBase(n, net);
    }

    /** The second part: getlst is rebuilt in end game order, last piece first. */
    method SortPieces()
      requires Base(net) && net.endgame && Linked(net.getlst, net.busy)
      modifies this
      ensures Base(net) && net == old(net).(getlst := net.getlst)
      ensures Linked(net.getlst, net.busy) && Sorted(net)
    {
      ghost var n := net;
      var pcs := net.getlst;
      net := net.(getlst := []);
      InsertAll(pcs);
      RelinkKeepsBase(n, net.getlst);
    }

    method InsertAll(pcs: seq<nat>)
      requires net.getlst == [] && Linked(pcs, net.busy) && net.busy == net.pieces.Keys &&
        Bounded(net.busy, |net.nblocks|)
      modifies this
      ensures net == old(net).(getlst := net.getlst)
      ensures Linked(net.getlst, net.busy) && Sorted(net)
    {
      ghost var n := net;
      assert pcs[..|pcs|] == pcs;
      var k := |pcs|;
      while k > 0
        invariant 0 <= k <= |pcs| && net == n.(getlst := net.getlst) && Sorted(net)
        invariant SplitList(net.getlst, pcs[..k], net.busy)
      {
        k := k - 1;
        ghost var lst := net.getlst;
        TakeNext(pcs, k);
        TailFits(lst, pcs[..k + 1], net.busy);
        InsertEg(pcs[k]);
        TailKeepsSplit(lst, net.getlst, pcs[..k + 1], net.busy);
      }
    }

    /** Raises the want level of p by the busy pieces it has. */
    method WantBusy(p: nat)
      requires Base(net) && net.endgame && Linked(net.getlst, net.busy)
      requires p in net.order && net.peers[p].nwant == 0
      modifies this
      ensures Base(net) && net == old(net).(peers := net.peers) && OnePeer(old(net), net, p)
      ensures net.peers[p].nwant == |net.has[p] * net.busy|
      ensures net.peers[p].reqs == old(net.peers[p].reqs)
    {
      ghost var n := net;
      WantedFrom(n, p);
      var k, npieces := 0, |net.getlst|;
      while k < npieces
        invariant k <= npieces == |n.getlst|
        invariant WantedTo(n, net, p, k)
      {
        WantBusyOne(p, k, n);
        k := k + 1;
      }
      WantedEnd(n, net, p, k);
    }

    method WantBusyOne(p: nat, k: nat, ghost n: Net)
      requires NoDup(n.getlst) && WantedTo(n, net, p, k) && k < |n.getlst| && p in n.order
      modifies this
      ensures WantedTo(n, net, p, k + 1)
    {
      WantedStep(n, net, p, k);
      if net.getlst[k] in net.has[p] {
        net := net.(peers := net.peers[p := Want(net.peers[p])]);
      }
    }

    /** The third part for one peer: it is wanted for every busy piece it has, and asked at once. */
    method WelcomeEg(p: nat)
      requires Base(net) && net.endgame && Linked(net.getlst, net.busy) && Sorted(net)
      requires p in net.order && net.peers[p].nwant == 0
      modifies this
      ensures Base(net) && OnePeer(old(net), net, p)
      ensures Linked(net.getlst, net.busy) && Sorted(net)
      ensures net.peers[p].nwant == |net.has[p] * net.busy| && BusyEg(net, p)
      ensures p in net.chokes ==> net.peers[p].reqs == old(net.peers[p].reqs)
    {
      ghost var n := net;
      WantBusy(p);
      if LeechOk(net, p) {
        ghost var m := net;
        AssignEg(p);
        OnePeerTransitive(n, m, net, p);
      } else if !net.peers[p].wanted {
        UnwantedIsBusy(net, p);
      }
    }

    /** One turn of the last loop of dl_enter_endgame. */
    method WelcomeOne(k: nat, ghost n: Net)
      requires Welcoming(n, net, k) && k < |n.order|
      modifies this
      ensures Welcoming(n, net, k + 1)
    {
      ghost var m := net;
      WelcomeReady(n, net, k);
      WelcomeEg(net.order[k]);
      WelcomeStep(n, m, net, k);
    }

    /** The last loop of dl_enter_endgame. */
    method WelcomeAll(ghost n: Net)
      requires Welcoming(n, net, 0) && net.order == n.order
      modifies this
      ensures Welcoming(n, net, |n.order|)
    {
      var npeers := |net.order|;
      var k := 0;
      while k < npeers
        invariant k <= npeers == |n.order| && Welcoming(n, net, k)
      {
        WelcomeOne(k, n);
        k := k + 1;
      }
    }

    /** dl_enter_endgame, when every missing piece is busy and full. */
    method EnterEndgame()
      requires Base(net) && !net.endgame && Linked(net.getlst, net.busy)
      requires WantSet(net) == {} && WantOk(net.order, net.peers, net.has, {})
      modifies this
      ensures EgBegun(net) && Grew(old(net), net) && net.busy == old(net.busy)
    {
      ghost var n := net;
      ConvertPieces();
      SortPieces();
      WelcomeStart(n, net);
      WelcomeAll(n);
      WelcomeEnd(n, net);
      NothingWantedAllAsked(n);
      GrewAllAsked(n, net);
    }

    /** The loop of dl_on_piece_full that lowers the want level of the peers that have the piece. */
    method UnwantLoop(i: nat, ghost w: set<nat>, ghost n: Net) returns (k: nat)
      requires Attached(n) && Rewanted(n, net, 0, w + {i}, w) && i !in w
      modifies this
      ensures k == |n.order| && Rewanted(n, net, k, w + {i}, w)
    {
      var npeers := |net.order|;
      k := 0;
      while k < npeers
        invariant k <= npeers == |n.order|
        invariant Rewanted(n, net, k, w + {i}, w)
      {
        UnwantOne(i, k, w, n);
        k := k + 1;
      }
    }

    method UnwantOne(i: nat, k: nat, ghost w: set<nat>, ghost n: Net)
      requires Attached(n) && Rewanted(n, net, k, w + {i}, w) && i !in w && k < |n.order|
      modifies this
      ensures Rewanted(n, net, k + 1, w + {i}, w)
    {
      var q := net.order[k];
      UnwantReady(n, net, k, w, i);
      var pr := if i in net.has[q] then Unwant(net.peers[q]) else net.peers[q];
      RewantStep(n, net, k, w + {i}, w, pr);
      net := net.(peers := net.peers[q := pr]);
    }

    method UnwantAll(i: nat, ghost w: set<nat>)
      requires Base(net) && WantOk(net.order, net.peers, net.has, w + {i})
      requires i !in w
      modifies this
      ensures Base(net) && net == old(net).(peers := net.peers)
      ensures SameReqs(old(net.peers), net.peers) && AllRecorded(old(net.peers), net.peers)
      ensures DetachedSame(net.order, old(net.peers), net.peers)
      ensures WantOk(net.order, net.peers, net.has, w)
    {
      ghost var n := net;
      RewantStart(n, w + {i}, w);
      var k := UnwantLoop(i, w, n);
      RewantEnd(n, net, k, w + {i}, w);
    }

    /** dl_should_enter_endgame */
    method ShouldEnterEndgame() returns (should: bool)
      requires Base(net) && !net.endgame && Linked(net.getlst, net.busy)
      ensures should <==> WantSet(net) == {}
    {
      BusyAndGot(net);
      if net.ngot + net.nbusy != |net.nblocks| {
        return false;
      }
      var k := 0;
      while k < |net.getlst|
        invariant k <= |net.getlst| && FullUpto(net, k)
      {
        UnfullIsWanted(net, k);
        if !Full(net.pieces[net.getlst[k]], net.nblocks[net.getlst[k]]) {
          return false;
        }
        k := k + 1;
      }
      AllFull(net);
      return true;
    }

    /** dl_on_piece_full */
    method PieceFull(i: nat)
      requires Base(net) && !net.endgame && Linked(net.getlst, net.busy)
      requires i !in WantSet(net) && WantOk(net.order, net.peers, net.has, WantSet(net) + {i})
      modifies this
      ensures Grew(old(net), net) && net.busy == old(net.busy)
      ensures WantSet(old(net)) == {} ==> EgBegun(net)
      ensures WantSet(old(net)) != {} ==>
        && Base(net) && net == old(net).(peers := net.peers) && SameReqs(old(net.peers), net.peers)
        && WantOk(net.order, net.peers, net.has, WantSet(net))
    {
      ghost var n := net;
      UnwantAll(i, WantSet(net));
      WantSetStays(n, net);
      SameReqsGrew(n, net);
      var should := ShouldEnterEndgame();
      if should {
        ghost var m := net;
        EnterEndgame();
        GrewTransitive(n, m, net);
      }
    }

    /** Moves next_block to a block that is neither stored nor requested. */
    method FindFree(i: nat, ghost pc0: Piece, ghost k: nat) returns (ghost k': nat)
      requires Base(net) && !net.endgame && i in net.pieces && !Full(net.pieces[i], net.nblocks[i])
      requires TurnOf(pc0, net.pieces[i], net.have[i], net.nblocks[i], k)
      modifies this
      ensures Base(net) && MovedNext(old(net), net, i)
      ensures net.pieces[i].next !in net.have[i] && net.pieces[i].next !in net.pieces[i].down
      ensures TurnOf(pc0, net.pieces[i], net.have[i], net.nblocks[i], k')
    {
      ghost var n := net;
      ghost var b := FreeBlock(net.pieces[i], net.nblocks[i], net.have[i]);
      k' := k;
      MovedNextRefl(net, i);
      while net.pieces[i].next in net.have[i] || net.pieces[i].next in net.pieces[i].down
        invariant Base(net) && MovedNext(n, net, i)
        invariant TurnOf(pc0, net.pieces[i], net.have[i], net.nblocks[i], k')
        decreases Offset(net.pieces[i].next, b, net.nblocks[i])
      {
        MovedNextStep(n, net, i);
        OffsetShrinks(net.pieces[i].next, b, net.nblocks[i]);
        TurnSkip(pc0, net, i, k');
        Advance(i);
        k' := k' + 1;
      }
    }

    /** The loop of dl_piece_assign_requests, run while the piece is not full and the peer not laden. */
    method FillPiece(i: nat, p: nat)
      requires Base(net) && !net.endgame
      requires i in net.pieces && p in net.peers && net.peers[p].nwant > 0
      modifies this
      ensures Base(net) && AskedMore(old(net), net, i, p) && InTurn(old(net), net, i)
      ensures Full(net.pieces[i], net.nblocks[i]) || net.peers[p].Laden()
    {
      ghost var n, k: nat := net, 0;
      AskedMoreRefl(net, i, p);
      TurnStart(net.pieces[i], net.have[i], net.nblocks[i]);
      while !Full(net.pieces[i], net.nblocks[i]) && !net.peers[p].Laden()
        invariant Base(net) && AskedMore(n, net, i, p)
        invariant TurnOf(n.pieces[i], net.pieces[i], n.have[i], n.nblocks[i], k)
        decreases MAX_PIPED_REQUESTS - net.peers[p].nreqsOut
      {
        k := AskNext(n, i, p, k);
      }
      TurnEnds(n, net, i, k);
    }

    /** One turn of that loop. */
    method AskNext(ghost n: Net, i: nat, p: nat, ghost k: nat) returns (ghost k': nat)
      requires Base(net) && AskedMore(n, net, i, p) && !net.endgame && net.peers[p].nwant > 0
      requires !Full(net.pieces[i], net.nblocks[i]) && !net.peers[p].Laden()
      requires TurnOf(n.pieces[i], net.pieces[i], n.have[i], n.nblocks[i], k)
      modifies this
      ensures Base(net) && AskedMore(n, net, i, p) && net.peers[p].nreqsOut == old(net.peers[p].nreqsOut) + 1
      ensures TurnOf(n.pieces[i], net.pieces[i], n.have[i], n.nblocks[i], k')
    {
      ghost var m := net;
      k' := FindFree(i, n.pieces[i], k);
      MovedNextIsMore(m, net, i, p);
      AskedMoreTransitive(n, m, net, i, p);
      FreeIsUnasked(net, i, p);
      TurnAsk(n.pieces[i], net, i, p, k');
      AskAndAdvance(n, i, p);
      k' := k' + 1;
    }

    /** dl_new_request for the next block, and the step past it. */
    method AskAndAdvance(ghost n: Net, i: nat, p: nat)
      requires Base(net) && CanRequest(net, p, i) && AskedMore(n, net, i, p)
      modifies this
      ensures Base(net) && AskedMore(n, net, i, p)
      ensures net.peers[p].nreqsOut == old(net.peers[p].nreqsOut) + 1
      ensures var pc := PieceAsked(old(net.pieces[i]), p, old(net.endgame));
        net.pieces[i] == pc.(next := Inc(pc.next, n.nblocks[i]))
    {
      RequestedIsMore(net, p, i);
      AskedMoreTransitive(n, net, Requested(net, p, i), i, p);
      NewRequest(p, i);
      AdvancedIsMore(net, i, p);
      AskedMoreTransitive(n, net, Advanced(net, i), i, p);
      Advance(i);
    }

    /** dl_piece_assign_requests */
    method PieceAssign(i: nat, p: nat)
      requires Base(net) && !net.endgame && Linked(net.getlst, net.busy)
      requires WantOk(net.order, net.peers, net.has, WantSet(net))
      requires i in net.pieces && i in WantSet(net) && p in net.order && i in net.has[p]
      requires p !in net.chokes && !net.peers[p].Laden()
      modifies this
      ensures Assigned(old(net), net, i, p) && (!net.endgame ==> InTurn(old(net), net, i))
    {
      ghost var n := net;
      HolderIsWanted(net, i, p);
      FillPiece(i, p);
      FilledPiece(n, net, i, p);
      if Full(net.pieces[i], net.nblocks[i]) {
        ghost var m := net;
        PieceFull(i);
        PieceFullAssigned(n, m, net, i, p);
      } else {
        LadenAssigned(n, net, i, p);
      }
    }

    /**
     dl_on_piece_unfull. Some other piece still has a block to request, so end game cannot
     begin here.
     */
    method PieceUnfull(i: nat, ghost w: set<nat>)
      requires Base(net) && !net.endgame && Linked(net.getlst, net.busy)
      requires i in net.pieces && !Full(net.pieces[i], net.nblocks[i])
      requires i !in w && WantSet(net) == w + {i} && w != {}
      requires WantOk(net.order, net.peers, net.has, w) && AllBusy(net, w)
      modifies this
      ensures Refilled(old(net), net, i, w)
    {
      ghost var n := net;
      WantAll(i, w);
      RefillStart(n, net, i, w);
      var k := 0;
      while k < |net.order| && !Full(net.pieces[i], net.nblocks[i])
        invariant k <= |net.order| && Refilling(n, net, i, w)
        invariant !Full(net.pieces[i], net.nblocks[i]) ==> BusyUpto(net, k, w + {i})
      {
        var p := net.order[k];
        if LeechOk(net, p) && i in net.has[p] {
          ghost var m := net;
          RefillReady(n, net, i, w, k);
          PieceAssign(i, p);
          RefillStep(n, m, net, i, w, k);
        } else {
          RefillSkip(n, net, i, w, k);
        }
        k := k + 1;
      }
      RefillEnd(n, net, i, w, k);
    }

    /** rand_between: any number in the range. */
    method RandBetween(lo: nat, hi: nat) returns (r: nat)
      requires lo <= hi
      ensures lo <= r <= hi
    {
      r :| lo <= r <= hi;
    }

    method FirstStartable(p: nat) returns (i: nat)
      ensures i <= |net.count| && (i < |net.count| ==> Startable(net, p, i))
      ensures forall j :: 0 <= j < i ==> !Startable(net, p, j)
    {
      i := 0;
      while i < |net.count| && !Startable(net, p, i)
        invariant i <= |net.count|
        invariant forall j :: 0 <= j < i ==> !Startable(net, p, j)
      {
        i := i + 1;
      }
    }

    /** The scan of dl_choose_rarest: the first of the rarest pieces, and how many there are. */
    method ScanRarest(p: nat) returns (found: bool, minI: nat, minC: nat)
      ensures found <==> exists i :: 0 <= i < |net.count| && Startable(net, p, i)
      ensures found ==> Rarest(net, p, minI, minC)
    {
      minI, minC := 0, 0;
      var i := FirstStartable(p);
      found := i < |net.count|;
      if found {
        minI, minC := i, 1;
        RarestStart(net, p, i);
        i := i + 1;
        while i < |net.count|
          invariant i <= |net.count| && RarestSoFar(net, p, minI, minC, i)
        {
          minI, minC := Compare(p, minI, minC, i);
          i := i + 1;
        }
        RarestEnd(net, p, minI, minC);
      }
    }

    method Compare(p: nat, min: nat, c: nat, i: nat) returns (minI: nat, minC: nat)
      requires RarestSoFar(net, p, min, c, i) && i < |net.count|
      ensures RarestSoFar(net, p, minI, minC, i + 1)
    {
      RarestStep(net, p, min, c, i);
      minI, minC := min, c;
      if Startable(net, p, i) {
        if net.count[i] == net.count[min] {
          minC := c + 1;
        } else if net.count[i] < net.count[min] {
          minI, minC := i, 1;
        }
      }
    }

    /**
     dl_choose_rarest: not found exactly when p has no piece to start on; otherwise a rarest
     such piece, the draw-th of them in index order.
     */
    method ChooseRarest(p: nat) returns (found: bool, res: nat, draw: nat)
      requires Base(net) && p in net.has
      ensures found <==> exists i :: 0 <= i < |net.count| && Startable(net, p, i)
      ensures found ==> res < |net.count| && Startable(net, p, res) && RarestUpto(net, p, net.count[res], |net.count|)
      ensures found ==> Ties(net, p, net.count[res], 0, res) + 1 == draw
    {
      var minI, minC;
      draw := 1;
      found, minI, minC := ScanRarest(p);
      if found && minC > 1 {
        draw := RandBetween(1, minC);
        minI := DrawnRarest(p, minI, minC, draw);
      }
      res := minI;
    }

    /** The draw-th of the rarest pieces, counted from the first. */
    method DrawnRarest(p: nat, first: nat, minC: nat, draw: nat) returns (minI: nat)
      requires Rarest(net, p, first, minC) && 1 <= draw <= minC
      ensures minI < |net.count| && Startable(net, p, minI) && net.count[minI] == net.count[first]
      ensures Ties(net, p, net.count[first], 0, minI) + 1 == draw
    {
      ghost var c := net.count[first];
      minI := first;
      var left, i := draw, first;
      while left > 0
        invariant first <= i <= |net.count| && minI < |net.count| && Startable(net, p, minI) && net.count[minI] == c
        invariant left <= Ties(net, p, c, i, |net.count|)
        invariant Ties(net, p, c, 0, i) == draw - left
        invariant left < draw ==> Ties(net, p, c, 0, minI) + 1 == draw - left
        decreases |net.count| - i
      {
        TiesSplit(net, p, c, i, i + 1, |net.count|);
        if Startable(net, p, i) && net.count[i] == net.count[minI] {
          left := left - 1;
          minI := i;
        }
        i := i + 1;
      }
    }

    /** The loop of piece_alloc that counts the blocks already stored. */
    static method CountStored(have: set<nat>, nblocks: nat) returns (n: nat)
      requires Bounded(have, nblocks)
      ensures n == |have|
    {
      n := 0;
      var b := 0;
      assert have * Range(0) == {};
      while b < nblocks
        invariant b <= nblocks && n == |have * Range(b)|
      {
        assert Range(b + 1) == Range(b) + {b};
        MeetGrow(have, Range(b), b);
        if b in have {
          n := n + 1;
        }
        b := b + 1;
      }
      assert have * Range(nblocks) == have;
    }

    /** dl_new_piece */
    method NewPiece(i: nat)
      requires Base(net) && !net.endgame && Linked(net.getlst, net.busy)
      requires Unfinished(net.nblocks, net.got, net.have)
      requires i < |net.nblocks| && i !in net.got && i !in net.busy
      modifies this
      ensures net == Started(old(net), i)
      ensures Base(net) && Linked(net.getlst, net.busy) && WantSet(net) == WantSet(old(net)) && Grew(old(net), net)
    {
      var stored := CountStored(net.have[i], net.nblocks[i]);
      assert stored < net.nblocks[i];
      StartKeepsBase(net, i);
      net := net.(
        busy := net.busy + {i},
        nbusy := net.nbusy + 1,
        getlst := net.getlst + [i],
        pieces := net.pieces[i := Piece(0, stored, 0, 0, [], {})]);
    }

    /** The first loop of dl_assign_requests: pieces that are already being downloaded. */
    method AssignBusy(p: nat)
      requires AssignReady(net, p)
      modifies this
      ensures Assigning(old(net), net, p) && RarestNew(old(net), net, p) && net.busy == old(net.busy)
      ensures !net.endgame ==> InListOrder(old(net), net, p)
      ensures !net.endgame ==> net.peers[p].Laden() || NoneOf(net, p, net.getlst)
    {
      ghost var n := net;
      AssigningStart(net, p);
      AttachedPeer(n, net, p);
      var k := AssignLoop(p, n);
      AssignedEnd(n, net, p, k);
      if !net.endgame {
        BusyOrdered(n, net, p, k);
      }
    }

    method AssignLoop(p: nat, ghost n: Net) returns (k: nat)
      requires AssignedUpto(n, net, p, 0) && BusyInOrder(n, net, p, 0)
      modifies this
      ensures AssignedUpto(n, net, p, k) && (!net.endgame ==> BusyInOrder(n, net, p, k))
      ensures k < |net.getlst| ==> net.endgame || net.peers[p].Laden()
    {
      k := 0;
      while k < |net.getlst| && !net.endgame && !net.peers[p].Laden()
        invariant AssignedUpto(n, net, p, k) && (!net.endgame ==> BusyInOrder(n, net, p, k))
        decreases !net.endgame, |n.getlst| - k
      {
        AssignTurn(p, k, n);
        k := k + 1;
      }
    }

    method AssignTurn(p: nat, k: nat, ghost n: Net)
      requires AssignedUpto(n, net, p, k) && k < |net.getlst| && !net.endgame && !net.peers[p].Laden()
      requires BusyInOrder(n, net, p, k)
      modifies this
      ensures AssignedUpto(n, net, p, k + 1) && (!net.endgame ==> BusyInOrder(n, net, p, k + 1))
    {
      var i := net.getlst[k];
      TurnReady(n, net, p, k);
      if !Full(net.pieces[i], net.nblocks[i]) && i in net.has[p] {
        ghost var m := net;
        PieceAssign(i, p);
        TurnStep(n, m, net, p, k);
        if !net.endgame {
          BusyAsk(n, m, net, p, k);
        }
      } else {
        BusySkip(n, net, p, k);
        SkipNone(net, p, k);
      }
    }

    /** One turn of the second loop of dl_assign_requests: a new piece, the rarest there is. */
    method AssignNew(p: nat, ghost n: Net) returns (more: bool)
      requires Assigning(n, net, p) && !net.endgame && !net.peers[p].Laden() && NoneOf(net, p, net.getlst)
      requires RarestNew(n, net, p) && InListOrder(n, net, p)
      modifies this
      ensures Assigning(n, net, p) && RarestNew(n, net, p) && (!net.endgame ==> InListOrder(n, net, p))
      ensures !net.endgame && more ==> net.peers[p].Laden() || NoneOf(net, p, net.getlst)
      ensures !net.endgame && more ==> old(net.nbusy) < net.nbusy
      ensures old(net.nbusy) <= |old(net.nblocks)|
      ensures !more ==> !net.endgame && Busy(net, p, WantSet(net))
    {
      AttachedPeer(n, net, p);
      BusyBound(net);
      var found, i, draw := ChooseRarest(p);
      if found {
        StartNew(p, i, n);
      } else {
        NoneStartable(net, p);
      }
      more := found;
    }

    method StartNew(p: nat, i: nat, ghost n: Net)
      requires Assigning(n, net, p) && !net.endgame && !net.peers[p].Laden() && NoneOf(net, p, net.getlst)
      requires RarestNew(n, net, p) && i < |net.count| && Startable(net, p, i)
      requires RarestUpto(net, p, net.count[i], |net.count|)
      modifies this
      ensures Assigning(n, net, p) && RarestNew(n, net, p) && (!net.endgame ==> InListOrder(n, net, p))
      ensures !net.endgame ==> net.peers[p].Laden() || NoneOf(net, p, net.getlst)
      ensures !net.endgame ==> old(net.nbusy) < net.nbusy
    {
      AttachedPeer(n, net, p);
      StartReady(net, p, i);
      ghost var m := net;
      NewPiece(i);
      RarestStarted(n, m, p, i);
      AssigningNew(n, m, net, p, i);
      ghost var l := net;
      PieceAssign(i, p);
      AssigningStep(n, l, net, i, p);
      RarestKept(n, l, net, i, p);
      if !net.endgame {
        OrderStays(n, net, p);
      }
      AssignedNone(l, net, i, p, m.getlst);
    }

    /** dl_assign_requests: requests on busy pieces first, and then on new ones, the rarest first. */
    method AssignRequests(p: nat)
      requires AssignReady(net, p)
      modifies this
      ensures Assigning(old(net), net, p) && RarestNew(old(net), net, p)
      ensures !net.endgame ==> InListOrder(old(net), net, p)
      ensures !net.endgame ==> Busy(net, p, WantSet(net))
    {
      ghost var n := net;
      AssignBusy(p);
      AttachedPeer(n, net, p);
      var more := true;
      while more && !net.endgame && !net.peers[p].Laden()
        invariant Assigning(n, net, p) && p in net.peers && RarestNew(n, net, p)
        invariant !net.endgame ==> InListOrder(n, net, p)
        invariant !net.endgame && more ==> net.peers[p].Laden() || NoneOf(net, p, net.getlst)
        invariant !more ==> !net.endgame && Busy(net, p, WantSet(net))
        decreases more, !net.endgame, |n.nblocks| - net.nbusy
      {
        more := AssignNew(p, n);
        AttachedPeer(n, net, p);
      }
    }

    /** The inner loop of dl_unassign_requests: every request p has for piece i is withdrawn. */
    method DropPiece(p: nat, i: nat)
      requires Core(net) && p in net.peers && i in net.pieces
      modifies this
      ensures Core(net) && Fewer(old(net), net, p, i)
      ensures NoneFor(net.peers[p].reqs, |net.peers[p].reqs|, i)
    {
      ghost var n := net;
      FewerRefl(net, p, i);
      var k := 0;
      while k < |net.peers[p].reqs|
        invariant Core(net) && Fewer(n, net, p, i)
        invariant k <= |net.peers[p].reqs| && NoneFor(net.peers[p].reqs, k, i)
        decreases |net.peers[p].reqs| - k
      {
        var x := net.peers[p].reqs[k];
        NoneForStep(net.peers[p].reqs, k, i);
        if x.piece == i {
          FewerStep(n, net, p, k, i);
          net := net.(
            pieces := net.pieces[i := PieceDropped(net.pieces[i], p, x.block, net.endgame)],
            peers := net.peers[p := DropRequest(net.peers[p], x)]);
        } else {
          k := k + 1;
        }
      }
    }

    /** One turn of dl_unassign_requests: the piece of p's first request. */
    method UnassignTurn(p: nat, ghost n: Net)
      requires Unassigning(n, net, p) && net.peers[p].nreqsOut > 0
      modifies this
      ensures Unassigning(n, net, p) && |net.peers[p].reqs| < |old(net.peers[p].reqs)|
    {
      ghost var m := net;
      assert net.peers[p].Settled();
      var x := net.peers[p].reqs[0];
      FindListed(net, p, x);
      var i := x.piece;
      var wasFull := Full(net.pieces[i], net.nblocks[i]);
      FullIsUnwanted(net, i);
      DropPiece(p, i);
      DropUnfills(m, net, p, i, x);
      assert net.peers[p].Loose();
      SettleAfterDrop(m, net, p, i);
      net := net.(peers := net.peers[p := Settle(net.peers[p])]);
      ghost var l := net;
      WithdrawnReady(n, m, l, p, i);
      if wasFull && !Full(net.pieces[i], net.nblocks[i]) {
        PieceUnfull(i, WantSet(m));
        UnassignRefilled(n, m, l, net, p, i);
      } else {
        UnassignKeeps(n, m, l, p, i);
      }
    }

    /** dl_unassign_requests, for a peer that chokes us or has been detached. */
    method UnassignRequests(p: nat)
      requires Normal(net) && p in net.peers && (p in net.chokes || p !in net.order)
      requires AllBusy(net, WantSet(net)) && WantSet(net) != {}
      modifies this
      ensures Unassigning(old(net), net, p) && net.peers[p].reqs == []
    {
      ghost var n := net;
      UnassignStart(net, p);
      while net.peers[p].nreqsOut > 0
        invariant Unassigning(n, net, p)
        decreases |net.peers[p].reqs|
      {
        UnassignTurn(p, n);
      }
      assert net.peers[p].Settled();
    }

    /** One turn of dl_unassign_requests_eg: the piece moves to the temporary list. */
    method UnassignTurnEg(p: nat, tmp: seq<nat>, ghost n: Net) returns (tmp': seq<nat>)
      requires UnassigningEg(n, net, p, tmp) && net.peers[p].nreqsOut > 0 && |net.peers[p].reqs| > 0
      modifies this
      ensures UnassigningEg(n, net, p, tmp') && |net.peers[p].reqs| < |old(net.peers[p].reqs)|
    {
      ghost var m := net;
      var x := net.peers[p].reqs[0];
      FindListed(net, p, x);
      net := net.(getlst := Remove(net.getlst, x.piece));
      tmp' := [x.piece] + tmp;
      DropPiece(p, x.piece);
      UnassignEgStep(n, m, net, p, x.piece, tmp, x);
    }

    /** dl_unassign_requests_eg */
    method UnassignEg(p: nat)
      requires Base(net) && net.endgame && Linked(net.getlst, net.busy) && Sorted(net) && p in net.peers
      modifies this
      ensures Base(net) && Linked(net.getlst, net.busy) && Sorted(net)
      ensures FewerAll(old(net), net, p) && net.peers[p].reqs == []
    {
      ghost var n := net;
      var tmp := [];
      UnassignEgStart(net, p);
      assert net.peers[p].Loose();
      while net.peers[p].nreqsOut > 0
        invariant UnassigningEg(n, net, p, tmp) && net.peers[p].Loose()
        decreases |net.peers[p].reqs|
      {
        tmp := UnassignTurnEg(p, tmp, n);
        assert net.peers[p].Loose();
      }
      UnassignEgEnd(n, net, p, tmp);
      net := net.(peers := net.peers[p := OnNoReqs(net.peers[p])]);
      ReinsertEg(tmp);
    }

    /** dl_on_download */
    method OnDownload(p: nat)
      requires InvBut(net, {p}) && p in net.order && LeechOk(net, p)
      modifies this
      ensures Inv(net) && Grew(old(net), net) && BegunOnTime(old(net), net) && RarestNew(old(net), net, p)
    {
      ghost var n := net;
      SettledPeer(net, p);
      if net.endgame {
        AssignEg(p);
        AssignedEgInv(n, net, p, {});
        GrewRefl(n);
        OnePeerGrows(n, n, net, p);
        NoneNew(n, net, p);
      } else {
        AssignRequests(p);
        AssignedInv(n, net, p);
      }
    }

    /** peer_on_unchoke */
    method OnUnchoke(p: nat)
      requires Inv(net) && p in net.order
      modifies this
      ensures Inv(net) && UnchokedBy(old(net), net, p)
    {
      ghost var n, u := net, net;
      if p in net.chokes {
        UnchokedInv(net, p);
        net := net.(chokes := net.chokes - {p});
        u := net;
        if LeechOk(net, p) {
          OnDownload(p);
        }
      } else {
        NotThere(net.chokes, p);
      }
      UnchokedEnds(n, u, net, p);
    }

    /** dl_on_choke, with the flag already set */
    method OnUndownload(p: nat, ghost n: Net)
      requires Inv(n) && p in n.order && net == n.(chokes := n.chokes + {p})
      modifies this
      ensures Inv(net) && Lost(n.(chokes := n.chokes + {p}), net, p) && net.peers[p].reqs == []
      ensures net.endgame == n.endgame
    {
      ghost var c := net;
      ChokedReady(n, p);
      if net.peers[p].nreqsOut > 0 {
        if net.endgame {
          UnassignEg(p);
          ChokedEgInv(n, c, net, p);
          FewerIsLost(c, net, p);
        } else {
          NormalCaps(net);
          UnassignRequests(p);
          ChokedInv(n, net, p);
        }
      } else {
        LostRefl(net, p);
        LostQuiet(n, net, p);
      }
    }

    /** peer_on_choke's loop: requests that are still queued are withdrawn. */
    static method WithdrawQueued(p: Peer) returns (pr: Peer)
      requires p.Settled() && p.reqs == []
      ensures Requeued(p, pr) && OnlyLapsed(p, pr) && pr.past.lapsed == p.past.lapsed && NoneQueued(pr)
    {
      pr := p;
      var k := 0;
      while k < |pr.outq|
        invariant k <= |pr.outq| && Requeued(p, pr) && OnlyLapsed(p, pr) && pr.past.lapsed == p.past.lapsed
        invariant forall a :: 0 <= a < k && pr.outq[a].Request? ==> a == 0 && pr.begun
        decreases |pr.outq| - k
      {
        if pr.outq[k].Request? && Withdrawable(pr, k) {
          SweepRequeues(pr, k);
          pr := Sweep(pr, k);
        } else {
          k := k + 1;
        }
      }
    }

    /** peer_on_choke */
    method OnChoke(p: nat)
      requires Inv(net) && p in net.order
      modifies this
      ensures Inv(net)
      ensures if p in old(net.chokes) then net == old(net) else ChokedBy(old(net), net, p)
      ensures SameStore(old(net), net) && net.endgame == old(net.endgame)
    {
      ghost var n := net;
      SettledPeer(net, p);
      if p !in net.chokes {
        net := net.(chokes := net.chokes + {p});
        OnUndownload(p, n);
        ghost var m := net;
        SettledPeer(net, p);
        var pr := WithdrawQueued(net.peers[p]);
        RequeueKeepsInv(net, p, pr, {});
        net := net.(peers := net.peers[p := pr]);
        RequeueIsLost(m, net, p);
        LostTransitive(n.(chokes := n.chokes + {p}), m, net, p);
      }
    }

    /** net_write for one peer: k messages have left, and perhaps a part of the next. */
    method OnWritten(p: nat, k: nat, part: bool)
      requires Inv(net) && p in net.order && p in net.peers && k <= |net.peers[p].outq|
      modifies this
      ensures Inv(net) && WrittenTo(old(net), net, p, k, part)
    {
      SettledPeer(net, p);
      FlushRequeues(net.peers[p], k, part);
      RequeueKeepsInv(net, p, Flush(net.peers[p], k, part), {});
      net := net.(peers := net.peers[p := Flush(net.peers[p], k, part)]);
    }

    /** peer_send of a message that is not the scheduler's: hand shake, bit field, choke, unchoke, block. */
    method OnOther(p: nat)
      requires Inv(net) && p in net.order && p in net.peers
      modifies this
      ensures Inv(net) && OtherSent(old(net), net, p)
    {
      SettledPeer(net, p);
      SendRequeues(net.peers[p], Other);
      RequeueKeepsInv(net, p, SendNoted(net.peers[p], Other), {});
      net := net.(peers := net.peers[p := SendNoted(net.peers[p], Other)]);
    }

    /** peer_unsend of such a message. */
    method OnOtherWithdrawn(p: nat, k: nat)
      requires Inv(net) && p in net.order && p in net.peers && k < |net.peers[p].outq| && net.peers[p].outq[k].Other?
      modifies this
      ensures Inv(net) && OtherUnsent(old(net), net, p, k)
    {
      SettledPeer(net, p);
      UnsendOtherRequeues(net.peers[p], k);
      RequeueKeepsInv(net, p, UnsendOther(net.peers[p], k), {});
      OtherUnsentHolds(net, p, k);
      net := net.(peers := net.peers[p := UnsendOther(net.peers[p], k)]);
    }

    /** The loop of dl_on_lost_peer that takes p's pieces out of piece_count; p has left n->peers. */
    method CountDown(p: nat)
      requires NoDup(net.order) && p in net.order && p in net.has && CountOk(net.count, net.order, net.has)
      modifies this
      ensures net == Detached(old(net), p, net.count) && |net.count| == |old(net.count)|
      ensures CountOk(net.count, net.order, net.has)
    {
      ghost var n := net;
      net := net.(order := Remove(net.order, p));
      var i := 0;
      while i < |net.count|
        invariant i <= |net.count| == |n.count| && net == Detached(n, p, net.count)
        invariant CountSplit(net.count, i, n.order, Remove(n.order, p), n.has)
      {
        CountDownStep(net.count, i, n.order, n.has, p);
        if i in net.has[p] {
          net := net.(count := net.count[i := net.count[i] - 1]);
        }
        i := i + 1;
      }
    }

    /** peer_kill of an attached peer and dl_on_lost_peer */
    method OnLost(p: nat)
      requires Inv(net) && p in net.order
      modifies this
      ensures Inv(net) && WithoutPeer(old(net), net, p)
      ensures SameStore(old(net), net) && net.endgame == old(net.endgame)
    {
      ghost var n := net;
      SettledPeer(net, p);
      CountDown(p);
      ghost var d := net;
      DetachKeepsSteady(n, p, d.count);
      DetachKeepsCaps(n, p, d.count);
      RemoveMembers(n.order, p);
      LostRefl(net, p);
      if net.peers[p].nreqsOut > 0 {
        Withdraw(p);
      }
      ForgetKeepsOuter(n, net, p);
      ForgottenInv(n, net, p);
      WithoutPeerHolds(n, d, net, p);
      net := net.(peers := net.peers - {p}, has := net.has - {p}, chokes := net.chokes - {p});
    }

    /** dl_on_undownload for a peer that is no longer attached */
    method Withdraw(p: nat)
      requires Steady(net) && Caps(net, {}) && p in net.peers && p !in net.order && net.peers[p].nreqsOut > 0
      modifies this
      ensures Steady(net) && Caps(net, {}) && Lost(old(net), net, p) && net.peers[p].reqs == []
      ensures net.endgame == old(net.endgame)
    {
      ghost var n := net;
      NormalCaps(net);
      if net.endgame {
        UnassignEg(p);
        FewerSteady(n, net, p);
        FewerIsLost(n, net, p);
        FewerKeepsCaps(n, net, p);
      } else {
        RequestMeansMissing(net, p);
        UnassignRequests(p);
        NormalCaps(net);
      }
    }

    /** The part of peer_on_shake that attaches a peer; it chokes us and has shown no piece yet. */
    method OnNew(p: nat)
      requires Inv(net) && p !in net.peers
      modifies this
      ensures Inv(net) && net == WithPeer(old(net), p)
      ensures SameStore(old(net), net)
    {
      WithPeerInv(net, p);
      net := net.(
        order := [p] + net.order, peers := net.peers[p := FRESH_PEER],
        has := net.has[p := {}], chokes := net.chokes + {p});
    }

    /** dl_on_piece_ann's dealings with a missing or unfull piece of a peer that can be asked. */
    method AskForNew(p: nat, i: nat)
      requires InvBut(net, {p}) && !net.endgame && p in net.order && p in net.has && LeechOk(net, p)
      requires net.has[p] * WantSet(net) == {i}
      modifies this
      ensures Inv(net) && Grew(old(net), net) && BegunOnTime(old(net), net)
    {
      ghost var n := net;
      NewIsWanted(net, p, i);
      if i !in net.pieces {
        NewPiece(i);
      }
      ghost var l := net;
      GrewRefl(n);
      PieceAssign(i, p);
      AnnouncedInv(n, l, net, p, i);
      GrewTransitive(n, l, net);
    }

    /**
     dl_on_piece_ann. `seen` are the pieces of p announced before; they are all p has besides
     i, unless p chokes us and its bit field is still being read.
     */
    method PieceAnn(p: nat, i: nat, ghost seen: set<nat>, ghost n: Net)
      requires CanShow(n, p, i) && n.has[p] == seen
      requires p in net.has && (p in net.chokes || net.has[p] == seen + {i})
      requires Masked(net, p, seen + {i}) == Shown(n, p, i).(count := n.count)
      modifies this
      ensures net.has == old(net.has) && Inv(Masked(net, p, seen + {i}))
      ensures Grew(Shown(n, p, i), Masked(net, p, seen + {i}))
      ensures BegunOnTime(old(net), net) && (p in old(net).chokes ==> net.endgame == old(net.endgame))
    {
      CountUp(p, i, seen, n);
      AnnBranches(n, p, i);
      if i !in net.got && (net.endgame || i !in net.pieces || !Full(net.pieces[i], net.nblocks[i])) {
        WantNew(p, i, seen, n);
      } else {
        SkipNew(n, net, p, i, seen);
      }
    }

    /** piece_count grows by one for the announced piece. */
    method CountUp(p: nat, i: nat, ghost seen: set<nat>, ghost n: Net)
      requires p in n.peers && p in n.has && i < |n.count|
      requires Masked(net, p, seen + {i}) == Shown(n, p, i).(count := n.count)
      modifies this
      ensures Masked(net, p, seen + {i}) == Shown(n, p, i) && net.has == old(net.has) && net.chokes == old(net.chokes)
      ensures net.got == n.got && net.endgame == n.endgame && net.pieces == n.pieces && net.nblocks == n.nblocks
    {
      MaskCount(n, net, p, i, seen);
      net := net.(count := net.count[i := net.count[i] + 1]);
    }

    /** Each wanting branch of dl_on_piece_ann: p is wanted for the piece and, if possible, asked for it. */
    method WantNew(p: nat, i: nat, ghost seen: set<nat>, ghost n: Net)
      requires CanShow(n, p, i) && n.has[p] == seen && i in WantSet(n)
      requires p in net.has && (p in net.chokes || net.has[p] == seen + {i})
      requires Masked(net, p, seen + {i}) == Shown(n, p, i)
      modifies this
      ensures net.has == old(net.has) && Inv(Masked(net, p, seen + {i}))
      ensures Grew(Shown(n, p, i), Masked(net, p, seen + {i}))
      ensures BegunOnTime(old(net), net) && (p in old(net).chokes ==> net.endgame == old(net.endgame))
    {
      WantedReady(n, p, i);
      net := net.(peers := net.peers[p := Want(net.peers[p])]);
      MaskWanted(n, net, p, i, seen);
      if LeechOk(net, p) {
        MaskSame(net, p, seen + {i});
        AskNew(p, i, n);
        MaskSame(net, p, seen + {i});
      }
    }

    method AskNew(p: nat, i: nat, ghost n: Net)
      requires CanShow(n, p, i) && i in WantSet(n)
      requires n.peers[p].Settled() && n.peers[p].nwant <= n.peers[p].npieces
      requires net == ShownWanted(n, p, i) && InvBut(net, {p}) && WantSet(net) == WantSet(n) && LeechOk(net, p)
      modifies this
      ensures Inv(net) && Grew(Shown(n, p, i), net) && BegunOnTime(old(net), net)
    {
      ghost var w := net;
      if net.endgame {
        OnDownload(p);
      } else {
        OnlyNewPiece(n, p, i);
        AskForNew(p, i);
      }
      WantedGrew(n, p, i);
      GrewTransitive(Shown(n, p, i), w, net);
    }

    /** The body of peer_on_have and of peer_on_bitfield's loop for a piece whose bit is set. */
    method Announce(p: nat, i: nat, ghost seen: set<nat>)
      requires CanShow(Masked(net, p, seen), p, i)
      requires p in net.has && (p in net.chokes || net.has[p] == seen + {i})
      modifies this
      ensures net.has == old(net.has) && Inv(Masked(net, p, seen + {i}))
      ensures Grew(Shown(Masked(old(net), p, seen), p, i), Masked(net, p, seen + {i}))
      ensures BegunOnTime(old(net), net) && (p in old(net).chokes ==> net.endgame == old(net.endgame))
    {
      ghost var n := Masked(net, p, seen);
      RaiseNpieces(p, i, seen);
      PieceAnn(p, i, seen, n);
    }

    method RaiseNpieces(p: nat, i: nat, ghost seen: set<nat>)
      requires p in net.peers && i < |net.count|
      modifies this
      ensures net.has == old(net.has) && net.chokes == old(net.chokes) && net.endgame == old(net.endgame)
      ensures Masked(net, p, seen + {i}) ==
              Shown(Masked(old(net), p, seen), p, i).(count := Masked(old(net), p, seen).count)
    {
      AnnounceMask(net, p, i, seen);
      net := net.(peers := net.peers[p := net.peers[p].(npieces := net.peers[p].npieces + 1)]);
    }

    /** peer_on_have */
    method OnHave(p: nat, i: nat)
      requires Inv(net) && p in net.order && i < |net.nblocks|
      modifies this
      ensures Inv(net)
      ensures p in old(net).has && p in old(net).peers
      ensures i !in old(net).has[p] ==> i < |old(net).count| && Grew(Shown(old(net), p, i), net)
      ensures i in old(net).has[p] ==> net == old(net)
      ensures SameStore(old(net), net) && BegunOnTime(old(net), net)
    {
      ghost var n := net;
      SettledPeer(net, p);
      if i !in net.has[p] {
        MaskSame(net, p, net.has[p]);
        HaveMask(net, p, i);
        net := net.(has := net.has[p := net.has[p] + {i}]);
        Announce(p, i, n.has[p]);
        MaskSame(net, p, n.has[p] + {i});
      }
    }

    /** peer_on_bitfield, for the first message of a peer that chokes us */
    method OnBitfield(p: nat, field: set<nat>)
      requires Inv(net) && p in net.order && p in net.chokes && p in net.has && net.has[p] == {}
      requires field <= Range(|net.nblocks|)
      modifies this
      ensures Inv(net) && net.has == old(net.has)[p := field]
      ensures net.order == old(net.order) && net.chokes == old(net.chokes)
      ensures KeptRequests(old(net).peers, net.peers)
      ensures SameStore(old(net), net) && net.endgame == old(net.endgame)
    {
      ghost var s := BitfieldStart(net, p, field);
      net := net.(has := net.has[p := field]);
      ghost var n := net;
      var i;
      i, s := AnnounceAll(p, field, n, s);
      assert Announced(n, net, s, p, field, i);
      BitfieldEnd(n, net, s, p, field, i);
    }

    method AnnounceAll(p: nat, field: set<nat>, ghost n: Net, ghost s: Net) returns (i: nat, ghost s': Net)
      requires Announcing(n, net, s, p, field, 0) && net.nblocks == n.nblocks
      modifies this
      ensures i == |n.nblocks| && Announcing(n, net, s', p, field, i)
    {
      var npieces := |net.nblocks|;
      i, s' := 0, s;
      while i < npieces
        invariant i <= npieces == |n.nblocks| && Announcing(n, net, s', p, field, i)
      {
        s' := AnnounceNext(p, field, i, n, s');
        i := i + 1;
      }
    }

    /** One turn of peer_on_bitfield's loop. */
    method AnnounceNext(p: nat, field: set<nat>, i: nat, ghost n: Net, ghost s: Net) returns (ghost s': Net)
      requires Announcing(n, net, s, p, field, i) && i < |n.nblocks|
      modifies this
      ensures Announcing(n, net, s', p, field, i + 1)
    {
      assert Announced(n, net, s, p, field, i);
      BitfieldTurn(n, net, s, p, field, i);
      s' := s;
      if i in net.has[p] {
        ghost var m := net;
        Announce(p, i, Below(field, i));
        s' := BitfieldStep(n, m, net, s, p, field, i);
      }
    }

    /** The have messages of dl_on_ok_piece. */
    method BroadcastHave(i: nat)
      requires Base(net)
      modifies this
      ensures net == old(net).(peers := net.peers) && HaveTold(old(net), net.peers, i, |old(net).order|)
    {
      ghost var n := net;
      var k := 0;
      while k < |net.order|
        invariant k <= |net.order| && net == n.(peers := net.peers) && HaveTold(n, net.peers, i, k)
      {
        var q := net.order[k];
        assert q in Elems(n.order);
        ToldNext(n, net.peers, i, k);
        if i !in net.has[q] {
          net := net.(peers := net.peers[q := SendNoted(net.peers[q], Have(i))]);
        }
        k := k + 1;
      }
    }

    /** piece_free, and the marking of the verified piece in cm_test_piece */
    method FreePiece(i: nat)
      requires net.nbusy > 0
      modifies this
      ensures net == Completed(old(net), i)
    {
      net := net.(
        got := net.got + {i}, ngot := net.ngot + 1, busy := net.busy - {i}, nbusy := net.nbusy - 1,
        getlst := Remove(net.getlst, i), pieces := net.pieces - {i});
    }

    /** cm_test_piece with a good hash and dl_on_ok_piece, outside end game */
    method TestPiece(i: nat, p: nat)
      requires Untested(net, i, p)
      modifies this
      ensures InvBut(net, {p}) && !net.endgame
      ensures if old(net.pieces[i].ngot == net.nblocks[i])
        then old(net).nbusy > 0 && HaveTold(old(net), net.peers, i, |old(net).order|)
             && net == Completed(old(net).(peers := net.peers), i)
        else net == old(net)
    {
      ghost var n := net;
      if net.pieces[i].ngot == net.nblocks[i] {
        BroadcastHave(i);
        ToldRequeued(n, net.peers, i);
        AnnouncedSame(n, net, {});
        AnnouncedUntested(n, net, i, p);
        TestedNormal(net, i, p);
        assert net.pieces[i].nreqs == 0 by { CompleteIsUnasked(net, i); }
        FreePiece(i);
      } else {
        TestedNormal(net, i, p);
      }
    }

    /** cm_test_piece with a good hash and dl_on_ok_piece, in end game */
    method TestPieceEg(i: nat, ghost x: Block)
      requires UntestedEg(net, i) && net.pieces[i].ngot == net.nblocks[i]
      modifies this
      ensures Inv(net) && old(net).nbusy > 0 && KeptBut(HaveNoted(old(net), i), net, x)
      ensures net == Completed(old(net).(peers := net.peers), i)
    {
      ghost var n := net;
      BroadcastHave(i);
      ToldRequeued(n, net.peers, i);
      AnnouncedSame(n, net, n.busy);
      PutBack(net.busy, i);
      ghost var m := net;
      UnwantAll(i, net.busy - {i});
      SameReqsTransitive(n.peers, m.peers, net.peers);
      TestedEg(n, net, i);
      ToldKept(n, m.peers, net, i, x);
      assert net.pieces[i].nreqs == 0 by { CompleteIsUnasked(net, i); }
      FreePiece(i);
    }

    /** The start of peer_on_piece and dl_on_block outside end game: the request is closed, the block stored. */
    method TakeBlock(p: nat, x: Block)
      requires p in net.peers && net.peers[p].Loose() && x in net.peers[p].reqs
      requires x.piece in net.pieces && x.piece < |net.have|
      requires net.pieces[x.piece].nreqs > 0 && net.pieces[x.piece].nbusy > 0
      requires x.block !in net.have[x.piece] && x.piece !in net.got  // the assertions of cm_put_bytes
      modifies this
      ensures net == Got(old(net), p, x)
    {
      net := net.(
        peers := net.peers[p := Settle(CloseRequest(net.peers[p], x))],
        have := net.have[x.piece := net.have[x.piece] + {x.block}],
        pieces := net.pieces[x.piece := PieceGot(net.pieces[x.piece], p, x.block)]);
    }

    /** peer_on_piece and dl_on_block for a requested block, outside end game */
    method BlockNormal(p: nat, x: Block)
      requires Inv(net) && !net.endgame && p in net.order && p in net.peers && x in net.peers[p].reqs
      modifies this
      ensures Inv(net) && Stored(old(net), net, x) && KeptBut(Answered(old(net), p, x), net, x)
      ensures BegunOnTime(old(net), net)
    {
      ghost var n := net;
      FindListed(net, p, x);
      assert x.piece in net.busy;
      GotUntested(net, p, x);
      GotKept(net, p, x);
      TakeBlock(p, x);
      ghost var t := net;
      TestPiece(x.piece, p);
      TestedStored(n, t, net, p, x);
      ghost var c := net;
      SettledPeer(net, p);
      if LeechOk(net, p) {
        OnDownload(p);
        GrewKept(c, net, x);
        KeptButTransitive(Answered(n, p, x), c, net, x);
      } else {
        NotLeechOk(net, p);
      }
    }

    /** The start of peer_on_piece and dl_on_block in end game: p's request is closed, the block stored. */
    method TakeBlockEg(p: nat, x: Block)
      requires p in net.peers && net.peers[p].Loose() && x in net.peers[p].reqs
      requires x.piece in net.pieces && x.piece < |net.have|
      requires x.block !in net.have[x.piece] && x.piece !in net.got  // the assertions of cm_put_bytes
      modifies this
      ensures net == GotEg(old(net), p, x)
    {
      net := net.(
        peers := net.peers[p := Settle(CloseRequest(net.peers[p], x))],
        have := net.have[x.piece := net.have[x.piece] + {x.block}],
        pieces := net.pieces[x.piece := net.pieces[x.piece].(ngot := net.pieces[x.piece].ngot + 1)]);
    }

    /**
     The position in an output queue of the buffer that carries a request, or none. Buffers
     are told apart by identity, so any queued request for the block may be the one.
     */
    static method FindLink(outq: seq<Item>, x: Block) returns (k: int)
      ensures 0 <= k < |outq| ==> outq[k] == Request(x)
    {
      k := *;
      if !(0 <= k < |outq| && outq[k] == Request(x)) {
        k := -1;
      }
    }

    /** peer_cancel */
    method CancelPeer(q: nat, x: Block)
      requires q in net.peers && net.peers[q].Settled() && x in net.peers[q].reqs
      modifies this
      ensures net == old(net).(peers := net.peers) && q in net.peers && net.peers == old(net.peers)[q := net.peers[q]]
      ensures net.peers[q].Settled() && net.peers[q].nwant == old(net.peers[q].nwant)
      ensures SameRecord(old(net.peers[q]), net.peers[q]) && net.peers[q].reqs == Remove(old(net.peers[q].reqs), x)
    {
      var link := FindLink(net.peers[q].outq, x);
      net := net.(peers := net.peers[q := CancelRequest(net.peers[q], x, link)]);
    }

    method CountRequestDown(i: nat)
      requires i in net.pieces && net.pieces[i].nreqs > 0
      modifies this
      ensures net ==
        old(net).(pieces := old(net.pieces)[i := old(net.pieces[i]).(nreqs := old(net.pieces[i].nreqs) - 1)])
    {
      net := net.(pieces := net.pieces[i := net.pieces[i].(nreqs := net.pieces[i].nreqs - 1)]);
    }

    method CancelRequestOf(p: nat, x: Block, q: nat)
      requires x.piece in net.pieces && net.pieces[x.piece].nreqs > 0
      requires q != p ==> q in net.peers && net.peers[q].Settled() && x in net.peers[q].reqs
      modifies this
      ensures CancelledOne(old(net), net, p, x, q)
    {
      if q != p {
        CancelPeer(q, x);
      }
      CountRequestDown(x.piece);
    }

    /** One turn of the first loop of dl_on_block in end game. */
    method CancelOne(p: nat, x: Block, k: nat, ghost n: Net)
      requires Base(n) && CancellingOnly(n, net, p, x, k) && k < |n.pieces[x.piece].reqs|
      requires x.block !in n.have[x.piece]
      modifies this
      ensures CancellingOnly(n, net, p, x, k + 1)
    {
      ghost var m := net;
      CancelReady(n, net, p, x, k);
      var r := net.pieces[x.piece].reqs[k];
      if r.block == x.block {
        CancelRequestOf(p, x, r.peer);
        CancelOneRecorded(n, m, net, p, x, r.peer);
      }
      CancellingStep(n, m, net, p, x, k);
    }

    /** The first loop of dl_on_block in end game. */
    method CancelOthers(p: nat, x: Block, ghost n: Net)
      requires Base(n) && x.piece in n.pieces && x.piece < |n.have| && x.block !in n.have[x.piece]
      requires CancellingOnly(n, net, p, x, 0)
      modifies this
      ensures CancellingOnly(n, net, p, x, |n.pieces[x.piece].reqs|)
    {
      var total := |net.pieces[x.piece].reqs|;
      var k := 0;
      while k < total
        invariant k <= total && CancellingOnly(n, net, p, x, k)
      {
        CancelOne(p, x, k, n);
        k := k + 1;
      }
    }

    /** dl_piece_reorder_eg for a piece that has just got a block */
    method ReorderEg(i: nat, ghost n: Net)
      requires Sorted(n) && Linked(n.getlst, n.busy) && i in n.pieces && i in n.busy && i < |n.nblocks|
      requires i in net.pieces && net.pieces == n.pieces[i := net.pieces[i]]
      requires net.nblocks == n.nblocks && net.getlst == n.getlst && net.busy == n.busy
      modifies this
      ensures net == old(net).(getlst := net.getlst) && Sorted(net) && Linked(net.getlst, net.busy)
    {
      ReorderReady(n, net, i);
      net := net.(getlst := Remove(net.getlst, i));
      InsertEg(i);
    }

    /** One turn of the second loop of dl_on_block in end game. */
    method FreeOne(i: nat, b: nat, reqs: seq<Req>, k: nat, ghost x: Block)
      requires Reassigning(net, i, b, reqs, k) && k < |reqs|
      modifies this
      ensures Reassigning(net, i, b, reqs, k + 1) && FreeingOnly(old(net), net, x)
    {
      ghost var n := net;
      var r := reqs[k];
      if r.block == b {
        ReassignFree(net, i, b, reqs, k);
        FreedKept(net, i, r, x);
        net := net.(pieces := net.pieces[i := net.pieces[i].(reqs := Remove(net.pieces[i].reqs, r))]);
        AskFreed(r.peer, i, b, reqs, k + 1, x, n);
      } else {
        ReassignSkip(net, i, b, reqs, k);
        FreeingRefl(net, x);
      }
    }

    method AskFreed(p: nat, i: nat, b: nat, reqs: seq<Req>, k: nat, ghost x: Block, ghost n: Net)
      requires ReassigningBut(net, i, b, reqs, k, p) && p in net.order
      requires FreeingOnly(n, net, x)
      modifies this
      ensures Reassigning(net, i, b, reqs, k) && FreeingOnly(n, net, x)
    {
      ghost var m := net;
      assert p in Elems(net.order);
      if LeechOk(net, p) {
        AssignEg(p);
        ReassignAsk(m, net, i, b, reqs, k, p);
        AskedKept(m, net, p, x);
        FreeingTransitive(n, m, net, x);
      } else {
        ReassignPass(net, i, b, reqs, k, p);
      }
    }

    method FreeNext(i: nat, b: nat, reqs: seq<Req>, k: nat, ghost x: Block, ghost n: Net)
      requires Reassigning(net, i, b, reqs, k) && k < |reqs| && FreeingOnly(n, net, x)
      modifies this
      ensures Reassigning(net, i, b, reqs, k + 1) && FreeingOnly(n, net, x)
    {
      ghost var m := net;
      FreeOne(i, b, reqs, k, x);
      FreeingTransitive(n, m, net, x);
    }

    method FreeEach(i: nat, b: nat, reqs: seq<Req>, ghost x: Block, ghost n: Net) returns (k: nat)
      requires Reassigning(net, i, b, reqs, 0) && FreeingOnly(n, net, x)
      modifies this
      ensures k == |reqs| && Reassigning(net, i, b, reqs, k) && FreeingOnly(n, net, x)
    {
      k := 0;
      while k < |reqs|
        invariant k <= |reqs|
        invariant (Reassigning(net, i, b, reqs, k) && FreeingOnly(n, net, x)) == true  // not conjunct by conjunct
      {
        FreeNext(i, b, reqs, k, x, n);
        k := k + 1;
      }
    }

    /** The second loop of dl_on_block in end game. */
    method FreeAll(i: nat, b: nat, reqs: seq<Req>, ghost x: Block)
      requires Reassigning(net, i, b, reqs, 0)
      modifies this
      ensures UntestedEg(net, i) && FreeingOnly(old(net), net, x)
    {
      FreeingRefl(net, x);
      var k := FreeEach(i, b, reqs, x, net);
      ReassignEnd(net, i, b, reqs);
    }

    /** peer_on_piece and dl_on_block for a requested block, in end game */
    method BlockEg(p: nat, x: Block)
      requires Inv(net) && net.endgame && p in net.order && p in net.peers && x in net.peers[p].reqs
      modifies this
      ensures Inv(net) && Stored(old(net), net, x) && KeptBut(Answered(old(net), p, x), net, x)
    {
      ghost var n := net;
      FindListed(net, p, x);
      assert x.piece in net.busy;
      CancellingStart(net, p, x);
      TakeBlockEg(p, x);
      CancelOthers(p, x, n);
      CancelledBase(n, net, p, x);
      ghost var m := net;
      ReorderEg(x.piece, n);
      ReassignStart(n, m, net, p, x);
      CancelledKeptEg(n, m, net, p, x);
      ghost var l := net;
      FreeAll(x.piece, x.block, net.pieces[x.piece].reqs, x);
      KeptButTransitive(Credited(n, p, x), l, net, x);
      FinishEg(x, p, n);
    }

    /** The test of the piece at the end of dl_on_block in end game */
    method FinishEg(x: Block, ghost p: nat, ghost n: Net)
      requires UntestedEg(net, x.piece) && p in n.peers && KeptBut(Credited(n, p, x), net, x)
      requires x.piece < |n.have| && x.block !in n.have[x.piece] && x.piece !in n.got
      requires net.have == n.have[x.piece := n.have[x.piece] + {x.block}] && net.got == n.got
      modifies this
      ensures Inv(net) && Stored(n, net, x) && KeptBut(Answered(n, p, x), net, x)
    {
      ghost var m := net;
      assert PieceOk(net.pieces[x.piece], net.nblocks[x.piece], net.have[x.piece], net.endgame);
      OneMore(n.have[x.piece], x.block);
      if net.pieces[x.piece].ngot == net.nblocks[x.piece] {
        HaveNotedKept(Credited(n, p, x), m, x.piece, x);
        TestPieceEg(x.piece, x);
        KeptButTransitive(Answered(n, p, x), HaveNoted(m, x.piece), net, x);
      } else {
        IncompleteEg(net, x.piece);
      }
    }

    /** peer_on_piece: a block that was not requested is discarded. */
    method OnPiece(p: nat, x: Block)
      requires Inv(net) && p in net.order
      modifies this
      ensures Inv(net)
      ensures p in old(net).peers && (x in old(net).peers[p].reqs ==>
        Stored(old(net), net, x) && KeptBut(Answered(old(net), p, x), net, x))
      ensures x !in old(net).peers[p].reqs ==> net == old(net)
      ensures BegunOnTime(old(net), net)
    {
      SettledPeer(net, p);
      if x in net.peers[p].reqs {
        if net.endgame {
          BlockEg(p, x);
        } else {
          BlockNormal(p, x);
        }
      }
    }

    /**
     One event; those that cannot happen in the state they find are passed over, as Enabled says.
     End game stays on once it is on, and when it begins every missing block has been asked for.
     */
    method Handle(e: Event)
      requires Inv(net)
      modifies this
      ensures Inv(net) && Progress(old(net), net) && BegunOnTime(old(net), net) && Effect(old(net), net, e)
    {
      ghost var n := net;
      if !Enabled(net, e) {
        SameStoreProgress(n, net);
        return;
      }
      match e
      case GotPiece(p, x) =>
        OnPiece(p, x);
        StoredProgress(n, net, p, x);
      case _ =>
        HandleQuiet(e);
        SameStoreProgress(n, net);
    }

    /** The events that store nothing. */
    method HandleQuiet(e: Event)
      requires Inv(net) && Enabled(net, e) && !e.GotPiece?
      modifies this
      ensures Inv(net) && SameStore(old(net), net) && BegunOnTime(old(net), net) && Effect(old(net), net, e)
    {
      match e
      case NewPeer(p) => OnNew(p);
      case LostPeer(p) => OnLost(p);
      case GotHave(p, i) => OnHave(p, i);
      case GotBitfield(p, field) => OnBitfield(p, field);
      case GotChoke(p) => OnChoke(p);
      case GotUnchoke(p) => OnUnchoke(p);
      case Wrote(p, k, part) => OnWritten(p, k, part);
      case SentOther(p) =>
        SettledPeer(net, p);
        OnOther(p);
      case WithdrewOther(p, k) => OnOtherWithdrawn(p, k);
      case GotPiece(p, x) => assert false;
    }

    /** Any run. */
    method Run(es: seq<Event>)
      requires Inv(net)
      modifies this
      ensures Inv(net) && Progress(old(net), net)
    {
      ghost var n := net;
      var k := 0;
      while k < |es|
        invariant k <= |es| && Inv(net) && Progress(n, net)
      {
        ghost var m := net;
        Handle(es[k]);
        ProgressTransitive(n, m, net);
        k := k + 1;
      }
    }
  }
}
