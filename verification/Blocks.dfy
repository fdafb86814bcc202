/** What the arrival of a block and the completion of a piece keep. */
module Blocks {
  import opened Lists
  import opened Peers
  import opened NetState
  import opened Requests
  import opened Withdrawals
  import opened Invariant

  // ---------- A block outside end game ----------

  /** The piece once its block has been stored and the one request for it is closed. */
  function PieceGot(pc: Piece, p: nat, b: nat): Piece
    requires pc.nreqs > 0 && pc.nbusy > 0
  {
    pc.(ngot := pc.ngot + 1, reqs := Remove(pc.reqs, Req(p, b)), nreqs := pc.nreqs - 1,
        down := pc.down - {b}, nbusy := pc.nbusy - 1)
  }

  lemma GotPieceOk(pc: Piece, nblocks: nat, have: set<nat>, p: nat, b: nat)
    requires PieceOk(pc, nblocks, have, false) && Req(p, b) in pc.reqs && b !in have
    ensures pc.nreqs > 0 && pc.nbusy > 0
    ensures PieceOk(PieceGot(pc, p, b), nblocks, have + {b}, false)
  {
    var r := Req(p, b);
    DroppedPieceOk(pc, nblocks, have, false, p, b);
    RemoveMembers(pc.reqs, r);
    AskedRemove(pc.reqs, r);
    assert |have + {b}| == |have| + 1;
    SameLive(Remove(pc.reqs, r), have, b);
  }

  lemma SameLive(reqs: seq<Req>, have: set<nat>, b: nat)
    requires b !in Asked(reqs)
    ensures Live(reqs, have + {b}) == Live(reqs, have)
  {
    forall r
      ensures r in Live(reqs, have + {b}) <==> r in Live(reqs, have)
    {
      if r in reqs {
        assert r.block in Asked(reqs);
      }
    }
  }

  lemma GotKeepsLedger(pieces: map<nat, Piece>, have: seq<set<nat>>, peers: map<nat, Peer>,
                       p: nat, i: nat, b: nat, pc: Piece, pr: Peer)
    requires Ledger(pieces, have, peers) && i in pieces && i < |have| && p in peers
    requires NoDup(pieces[i].reqs) && NoDup(peers[p].reqs) && OnePeerPerBlock(pieces[i].reqs)
    requires Req(p, b) in pieces[i].reqs && b !in have[i]
    requires pc.reqs == Remove(pieces[i].reqs, Req(p, b))
    requires pr.reqs == Remove(peers[p].reqs, Block(i, b))
    ensures Ledger(pieces[i := pc], have[i := have[i] + {b}], peers[p := pr])
  {
    RemoveMembers(pieces[i].reqs, Req(p, b));
    RemoveMembers(peers[p].reqs, Block(i, b));
    var pieces', have', peers' := pieces[i := pc], have[i := have[i] + {b}], peers[p := pr];
    forall q, j, c
      ensures Asks(peers', q, j, c) <==> Listed(pieces', have', q, j, c)
    {
      assert Asks(peers, q, j, c) <==> Listed(pieces, have, q, j, c);
      if j == i && c == b && Req(q, c) in pieces[i].reqs {
        assert Req(q, c) == Req(p, b);
      }
    }
  }

  ghost function Got(n: Net, p: nat, x: Block): Net
    requires p in n.peers && n.peers[p].Loose() && x in n.peers[p].reqs
    requires x.piece in n.pieces && x.piece < |n.have|
    requires n.pieces[x.piece].nreqs > 0 && n.pieces[x.piece].nbusy > 0
  {
    n.(peers := n.peers[p := Settle(CloseRequest(n.peers[p], x))],
       have := n.have[x.piece := n.have[x.piece] + {x.block}],
       pieces := n.pieces[x.piece := PieceGot(n.pieces[x.piece], p, x.block)])
  }

  lemma PutPieceAndBlock(nblocks: seq<nat>, have: seq<set<nat>>, endgame: bool, pieces: map<nat, Piece>, i: nat,
                         hv: set<nat>, pc: Piece)
    requires PiecesOk(nblocks, have, endgame, pieces) && i in pieces && i < |nblocks| && i < |have|
    requires PieceOk(pc, nblocks[i], hv, endgame)
    ensures PiecesOk(nblocks, have[i := hv], endgame, pieces[i := pc])
    ensures pieces[i := pc].Keys == pieces.Keys
  {
  }

  lemma GotKeepsTorrent(nblocks: seq<nat>, got: set<nat>, ngot: nat, have: seq<set<nat>>, i: nat, b: nat)
    requires TorrentOk(nblocks, got, ngot, have) && i < |nblocks| && b < nblocks[i]
    ensures TorrentOk(nblocks, got, ngot, have[i := have[i] + {b}])
  {
  }

  lemma GotKeepsBase(n: Net, p: nat, x: Block)
    requires Base(n) && !n.endgame && p in n.peers && x in n.peers[p].reqs
    ensures x.piece in n.pieces && x.piece < |n.have| && n.peers[p].Loose()
    ensures n.pieces[x.piece].nreqs > 0 && n.pieces[x.piece].nbusy > 0
    ensures Base(Got(n, p, x))
  {
    FindListed(n, p, x);
    var i, b := x.piece, x.block;
    GotPieceOk(n.pieces[i], n.nblocks[i], n.have[i], p, b);
    var m := Got(n, p, x);
    assert n.peers[p].Loose();
    GotKeepsLedger(n.pieces, n.have, n.peers, p, i, b, m.pieces[i], m.peers[p]);
    PutPieceAndBlock(n.nblocks, n.have, false, n.pieces, i, m.have[i], m.pieces[i]);
    GotKeepsTorrent(n.nblocks, n.got, n.ngot, n.have, i, b);
    PutPeer(n.peers, p, m.peers[p]);
    HeldPut(n.order, n.peers, n.has, p, m.peers[p]);
  }

  lemma GotWant(n: Net, p: nat, x: Block)
    requires Normal(n) && p in n.peers && x in n.peers[p].reqs
    requires x.piece in n.pieces && x.piece < |n.have| && n.peers[p].Loose()
    requires n.pieces[x.piece].nreqs > 0 && n.pieces[x.piece].nbusy > 0
    ensures WantSet(Got(n, p, x)) == WantSet(n)
    ensures WantOk(n.order, Got(n, p, x).peers, n.has, WantSet(n))
  {
    var m := Got(n, p, x);
    forall j
      ensures j in WantSet(m) <==> j in WantSet(n)
    {
      GotWanted(n, p, x, j);
    }
    WantPut(n.order, n.peers, n.has, WantSet(n), p, m.peers[p]);
  }

  lemma GotWanted(n: Net, p: nat, x: Block, j: nat)
    requires p in n.peers && x in n.peers[p].reqs && n.peers[p].Loose()
    requires x.piece in n.pieces && x.piece < |n.have|
    requires n.pieces[x.piece].nreqs > 0 && n.pieces[x.piece].nbusy > 0
    ensures Wanted(Got(n, p, x), j) <==> Wanted(n, j)
  {
  }

  /** Every unverified piece but i lacks a block. */
  ghost predicate UnfinishedBut(nblocks: seq<nat>, got: set<nat>, have: seq<set<nat>>, i: nat) {
    |have| == |nblocks| && forall j :: 0 <= j < |nblocks| && j !in got && j != i ==> |have[j]| < nblocks[j]
  }

  /** The state of dl_on_block before a complete piece has been tested, outside end game. */
  ghost predicate Untested(n: Net, i: nat, p: nat) {
    && Base(n) && !n.endgame && Linked(n.getlst, n.busy) && i in n.pieces && i < |n.nblocks|
    && WantOk(n.order, n.peers, n.has, WantSet(n))
    && UnfinishedBut(n.nblocks, n.got, n.have, i)
    && Outer(n) && Caps(n, {p}) && WantSet(n) != {}
  }

  lemma GotOuter(n: Net, p: nat, x: Block)
    requires Outer(n) && p in n.order && p in n.peers && p !in n.chokes && x in n.peers[p].reqs
    requires x.piece in n.pieces && x.piece < |n.have| && n.peers[p].Loose()
    requires n.pieces[x.piece].nreqs > 0 && n.pieces[x.piece].nbusy > 0
    ensures Outer(Got(n, p, x))
  {
    assert Got(n, p, x).peers.Keys == n.peers.Keys;
  }

  lemma AskedIsUnchoked(n: Net, p: nat, x: Block)
    requires Outer(n) && p in n.order && p in n.peers && x in n.peers[p].reqs
    ensures p !in n.chokes
  {
  }

  lemma GotUntested(n: Net, p: nat, x: Block)
    requires Inv(n) && !n.endgame && p in n.order && p in n.peers && x in n.peers[p].reqs
    ensures x.piece in n.pieces && x.piece < |n.have| && n.peers[p].Loose()
    ensures n.pieces[x.piece].nreqs > 0 && n.pieces[x.piece].nbusy > 0
    ensures Untested(Got(n, p, x), x.piece, p)
  {
    GotKeepsBase(n, p, x);
    GotWant(n, p, x);
    AskedIsUnchoked(n, p, x);
    GotOuter(n, p, x);
    assert n.peers[p].Loose();
    RequestMeansMissing(n, p);
    GotUnfinished(n.nblocks, n.got, n.have, x.piece, n.have[x.piece] + {x.block});
    GotCaps(n, p, x);
  }

  lemma GotUnfinished(nblocks: seq<nat>, got: set<nat>, have: seq<set<nat>>, i: nat, hv: set<nat>)
    requires Unfinished(nblocks, got, have) && i < |have|
    ensures UnfinishedBut(nblocks, got, have[i := hv], i)
  {
  }

  lemma GotCaps(n: Net, p: nat, x: Block)
    requires !n.endgame && Caps(n, {}) && p in n.peers && x in n.peers[p].reqs
    requires x.piece in n.pieces && x.piece < |n.have| && n.peers[p].Loose()
    requires n.pieces[x.piece].nreqs > 0 && n.pieces[x.piece].nbusy > 0
    requires WantSet(Got(n, p, x)) == WantSet(n)
    ensures Caps(Got(n, p, x), {p})
  {
    var m := Got(n, p, x);
    forall q | q in m.order && q != p
      ensures Cap(m, q)
    {
      assert Cap(n, q);
    }
  }

  // ---------- A complete piece ----------

  ghost function Completed(n: Net, i: nat): Net
    requires n.nbusy > 0
  {
    n.(got := n.got + {i}, ngot := n.ngot + 1, busy := n.busy - {i}, nbusy := n.nbusy - 1,
       getlst := Remove(n.getlst, i), pieces := n.pieces - {i})
  }

  /** A piece with all its blocks has no request left. */
  lemma CompleteIsUnasked(n: Net, i: nat)
    requires Core(n) && i in n.pieces && i < |n.nblocks| && n.pieces[i].ngot == n.nblocks[i]
    ensures n.pieces[i].nreqs == 0 && n.nbusy > 0
    ensures forall q, b :: !Asks(n.peers, q, i, b)
    ensures !n.endgame ==> i !in WantSet(n)
  {
    CompleteHasAll(n.have[i], n.nblocks[i]);
    assert PieceOk(n.pieces[i], n.nblocks[i], n.have[i], n.endgame);
    AsksAreLive(n, i);
    assert Live(n.pieces[i].reqs, n.have[i]) == {};
    assert i in n.busy;
    if !n.endgame {
      NotOverfull(n.pieces[i], n.nblocks[i], n.have[i]);
      assert !Wanted(n, i);
    }
  }

  lemma CompleteKeepsLedger(pieces: map<nat, Piece>, have: seq<set<nat>>, peers: map<nat, Peer>, i: nat)
    requires Ledger(pieces, have, peers) && i in pieces
    requires forall q, b :: !Asks(peers, q, i, b)
    ensures Ledger(pieces - {i}, have, peers)
  {
    var pieces' := pieces - {i};
    forall q, j, c
      ensures Asks(peers, q, j, c) <==> Listed(pieces', have, q, j, c)
    {
      assert Asks(peers, q, j, c) <==> Listed(pieces, have, q, j, c);
    }
  }

  lemma CompleteKeepsBusy(npieces: nat, got: set<nat>, busy: set<nat>, nbusy: nat, pieces: map<nat, Piece>, i: nat)
    requires BusyOk(npieces, got, busy, nbusy, pieces) && i in busy && nbusy > 0
    ensures BusyOk(npieces, got + {i}, busy - {i}, nbusy - 1, pieces - {i})
  {
    OneLess(busy, i);
    assert (pieces - {i}).Keys == pieces.Keys - {i};
  }

  lemma CompleteKeepsTorrent(nblocks: seq<nat>, got: set<nat>, ngot: nat, have: seq<set<nat>>, i: nat)
    requires TorrentOk(nblocks, got, ngot, have) && i !in got && i < |nblocks|
    ensures TorrentOk(nblocks, got + {i}, ngot + 1, have)
  {
    OneMore(got, i);
  }

  lemma CompleteKeepsBase(n: Net, i: nat)
    requires Base(n) && Linked(n.getlst, n.busy)
    requires i in n.pieces && i < |n.nblocks| && n.pieces[i].ngot == n.nblocks[i]
    ensures n.nbusy > 0 && Base(Completed(n, i)) && Linked(Completed(n, i).getlst, Completed(n, i).busy)
  {
    CompleteIsUnasked(n, i);
    RemoveElems(n.getlst, i);
    CompleteKeepsBusy(|n.nblocks|, n.got, n.busy, n.nbusy, n.pieces, i);
    CompleteKeepsTorrent(n.nblocks, n.got, n.ngot, n.have, i);
    CompleteKeepsLedger(n.pieces, n.have, n.peers, i);
    DropPieceKeepsPieces(n.nblocks, n.have, n.endgame, n.pieces, i);
  }

  lemma DropPieceKeepsPieces(nblocks: seq<nat>, have: seq<set<nat>>, endgame: bool, pieces: map<nat, Piece>, i: nat)
    requires PiecesOk(nblocks, have, endgame, pieces)
    ensures PiecesOk(nblocks, have, endgame, pieces - {i})
  {
  }

  lemma CompleteKeepsWant(n: Net, i: nat)
    requires !n.endgame && i in n.pieces && i !in WantSet(n) && n.nbusy > 0
    ensures WantSet(Completed(n, i)) == WantSet(n)
  {
    var m := Completed(n, i);
    forall j
      ensures j in WantSet(m) <==> j in WantSet(n)
    {
      assert j in WantSet(n) <==> Wanted(n, j);
      assert j in WantSet(m) <==> Wanted(m, j);
    }
  }

  /**
   Outside end game: testing a complete piece, or leaving an incomplete one, closes the event but
   for p's capacity.
   */
  lemma TestedNormal(n: Net, i: nat, p: nat)
    requires Untested(n, i, p)
    ensures n.pieces[i].ngot != n.nblocks[i] ==> InvBut(n, {p})
    ensures n.pieces[i].ngot == n.nblocks[i] ==> n.nbusy > 0 && InvBut(Completed(n, i), {p})
  {
    assert PieceOk(n.pieces[i], n.nblocks[i], n.have[i], false);
    if n.pieces[i].ngot != n.nblocks[i] {
      NotOverfull(n.pieces[i], n.nblocks[i], n.have[i]);
    } else {
      CompleteIsUnasked(n, i);
      CompleteKeepsBase(n, i);
      CompleteKeepsWant(n, i);
      CompletedCaps(n, i, {p});
    }
  }

  lemma CompletedCaps(n: Net, i: nat, x: set<nat>)
    requires !n.endgame && n.nbusy > 0 && WantSet(Completed(n, i)) == WantSet(n) && Caps(n, x)
    ensures Caps(Completed(n, i), x)
  {
    var m := Completed(n, i);
    forall q | q in m.order && q !in x
      ensures Cap(m, q)
    {
      assert Cap(n, q);
    }
  }

  // ---------- A block in end game: the other requests are cancelled ----------

  /** Who has been asked for the block, among the first k of the piece's requests. */
  ghost function Askers(reqs: seq<Req>, k: nat, b: nat): set<nat>
    requires k <= |reqs|
  {
    set r | r in reqs[..k] && r.block == b :: r.peer
  }

  lemma AskersStep(reqs: seq<Req>, k: nat, b: nat)
    requires NoDup(reqs) && k < |reqs|
    ensures Askers(reqs, k + 1, b) == if reqs[k].block == b then Askers(reqs, k, b) + {reqs[k].peer}
      else Askers(reqs, k, b)
    ensures reqs[k].block == b ==> reqs[k].peer !in Askers(reqs, k, b)
  {
    TakeNext(reqs, k);
    assert forall r :: r in reqs[..k + 1] <==> r in reqs[..k] || r == reqs[k];
    assert reqs[k] !in reqs[..k];
    if reqs[k].block == b {
      assert reqs[k] in reqs[..k + 1];
      forall q
        ensures q in Askers(reqs, k + 1, b) <==> q in Askers(reqs, k, b) + {reqs[k].peer}
      {
      }
      assert forall r :: r in reqs[..k] && r.block == b && r.peer == reqs[k].peer ==> r == reqs[k];
    }
  }

  lemma AskersAll(reqs: seq<Req>, b: nat)
    ensures forall q :: q in Askers(reqs, |reqs|, b) <==> Req(q, b) in reqs
  {
    assert reqs[..|reqs|] == reqs;
    forall q
      ensures q in Askers(reqs, |reqs|, b) <==> Req(q, b) in reqs
    {
      if Req(q, b) in reqs {
        assert Req(q, b).peer == q;
      }
    }
  }

  /** The request x has been taken off the lists of the peers in c, and of no other. */
  ghost predicate CancelledAt(peers: map<nat, Peer>, peers': map<nat, Peer>, x: Block, c: set<nat>) {
    && peers'.Keys == peers.Keys
    && forall q :: q in peers ==>
         && q in peers' && peers'[q].Settled()
         && peers'[q].nwant == peers[q].nwant && peers'[q].npieces == peers[q].npieces
         && (if q in c then peers'[q].reqs == Remove(peers[q].reqs, x) else peers'[q] == peers[q])
  }

  lemma CancelStep(peers: map<nat, Peer>, peers': map<nat, Peer>, x: Block, c: set<nat>, q: nat, pr: Peer)
    requires CancelledAt(peers, peers', x, c) && q in peers && q !in c
    requires pr.Settled() && pr.nwant == peers[q].nwant && pr.npieces == peers[q].npieces
    requires pr.reqs == Remove(peers[q].reqs, x)
    ensures CancelledAt(peers, peers'[q := pr], x, c + {q})
  {
  }

  /** Live requests but for those of the first k that are for block b. */
  ghost function Remaining(reqs: seq<Req>, have: set<nat>, k: nat, b: nat): set<Req>
    requires k <= |reqs|
  {
    set r | r in reqs && r.block !in have && !(r.block == b && r in reqs[..k])
  }

  lemma RemainingStep(reqs: seq<Req>, have: set<nat>, k: nat, b: nat)
    requires NoDup(reqs) && k < |reqs| && b !in have
    ensures reqs[k].block != b ==> Remaining(reqs, have, k + 1, b) == Remaining(reqs, have, k, b)
    ensures reqs[k].block == b ==> |Remaining(reqs, have, k, b)| > 0
    ensures reqs[k].block == b ==> |Remaining(reqs, have, k + 1, b)| == |Remaining(reqs, have, k, b)| - 1
  {
    TakeNext(reqs, k);
    assert forall r :: r in reqs[..k + 1] <==> r in reqs[..k] || r == reqs[k];
    if reqs[k].block == b {
      assert reqs[k] !in reqs[..k];
      assert Remaining(reqs, have, k + 1, b) == Remaining(reqs, have, k, b) - {reqs[k]};
      OneLess(Remaining(reqs, have, k, b), reqs[k]);
    } else {
      assert Remaining(reqs, have, k + 1, b) == Remaining(reqs, have, k, b);
    }
  }

  lemma RemainingEnds(reqs: seq<Req>, have: set<nat>, b: nat)
    ensures Remaining(reqs, have, 0, b) == Live(reqs, have)
    ensures Remaining(reqs, have, |reqs|, b) == Live(reqs, have + {b})
  {
    assert reqs[..|reqs|] == reqs;
  }

  /** The first loop of dl_on_block in end game, k requests on. */
  ghost predicate Cancelling(n: Net, m: Net, p: nat, x: Block, k: nat) {
    && x.piece in n.pieces && x.piece in m.pieces && x.piece < |n.have| && k <= |n.pieces[x.piece].reqs|
    && m == n.(peers := m.peers, have := n.have[x.piece := n.have[x.piece] + {x.block}], pieces := m.pieces)
    && m.pieces == n.pieces[x.piece :=
         n.pieces[x.piece].(ngot := n.pieces[x.piece].ngot + 1, nreqs := m.pieces[x.piece].nreqs)]
    && m.pieces[x.piece].nreqs == |Remaining(n.pieces[x.piece].reqs, n.have[x.piece], k, x.block)|
    && CancelledAt(n.peers, m.peers, x, Askers(n.pieces[x.piece].reqs, k, x.block) + {p})
  }

  /** The same, and all that was written in a peer's record is that p has answered x. */
  ghost predicate CancellingOnly(n: Net, m: Net, p: nat, x: Block, k: nat) {
    Cancelling(n, m, p, x, k) && p in n.peers && AllRecorded(Credited(n, p, x).peers, m.peers)
  }

  /** The state in whose record p has answered the request x. */
  ghost function Credited(n: Net, p: nat, x: Block): Net
    requires p in n.peers
  {
    var past := n.peers[p].past;
    n.(peers := n.peers[p := n.peers[p].(past := past.(answered := past.answered + multiset{x}))])
  }

  ghost function GotEg(n: Net, p: nat, x: Block): Net
    requires p in n.peers && n.peers[p].Loose() && x in n.peers[p].reqs && x.piece in n.pieces && x.piece < |n.have|
  {
    n.(peers := n.peers[p := Settle(CloseRequest(n.peers[p], x))],
       have := n.have[x.piece := n.have[x.piece] + {x.block}],
       pieces := n.pieces[x.piece := n.pieces[x.piece].(ngot := n.pieces[x.piece].ngot + 1)])
  }

  lemma CancellingStart(n: Net, p: nat, x: Block)
    requires Base(n) && n.endgame && p in n.peers && x in n.peers[p].reqs
    ensures x.piece in n.pieces && x.piece < |n.have| && n.peers[p].Loose()
    ensures CancellingOnly(n, GotEg(n, p, x), p, x, 0)
  {
    FindListed(n, p, x);
    assert n.peers[p].Loose();
    RemainingEnds(n.pieces[x.piece].reqs, n.have[x.piece], x.block);
    assert Askers(n.pieces[x.piece].reqs, 0, x.block) == {};
    StartCancelled(n.peers, p, x, Settle(CloseRequest(n.peers[p], x)));
    assert {} + {p} == {p};
    CreditedRecords(n, p, x, Settle(CloseRequest(n.peers[p], x)));
  }

  lemma CreditedRecords(n: Net, p: nat, x: Block, pr: Peer)
    requires p in n.peers && n.peers[p].Loose() && x in n.peers[p].reqs
    requires SameRecord(CloseRequest(n.peers[p], x), pr)
    ensures AllRecorded(Credited(n, p, x).peers, n.peers[p := pr])
  {
  }

  lemma StartCancelled(peers: map<nat, Peer>, p: nat, x: Block, pr: Peer)
    requires AllSettled(peers) && p in peers && pr.Settled()
    requires pr.nwant == peers[p].nwant && pr.npieces == peers[p].npieces && pr.reqs == Remove(peers[p].reqs, x)
    ensures CancelledAt(peers, peers[p := pr], x, {p})
  {
  }

  /** The next request of the list, if it is another peer's for the block, can be cancelled. */
  lemma CancelReady(n: Net, m: Net, p: nat, x: Block, k: nat)
    requires Base(n) && Cancelling(n, m, p, x, k) && k < |n.pieces[x.piece].reqs|
    requires x.block !in n.have[x.piece]
    ensures m.pieces[x.piece].reqs == n.pieces[x.piece].reqs
    ensures n.pieces[x.piece].reqs[k].block == x.block ==> m.pieces[x.piece].nreqs > 0
    ensures var r := n.pieces[x.piece].reqs[k];
      r.block == x.block && r.peer != p ==>
        && r.peer in m.peers && m.peers[r.peer].Settled() && x in m.peers[r.peer].reqs
        && m.peers[r.peer] == n.peers[r.peer]
  {
    var reqs := n.pieces[x.piece].reqs;
    var r := reqs[k];
    RemainingStep(reqs, n.have[x.piece], k, x.block);
    AskersStep(reqs, k, x.block);
    if r.block == x.block {
      assert r == Req(r.peer, x.block) && r in reqs;
      assert Listed(n.pieces, n.have, r.peer, x.piece, x.block);
      assert Asks(n.peers, r.peer, x.piece, x.block);
      assert Block(x.piece, x.block) == x;
      if r.peer != p {
        Uncancelled(n.peers, m.peers, x, Askers(reqs, k, x.block) + {p}, r.peer);
      }
    }
  }

  lemma Uncancelled(peers: map<nat, Peer>, peers': map<nat, Peer>, x: Block, c: set<nat>, q: nat)
    requires CancelledAt(peers, peers', x, c) && q in peers && q !in c
    ensures q in peers' && peers'[q] == peers[q] && peers'[q].Settled()
  {
  }

  /** One more request for x has been counted down, and withdrawn unless it is p's. */
  ghost predicate CancelledOne(m: Net, l: Net, p: nat, x: Block, q: nat) {
    && x.piece in m.pieces && m.pieces[x.piece].nreqs > 0
    && l == m.(peers := l.peers,
       pieces := m.pieces[x.piece := m.pieces[x.piece].(nreqs := m.pieces[x.piece].nreqs - 1)])
    && (if q == p then l.peers == m.peers else
          && q in l.peers && q in m.peers && l.peers == m.peers[q := l.peers[q]]
          && l.peers[q].Settled() && l.peers[q].nwant == m.peers[q].nwant && SameRecord(m.peers[q], l.peers[q])
          && l.peers[q].reqs == Remove(m.peers[q].reqs, x))
  }

  lemma CancellingStep(n: Net, m: Net, l: Net, p: nat, x: Block, k: nat)
    requires Base(n) && Cancelling(n, m, p, x, k) && k < |n.pieces[x.piece].reqs|
    requires x.block !in n.have[x.piece]
    requires var r := n.pieces[x.piece].reqs[k];
      if r.block != x.block then l == m else CancelledOne(m, l, p, x, r.peer)
    ensures Cancelling(n, l, p, x, k + 1)
  {
    var reqs := n.pieces[x.piece].reqs;
    var r := reqs[k];
    RemainingStep(reqs, n.have[x.piece], k, x.block);
    AskersStep(reqs, k, x.block);
    CancelReady(n, m, p, x, k);
    if r.block == x.block {
      CancelSets(Askers(reqs, k, x.block), r.peer, p);
      if r.peer != p {
        CancelStep(n.peers, m.peers, x, Askers(reqs, k, x.block) + {p}, r.peer, l.peers[r.peer]);
      }
      PutTwice(n.pieces, x.piece, m.pieces[x.piece], l.pieces[x.piece]);
    }
  }

  lemma CancelOneRecorded(n: Net, m: Net, l: Net, p: nat, x: Block, q: nat)
    requires p in n.peers && AllRecorded(Credited(n, p, x).peers, m.peers) && CancelledOne(m, l, p, x, q)
    ensures AllRecorded(Credited(n, p, x).peers, l.peers)
  {
    if q != p {
      PutRecorded(Credited(n, p, x).peers, m.peers, q, l.peers[q]);
    }
  }

  lemma CancelSets(a: set<nat>, q: nat, p: nat)
    ensures a + {p} + {q} == a + {q} + {p}
    ensures q == p ==> a + {q} + {p} == a + {p}
  {
  }

  lemma CancelledPieceOk(pc: Piece, nblocks: nat, have: set<nat>, b: nat, nreqs: nat)
    requires PieceOk(pc, nblocks, have, true) && b !in have
    requires nreqs == |Remaining(pc.reqs, have, |pc.reqs|, b)|
    ensures PieceOk(pc.(ngot := pc.ngot + 1, nreqs := nreqs), nblocks, have + {b}, true)
  {
    RemainingEnds(pc.reqs, have, b);
    OneMore(have, b);
  }

  lemma CancelledLedger(pieces: map<nat, Piece>, have: seq<set<nat>>, peers: map<nat, Peer>, peers': map<nat, Peer>,
                        x: Block, pc: Piece, c: set<nat>)
    requires Ledger(pieces, have, peers) && x.piece in pieces && x.piece < |have|
    requires x.block !in have[x.piece] && ListedOnce(peers)
    requires pc.reqs == pieces[x.piece].reqs && CancelledAt(peers, peers', x, c)
    requires forall q :: q in c <==> Req(q, x.block) in pieces[x.piece].reqs
    ensures Ledger(pieces[x.piece := pc], have[x.piece := have[x.piece] + {x.block}], peers')
  {
    var pieces', have' := pieces[x.piece := pc], have[x.piece := have[x.piece] + {x.block}];
    forall q, j, d
      ensures Asks(peers', q, j, d) <==> Listed(pieces', have', q, j, d)
    {
      assert Asks(peers, q, j, d) <==> Listed(pieces, have, q, j, d);
      assert Block(j, d) == x <==> j == x.piece && d == x.block;
      if q in peers {
        RemoveMembers(peers[q].reqs, x);
      }
    }
  }

  /** No peer has a request twice. */
  ghost predicate ListedOnce(peers: map<nat, Peer>) {
    forall q :: q in peers ==> NoDup(peers[q].reqs)
  }

  lemma LooseOnce(peers: map<nat, Peer>)
    requires AllLoose(peers)
    ensures ListedOnce(peers)
  {
    forall q | q in peers
      ensures NoDup(peers[q].reqs)
    {
      assert peers[q].Loose();
    }
  }

  lemma CancelledHeld(order: seq<nat>, peers: map<nat, Peer>, peers': map<nat, Peer>, has: map<nat, set<nat>>,
                      x: Block, c: set<nat>, w: set<nat>)
    requires CancelledAt(peers, peers', x, c)
    ensures HeldOk(order, peers, has) ==> HeldOk(order, peers', has)
    ensures WantOk(order, peers, has, w) ==> WantOk(order, peers', has, w)
    ensures AllSettled(peers') && AllLoose(peers')
  {
  }

  /** All other requests for the block are cancelled: the lists agree again, with some entries left to be freed. */
  lemma CancelledBase(n: Net, m: Net, p: nat, x: Block)
    requires Base(n) && n.endgame && p in n.peers && x in n.peers[p].reqs && x.piece in n.pieces
    requires x.piece < |n.have|
    requires Cancelling(n, m, p, x, |n.pieces[x.piece].reqs|)
    ensures Base(m) && x.block !in n.have[x.piece]
    ensures WantOk(n.order, n.peers, n.has, n.busy) ==> WantOk(m.order, m.peers, m.has, m.busy)
  {
    FindListed(n, p, x);
    var pc := n.pieces[x.piece];
    var c := Askers(pc.reqs, |pc.reqs|, x.block);
    AskersAll(pc.reqs, x.block);
    PutBack(c, p);
    CancelledPieceOk(pc, n.nblocks[x.piece], n.have[x.piece], x.block, m.pieces[x.piece].nreqs);
    LooseOnce(n.peers);
    CancelledLedger(n.pieces, n.have, n.peers, m.peers, x, m.pieces[x.piece], c);
    CancelledHeld(n.order, n.peers, m.peers, n.has, x, c, n.busy);
    PutPieceAndBlock(n.nblocks, n.have, true, n.pieces, x.piece, m.have[x.piece], m.pieces[x.piece]);
    GotKeepsTorrent(n.nblocks, n.got, n.ngot, n.have, x.piece, x.block);
  }

  /** Peers that still wait to be asked for something else in return. */
  ghost function Waiting(reqs: seq<Req>, k: nat, b: nat): set<nat>
    requires k <= |reqs|
  {
    set r | r in reqs[k..] && r.block == b :: r.peer
  }

  lemma WaitingStep(reqs: seq<Req>, k: nat, b: nat)
    requires k < |reqs|
    ensures reqs[k].block != b ==> Waiting(reqs, k + 1, b) == Waiting(reqs, k, b)
    ensures reqs[k].block == b ==> Waiting(reqs, k, b) == Waiting(reqs, k + 1, b) + {reqs[k].peer}
  {
    assert reqs[k..] == [reqs[k]] + reqs[k + 1..];
    assert forall r :: r in reqs[k..] <==> r == reqs[k] || r in reqs[k + 1..];
    if reqs[k].block == b {
      assert reqs[k] in reqs[k..];
      forall q
        ensures q in Waiting(reqs, k, b) <==> q in Waiting(reqs, k + 1, b) + {reqs[k].peer}
      {
      }
    }
  }

  lemma WaitingEnds(reqs: seq<Req>, b: nat)
    ensures forall q :: q in Waiting(reqs, 0, b) <==> Req(q, b) in reqs
    ensures Waiting(reqs, |reqs|, b) == {}
  {
    assert reqs[0..] == reqs;
    forall q
      ensures q in Waiting(reqs, 0, b) <==> Req(q, b) in reqs
    {
      if Req(q, b) in reqs {
        assert Req(q, b).peer == q;
      }
    }
  }

  /** Requests for stored blocks are left only in piece i, for block b, among reqs[k..]. */
  ghost predicate StaleFrom(pieces: map<nat, Piece>, have: seq<set<nat>>, i: nat, b: nat, reqs: seq<Req>, k: nat)
    requires k <= |reqs|
  {
    && (forall j :: j in pieces && j != i ==> j < |have| && LiveOnly(pieces[j].reqs, have[j]))
    && i in pieces && i < |have|
    && (forall r :: r in pieces[i].reqs && r.block in have[i] ==> r.block == b && r in reqs[k..])
  }

  /** The second loop of dl_on_block in end game, k requests on. */
  ghost predicate Reassigning(m: Net, i: nat, b: nat, reqs: seq<Req>, k: nat) {
    && SteadyEg(m) && Outer(m) && k <= |reqs|
    && UnfinishedBut(m.nblocks, m.got, m.have, i)
    && StaleFrom(m.pieces, m.have, i, b, reqs, k)
    && b in m.have[i]
    && (forall r :: r in reqs && r.block == b ==> r.peer in m.order)
    && Caps(m, Waiting(reqs, k, b))
  }

  lemma StaleStart(n: Net, m: Net, i: nat, b: nat)
    requires AllLive(n.pieces, n.have) && i in n.pieces && i < |n.have| && i in m.pieces
    requires m.pieces == n.pieces[i := m.pieces[i]] && m.pieces[i].reqs == n.pieces[i].reqs
    requires m.have == n.have[i := n.have[i] + {b}]
    ensures StaleFrom(m.pieces, m.have, i, b, n.pieces[i].reqs, 0)
  {
    var reqs := n.pieces[i].reqs;
    assert reqs[0..] == reqs;
    assert LiveOnly(reqs, n.have[i]);
    forall j | j in m.pieces && j != i
      ensures j < |m.have| && LiveOnly(m.pieces[j].reqs, m.have[j])
    {
      assert LiveOnly(n.pieces[j].reqs, n.have[j]);
    }
  }

  lemma CancelledOuter(n: Net, m: Net, x: Block, c: set<nat>)
    requires Outer(n) && CancelledAt(n.peers, m.peers, x, c)
    requires m.order == n.order && m.chokes == n.chokes && m.count == n.count && m.has == n.has
    requires forall q :: q in c ==> q !in n.chokes
    ensures Outer(m)
  {
  }

  lemma CancelledCaps(n: Net, m: Net, x: Block, c: set<nat>)
    requires n.endgame && Caps(n, {}) && CancelledAt(n.peers, m.peers, x, c) && x.piece < |n.have|
    requires m == n.(peers := m.peers, have := n.have[x.piece := n.have[x.piece] + {x.block}], pieces := m.pieces,
      getlst := m.getlst)
    requires m.pieces.Keys == n.pieces.Keys
    ensures Caps(m, c)
  {
    forall q | q in m.order && q !in c
      ensures Cap(m, q)
    {
      assert Cap(n, q);
      if q !in n.chokes && AllRequested(n, q) {
        forall j | j in m.pieces && q in m.has && j in m.has[q] && j < |m.nblocks| && j < |m.have|
          ensures AllRequestedOf(m.peers, q, j, m.nblocks[j], m.have[j])
        {
          assert j in n.pieces && AllRequestedOf(n.peers, q, j, n.nblocks[j], n.have[j]);
          forall b: nat | b < m.nblocks[j] && b !in m.have[j]
            ensures Asks(m.peers, q, j, b)
          {
            assert Asks(n.peers, q, j, b);
          }
        }
      }
    }
  }

  /** The piece that got a block is taken out of getlst before it is put back in order. */
  lemma ReorderReady(n: Net, m: Net, i: nat)
    requires Sorted(n) && Linked(n.getlst, n.busy) && i in n.pieces && i in m.pieces && i in n.busy && i < |n.nblocks|
    requires m.pieces == n.pieces[i := m.pieces[i]] && m.nblocks == n.nblocks && m.getlst == n.getlst &&
      m.busy == n.busy
    ensures var l := m.(getlst := Remove(m.getlst, i));
      Sorted(l) && NoDup(l.getlst) && i !in l.getlst && Elems(l.getlst) + {i} == m.busy
  {
    var lst := Remove(n.getlst, i);
    assert i in Elems(n.getlst);
    var k :| 0 <= k < |n.getlst| && n.getlst[k] == i;
    RemoveAt(n.getlst, k);
    RemoveMembers(n.getlst, i);
    RemoveElems(n.getlst, i);
    PutBack(n.busy, i);
    RankedCut(n.getlst, k, Ranks(n.pieces, n.nblocks));
    RankedSame(lst, Ranks(n.pieces, n.nblocks), Ranks(m.pieces, m.nblocks));
  }

  lemma AskersUnchoked(n: Net, i: nat, b: nat, c: set<nat>)
    requires Core(n) && Outer(n) && i in n.pieces && i < |n.have| && b !in n.have[i]
    requires forall q :: q in c ==> Req(q, b) in n.pieces[i].reqs
    ensures forall q :: q in c ==> q in n.order && q !in n.chokes
  {
    forall q | q in c
      ensures q in n.order && q !in n.chokes
    {
      assert Listed(n.pieces, n.have, q, i, b);
      assert Asks(n.peers, q, i, b);
      assert q in Elems(n.order);
    }
  }

  /** After the cancellations and the reordering the second loop can begin. */
  lemma ReassignStart(n: Net, m: Net, l: Net, p: nat, x: Block)
    requires Inv(n) && n.endgame && p in n.order && p in n.peers && x in n.peers[p].reqs && x.piece in n.pieces &&
      x.piece < |n.have|
    requires Cancelling(n, m, p, x, |n.pieces[x.piece].reqs|)
    requires Base(m) && WantOk(m.order, m.peers, m.has, m.busy) && x.block !in n.have[x.piece]
    requires l == m.(getlst := l.getlst) && Sorted(l) && Linked(l.getlst, l.busy)
    ensures Reassigning(l, x.piece, x.block, n.pieces[x.piece].reqs, 0)
  {
    var reqs := n.pieces[x.piece].reqs;
    AskersOf(n, p, x);
    CancelledRest(n, m, l, p, x, Askers(reqs, |reqs|, x.block));
    WaitingAll(reqs, x.block);
    RelinkKeepsBase(m, l.getlst);
    StaleStart(n, l, x.piece, x.block);
    GotUnfinished(n.nblocks, n.got, n.have, x.piece, l.have[x.piece]);
  }

  lemma WaitingAll(reqs: seq<Req>, b: nat)
    ensures Waiting(reqs, 0, b) == Askers(reqs, |reqs|, b)
  {
    assert reqs[0..] == reqs[..|reqs|];
  }

  lemma CancelledRest(n: Net, m: Net, l: Net, p: nat, x: Block, c: set<nat>)
    requires Outer(n) && Caps(n, {}) && n.endgame && x.piece in n.pieces && x.piece < |n.have|
    requires Cancelling(n, m, p, x, |n.pieces[x.piece].reqs|) && l == m.(getlst := l.getlst)
    requires c == Askers(n.pieces[x.piece].reqs, |n.pieces[x.piece].reqs|, x.block) && c + {p} == c
    requires forall q :: q in c ==> q !in n.chokes
    ensures Outer(l) && Caps(l, c)
  {
    CancelledOuter(n, l, x, c);
    CancelledCaps(n, l, x, c);
  }

  /** The peers asked for the block are attached, do not choke us, and p is one of them. */
  lemma AskersOf(n: Net, p: nat, x: Block)
    requires Core(n) && Outer(n) && p in n.peers && x in n.peers[p].reqs && x.piece in n.pieces && x.piece < |n.have|
    ensures var reqs := n.pieces[x.piece].reqs; var c := Askers(reqs, |reqs|, x.block);
      && c + {p} == c
      && (forall q :: q in c ==> q in n.order && q !in n.chokes)
      && (forall r :: r in reqs && r.block == x.block ==> r.peer in n.order)
  {
    var reqs := n.pieces[x.piece].reqs;
    var c := Askers(reqs, |reqs|, x.block);
    FindListed(n, p, x);
    AskersAll(reqs, x.block);
    PutBack(c, p);
    AskersUnchoked(n, x.piece, x.block, c);
    forall r | r in reqs && r.block == x.block
      ensures r.peer in n.order
    {
      assert Req(r.peer, x.block) == r;
      assert r.peer in c;
    }
  }

  // ---------- A block in end game: freed peers are asked for something else ----------

  ghost function Freed(n: Net, i: nat, r: Req): Net
    requires i in n.pieces
  {
    n.(pieces := n.pieces[i := n.pieces[i].(reqs := Remove(n.pieces[i].reqs, r))])
  }

  lemma FreedPieceOk(pc: Piece, nblocks: nat, have: set<nat>, r: Req)
    requires PieceOk(pc, nblocks, have, true) && r.block in have
    ensures PieceOk(pc.(reqs := Remove(pc.reqs, r)), nblocks, have, true)
  {
    RemoveMembers(pc.reqs, r);
    assert Live(Remove(pc.reqs, r), have) == Live(pc.reqs, have);
  }

  lemma FreedLedger(pieces: map<nat, Piece>, have: seq<set<nat>>, peers: map<nat, Peer>, i: nat, r: Req, pc: Piece)
    requires Ledger(pieces, have, peers) && i in pieces && i < |have| && r.block in have[i] && NoDup(pieces[i].reqs)
    requires pc.reqs == Remove(pieces[i].reqs, r)
    ensures Ledger(pieces[i := pc], have, peers)
  {
    RemoveMembers(pieces[i].reqs, r);
    var pieces' := pieces[i := pc];
    forall q, j, c
      ensures Asks(peers, q, j, c) <==> Listed(pieces', have, q, j, c)
    {
      assert Asks(peers, q, j, c) <==> Listed(pieces, have, q, j, c);
    }
  }

  lemma FreedBase(n: Net, i: nat, r: Req)
    requires Base(n) && n.endgame && i in n.pieces && i < |n.have| && i < |n.nblocks| && r.block in n.have[i]
    ensures Base(Freed(n, i, r))
  {
    assert PieceOk(n.pieces[i], n.nblocks[i], n.have[i], true);
    FreedPieceOk(n.pieces[i], n.nblocks[i], n.have[i], r);
    FreedLedger(n.pieces, n.have, n.peers, i, r, Freed(n, i, r).pieces[i]);
    PutPiece(n.nblocks, n.have, true, n.pieces, i, Freed(n, i, r).pieces[i]);
  }

  lemma FreedSteadyEg(n: Net, i: nat, r: Req)
    requires SteadyEg(n) && i in n.pieces && i < |n.have| && i < |n.nblocks| && r.block in n.have[i]
    ensures SteadyEg(Freed(n, i, r))
  {
    FreedBase(n, i, r);
    FreedSorted(n, i, r);
  }

  lemma FreedSorted(n: Net, i: nat, r: Req)
    requires Sorted(n) && i in n.pieces
    ensures Sorted(Freed(n, i, r))
  {
    RankedSame(n.getlst, Ranks(n.pieces, n.nblocks), Ranks(Freed(n, i, r).pieces, n.nblocks));
  }

  lemma FreedCaps(n: Net, i: nat, r: Req, x: set<nat>)
    requires n.endgame && i in n.pieces && Caps(n, x)
    ensures Caps(Freed(n, i, r), x)
  {
    var m := Freed(n, i, r);
    forall q | q in m.order && q !in x
      ensures Cap(m, q)
    {
      assert Cap(n, q);
      if q !in n.chokes && AllRequested(n, q) {
        forall j | j in m.pieces && q in m.has && j in m.has[q] && j < |m.nblocks| && j < |m.have|
          ensures AllRequestedOf(m.peers, q, j, m.nblocks[j], m.have[j])
        {
          assert AllRequestedOf(n.peers, q, j, n.nblocks[j], n.have[j]);
        }
      }
    }
  }

  lemma FreedStale(pieces: map<nat, Piece>, have: seq<set<nat>>, i: nat, b: nat, reqs: seq<Req>, k: nat, pc: Piece)
    requires k < |reqs| && StaleFrom(pieces, have, i, b, reqs, k) && NoDup(pieces[i].reqs)
    requires pc.reqs == Remove(pieces[i].reqs, reqs[k])
    ensures StaleFrom(pieces[i := pc], have, i, b, reqs, k + 1)
  {
    RemoveMembers(pieces[i].reqs, reqs[k]);
    assert reqs[k..] == [reqs[k]] + reqs[k + 1..];
    var pieces' := pieces[i := pc];
    forall r | r in pieces'[i].reqs && r.block in have[i]
      ensures r.block == b && r in reqs[k + 1..]
    {
      assert r in reqs[k..] && r != reqs[k];
    }
  }

  lemma SkipStale(pieces: map<nat, Piece>, have: seq<set<nat>>, i: nat, b: nat, reqs: seq<Req>, k: nat)
    requires k < |reqs| && StaleFrom(pieces, have, i, b, reqs, k) && reqs[k].block != b
    ensures StaleFrom(pieces, have, i, b, reqs, k + 1)
  {
    assert reqs[k..] == [reqs[k]] + reqs[k + 1..];
  }

  lemma GrewStale(pieces: map<nat, Piece>, pieces': map<nat, Piece>, have: seq<set<nat>>, i: nat, b: nat,
                  reqs: seq<Req>, k: nat)
    requires k <= |reqs| && StaleFrom(pieces, have, i, b, reqs, k) && GrewPieces(pieces, pieces', have)
    ensures StaleFrom(pieces', have, i, b, reqs, k)
  {
    assert GrewPiece(pieces[i], pieces'[i], have[i]);
    forall j | j in pieces' && j != i
      ensures j < |have| && LiveOnly(pieces'[j].reqs, have[j])
    {
      assert GrewPiece(pieces[j], pieces'[j], have[j]) && LiveOnly(pieces[j].reqs, have[j]);
    }
  }

  /** A request for another block is passed over. */
  lemma ReassignSkip(m: Net, i: nat, b: nat, reqs: seq<Req>, k: nat)
    requires Reassigning(m, i, b, reqs, k) && k < |reqs| && reqs[k].block != b
    ensures Reassigning(m, i, b, reqs, k + 1)
  {
    WaitingStep(reqs, k, b);
    SkipStale(m.pieces, m.have, i, b, reqs, k);
  }

  /** A request for the block is freed; its peer is the one that may be idle now. */
  lemma ReassignFree(m: Net, i: nat, b: nat, reqs: seq<Req>, k: nat)
    requires Reassigning(m, i, b, reqs, k) && k < |reqs| && reqs[k].block == b
    ensures reqs[k].peer in m.order
    ensures ReassigningBut(Freed(m, i, reqs[k]), i, b, reqs, k + 1, reqs[k].peer)
  {
    assert reqs[k] in reqs;
    WaitingStep(reqs, k, b);
    assert PieceOk(m.pieces[i], m.nblocks[i], m.have[i], true);
    FreedSteadyEg(m, i, reqs[k]);
    FreedCaps(m, i, reqs[k], Waiting(reqs, k, b));
    FreedStale(m.pieces, m.have, i, b, reqs, k, Freed(m, i, reqs[k]).pieces[i]);
  }

  /** As Reassigning, with p still to be dealt with. */
  ghost predicate ReassigningBut(m: Net, i: nat, b: nat, reqs: seq<Req>, k: nat, p: nat) {
    && SteadyEg(m) && Outer(m) && k <= |reqs|
    && UnfinishedBut(m.nblocks, m.got, m.have, i)
    && StaleFrom(m.pieces, m.have, i, b, reqs, k)
    && b in m.have[i]
    && (forall r :: r in reqs && r.block == b ==> r.peer in m.order)
    && Caps(m, Waiting(reqs, k, b) + {p})
  }

  lemma EgCap(n: Net, p: nat)
    requires SteadyEg(n) && p in n.order && p in n.peers && !LeechOk(n, p)
    ensures Cap(n, p)
  {
    if p !in n.chokes && !n.peers[p].Laden() {
      assert n.peers[p].Loose() && n.peers[p].nwant == 0;
      UnwantedIsBusy(n, p);
    }
  }

  lemma ReassignPass(m: Net, i: nat, b: nat, reqs: seq<Req>, k: nat, p: nat)
    requires ReassigningBut(m, i, b, reqs, k, p) && p in m.order && p in m.peers && !LeechOk(m, p)
    ensures Reassigning(m, i, b, reqs, k)
  {
    EgCap(m, p);
    CapsPut(m, Waiting(reqs, k, b), p);
  }

  lemma CapsPut(m: Net, x: set<nat>, p: nat)
    requires Caps(m, x + {p}) && Cap(m, p)
    ensures Caps(m, x)
  {
  }

  lemma ReassignAsk(m: Net, l: Net, i: nat, b: nat, reqs: seq<Req>, k: nat, p: nat)
    requires ReassigningBut(m, i, b, reqs, k, p) && p in m.order && LeechOk(m, p)
    requires AskedAll(m, l, p) && Base(l) && Linked(l.getlst, l.busy) && Sorted(l)
    requires l.peers[p].Laden() || AllRequested(l, p)
    ensures Reassigning(l, i, b, reqs, k)
  {
    AskedKeeps(m, l, p, Waiting(reqs, k, b));
    GrewStale(m.pieces, l.pieces, m.have, i, b, reqs, k);
  }

  /** dl_assign_requests_eg for one peer, on a state with entries left to be freed. */
  lemma AskedKeeps(n: Net, m: Net, p: nat, x: set<nat>)
    requires SteadyEg(n) && Outer(n) && Caps(n, x + {p}) && p in n.order && p !in n.chokes
    requires AskedAll(n, m, p) && Base(m) && Linked(m.getlst, m.busy) && Sorted(m)
    requires m.peers[p].Laden() || AllRequested(m, p)
    ensures SteadyEg(m) && Outer(m) && Caps(m, x)
  {
    GrewRefl(n);
    OnePeerGrows(n, n, m, p);
    GrewKeepsOuter(n, m);
    WantPut(n.order, n.peers, n.has, n.busy, p, m.peers[p]);
    AssignedEgCaps(n, m, p, x);
  }

  /** All freed peers have been dealt with; what is left is to test the piece if it is complete. */
  ghost predicate UntestedEg(m: Net, i: nat) {
    && SteadyEg(m) && AllLive(m.pieces, m.have) && Outer(m) && Caps(m, {})
    && UnfinishedBut(m.nblocks, m.got, m.have, i) && i in m.pieces && i < |m.nblocks|
  }

  lemma ReassignEnd(m: Net, i: nat, b: nat, reqs: seq<Req>)
    requires Reassigning(m, i, b, reqs, |reqs|)
    ensures UntestedEg(m, i)
  {
    WaitingEnds(reqs, b);
    forall j | j in m.pieces
      ensures j < |m.have| && LiveOnly(m.pieces[j].reqs, m.have[j])
    {
    }
  }

  lemma IncompleteEg(m: Net, i: nat)
    requires UntestedEg(m, i) && m.pieces[i].ngot != m.nblocks[i]
    ensures Inv(m)
  {
    assert PieceOk(m.pieces[i], m.nblocks[i], m.have[i], true);
    SubsetCard(m.have[i], Range(m.nblocks[i]));
  }

  /** In end game a verified piece leaves, and with it every peer's interest in it. */
  lemma TestedEg(n: Net, m: Net, i: nat)
    requires UntestedEg(n, i) && n.pieces[i].ngot == n.nblocks[i]
    requires Base(m) && m == n.(peers := m.peers) && SameReqs(n.peers, m.peers)
    requires WantOk(m.order, m.peers, m.has, m.busy - {i})
    ensures n.nbusy > 0 && Inv(Completed(m, i))
  {
    var l := m.(peers := m.peers);
    CompleteIsUnasked(m, i);
    CompleteKeepsBase(m, i);
    CompletedSorted(m, i);
    CompletedAll(n, i);
    CompletedLive(m, i);
    SameReqsOuter(n, m);
    CompletedCapsEg(n, m, i);
  }

  lemma CompletedAll(n: Net, i: nat)
    requires Core(n) && n.got + n.busy == Range(|n.nblocks|) && i in n.busy
    ensures (n.got + {i}) + (n.busy - {i}) == Range(|n.nblocks|)
  {
  }

  lemma CompletedLive(n: Net, i: nat)
    requires AllLive(n.pieces, n.have) && n.nbusy > 0
    ensures AllLive(Completed(n, i).pieces, n.have)
  {
  }

  lemma CompletedSorted(n: Net, i: nat)
    requires Sorted(n) && Linked(n.getlst, n.busy) && i in n.busy && n.nbusy > 0
    ensures Sorted(Completed(n, i))
  {
    var m := Completed(n, i);
    assert i in Elems(n.getlst);
    var k :| 0 <= k < |n.getlst| && n.getlst[k] == i;
    RemoveAt(n.getlst, k);
    RemoveMembers(n.getlst, i);
    RankedCut(n.getlst, k, Ranks(n.pieces, n.nblocks));
    RankedSame(m.getlst, Ranks(n.pieces, n.nblocks), Ranks(m.pieces, m.nblocks));
  }

  lemma CompletedCapsEg(n: Net, m: Net, i: nat)
    requires n.endgame && Caps(n, {}) && m == n.(peers := m.peers) && SameReqs(n.peers, m.peers) && n.nbusy > 0
    requires AllLoose(n.peers) && AllLoose(m.peers)
    ensures Caps(Completed(m, i), {})
  {
    var l := Completed(m, i);
    forall q | q in l.order
      ensures Cap(l, q)
    {
      assert Cap(n, q);
      if q in n.peers && n.peers[q].Laden() {
        assert n.peers[q].Loose() && m.peers[q].Loose();
      } else if q !in n.chokes {
        forall j | j in l.pieces && q in l.has && j in l.has[q] && j < |l.nblocks| && j < |l.have|
          ensures AllRequestedOf(l.peers, q, j, l.nblocks[j], l.have[j])
        {
          assert AllRequestedOf(n.peers, q, j, n.nblocks[j], n.have[j]);
          forall b: nat | b < l.nblocks[j] && b !in l.have[j]
            ensures Asks(l.peers, q, j, b)
          {
            assert Asks(n.peers, q, j, b);
          }
        }
      }
    }
  }

  /** What the have messages for a verified piece leave alone. */
  lemma AnnouncedSame(n: Net, m: Net, w: set<nat>)
    requires Base(n) && m == n.(peers := m.peers) && AllRequeued(n.peers, m.peers)
    ensures Base(m) && SameReqs(n.peers, m.peers)
    ensures WantOk(n.order, n.peers, n.has, w) ==> WantOk(m.order, m.peers, m.has, w)
  {
    SameReqsLedger(n.pieces, n.have, n.peers, m.peers);
  }

  ghost predicate AllRequeued(peers: map<nat, Peer>, peers': map<nat, Peer>) {
    peers'.Keys == peers.Keys && forall q :: q in peers ==> q in peers' && Requeued(peers[q], peers'[q])
  }

  /** The peer lacks the piece, as far as we know. */
  ghost predicate Lacks(n: Net, q: nat, i: nat) {
    q in n.has && i !in n.has[q]
  }

  /** The first k attached peers have been told that we have piece i, if they lack it, and once. */
  ghost predicate HaveTold(n: Net, peers': map<nat, Peer>, i: nat, k: nat)
    requires k <= |n.order|
  {
    && peers'.Keys == n.peers.Keys
    && forall q :: q in n.peers ==>
         q in peers' && peers'[q] == if q in n.order[..k] && Lacks(n, q, i) then SendNoted(n.peers[q], Have(i))
           else n.peers[q]
  }

  lemma ToldNext(n: Net, peers': map<nat, Peer>, i: nat, k: nat)
    requires NoDup(n.order) && k < |n.order| && HaveTold(n, peers', i, k)
    requires n.order[k] in n.peers && n.order[k] in n.has
    ensures var q := n.order[k];
      HaveTold(n, if Lacks(n, q, i) then peers'[q := SendNoted(peers'[q], Have(i))] else peers', i, k + 1)
  {
    TakeNext(n.order, k);
    assert n.order[k] !in n.order[..k];
  }

  lemma ToldRequeued(n: Net, peers': map<nat, Peer>, i: nat)
    requires Base(n) && HaveTold(n, peers', i, |n.order|)
    ensures AllRequeued(n.peers, peers')
  {
    forall q | q in n.peers
      ensures q in peers' && Requeued(n.peers[q], peers'[q])
    {
      SendRequeues(n.peers[q], Have(i));
    }
  }

  lemma AnnouncedUntested(n: Net, m: Net, i: nat, p: nat)
    requires Untested(n, i, p) && m == n.(peers := m.peers) && AllRequeued(n.peers, m.peers)
    ensures Untested(m, i, p)
  {
    WantSetStays(n, m);
    AnnouncedSame(n, m, WantSet(n));
    SameReqsOuter(n, m);
    AnnouncedCaps(n, m, p);
  }

  /** Capacity depends on the requests and on what is wanted. */
  lemma AnnouncedCaps(n: Net, m: Net, p: nat)
    requires !n.endgame && Caps(n, {p}) && m == n.(peers := m.peers) && AllRequeued(n.peers, m.peers)
    requires WantSet(m) == WantSet(n)
    ensures Caps(m, {p})
  {
    forall q | q in m.order && q != p
      ensures Cap(m, q)
    {
      assert Cap(n, q);
    }
  }

  // ---------- The whole event ----------

  /** Requests other than x are kept by all peers, and nothing else about the peers' standing changes. */
  ghost predicate KeptBut(n: Net, m: Net, x: Block) {
    && m.nblocks == n.nblocks && m.order == n.order && m.has == n.has && m.chokes == n.chokes && m.count == n.count
    && m.peers.Keys == n.peers.Keys && (n.endgame ==> m.endgame)
    && (forall q, y :: q in n.peers && y in n.peers[q].reqs && y != x ==> q in m.peers && y in m.peers[q].reqs)
    && AllRecorded(n.peers, m.peers)
  }

  /** The state in whose records each attached peer that lacks piece i has been told that we have it. */
  ghost function HaveNoted(n: Net, i: nat): Net {
    n.(peers := map q | q in n.peers ::
      if q in n.order && Lacks(n, q, i) then
        n.peers[q].(past := n.peers[q].past.(haves := n.peers[q].past.haves + multiset{i}))
      else n.peers[q])
  }

  /** The state in whose records p has answered x, and the peers know of the piece if x completes it. */
  ghost function Answered(n: Net, p: nat, x: Block): Net
    requires p in n.peers && x.piece < |n.have| && x.piece < |n.nblocks|
  {
    if |n.have[x.piece]| + 1 == n.nblocks[x.piece] then HaveNoted(Credited(n, p, x), x.piece) else Credited(n, p, x)
  }

  lemma HaveNotedKept(n: Net, m: Net, i: nat, x: Block)
    requires KeptBut(n, m, x)
    ensures KeptBut(HaveNoted(n, i), HaveNoted(m, i), x)
  {
    forall q, y | q in n.peers && y in n.peers[q].reqs && y != x
      ensures q in m.peers && y in HaveNoted(m, i).peers[q].reqs
    {
    }
  }

  /** Telling the peers, and what follows, does to the records what is said. */
  lemma ToldKept(n: Net, told: map<nat, Peer>, m: Net, i: nat, x: Block)
    requires HaveTold(n, told, i, |n.order|) && n.nbusy > 0
    requires SameReqs(told, m.peers) && AllRecorded(told, m.peers) && m == n.(peers := m.peers)
    ensures KeptBut(HaveNoted(n, i), Completed(m, i), x)
  {
    TakeAll(n.order);
    ToldRecorded(n, told, i);
    AllRecordedTransitive(HaveNoted(n, i).peers, told, m.peers);
    ToldRequests(n, told, m.peers, i);
    var h := HaveNoted(n, i);
    assert h.peers.Keys == n.peers.Keys;
    NothingClosed(h, Completed(m, i), x);
  }

  lemma ToldRecorded(n: Net, told: map<nat, Peer>, i: nat)
    requires HaveTold(n, told, i, |n.order|) && n.order[..|n.order|] == n.order
    ensures AllRecorded(HaveNoted(n, i).peers, told)
  {
  }

  lemma ToldRequests(n: Net, told: map<nat, Peer>, peers: map<nat, Peer>, i: nat)
    requires HaveTold(n, told, i, |n.order|) && SameReqs(told, peers)
    ensures peers.Keys == n.peers.Keys
    ensures forall q :: q in n.peers ==> q in peers && peers[q].reqs == HaveNoted(n, i).peers[q].reqs
  {
  }

  lemma NothingClosed(n: Net, m: Net, x: Block)
    requires m.nblocks == n.nblocks && m.order == n.order && m.has == n.has && m.chokes == n.chokes
    requires m.count == n.count && m.peers.Keys == n.peers.Keys && (n.endgame ==> m.endgame)
    requires AllRecorded(n.peers, m.peers)
    requires forall q :: q in n.peers ==> q in m.peers && m.peers[q].reqs == n.peers[q].reqs
    ensures KeptBut(n, m, x)
  {
  }

  lemma KeptButTransitive(n: Net, m: Net, l: Net, x: Block)
    requires KeptBut(n, m, x) && KeptBut(m, l, x)
    ensures KeptBut(n, l, x)
  {
  }

  /** Only requests were asked anew. */
  ghost predicate FreeingOnly(n: Net, m: Net, x: Block) {
    KeptBut(n, m, x) && m.have == n.have && m.got == n.got
  }

  lemma FreeingRefl(n: Net, x: Block)
    ensures FreeingOnly(n, n, x)
  {
  }

  lemma FreeingTransitive(n: Net, m: Net, l: Net, x: Block)
    requires FreeingOnly(n, m, x) && FreeingOnly(m, l, x)
    ensures FreeingOnly(n, l, x)
  {
    KeptButTransitive(n, m, l, x);
  }

  lemma GrewKept(n: Net, m: Net, x: Block)
    requires Grew(n, m)
    ensures KeptBut(n, m, x)
  {
    forall q, y | q in n.peers && y in n.peers[q].reqs
      ensures q in m.peers && y in m.peers[q].reqs
    {
      assert n.peers[q].reqs <= m.peers[q].reqs;
    }
  }

  lemma GotKept(n: Net, p: nat, x: Block)
    requires p in n.peers && n.peers[p].Loose() && x in n.peers[p].reqs && x.piece in n.pieces && x.piece < |n.have|
    requires n.pieces[x.piece].nreqs > 0 && n.pieces[x.piece].nbusy > 0
    ensures KeptBut(Credited(n, p, x), Got(n, p, x), x)
  {
    RemoveMembers(n.peers[p].reqs, x);
    assert Got(n, p, x).peers.Keys == n.peers.Keys;
    CreditedRecords(n, p, x, Settle(CloseRequest(n.peers[p], x)));
  }

  lemma CancelledReqs(peers: map<nat, Peer>, peers': map<nat, Peer>, x: Block, c: set<nat>)
    requires CancelledAt(peers, peers', x, c) && ListedOnce(peers)
    ensures forall q, y :: q in peers && y in peers[q].reqs && y != x ==> q in peers' && y in peers'[q].reqs
  {
    forall q, y | q in peers && y in peers[q].reqs && y != x
      ensures q in peers' && y in peers'[q].reqs
    {
      RemoveMembers(peers[q].reqs, x);
    }
  }

  lemma CancelledKept(n: Net, m: Net, p: nat, x: Block, c: set<nat>)
    requires CancelledAt(n.peers, m.peers, x, c)
    requires forall q, y :: q in n.peers && y in n.peers[q].reqs && y != x ==> q in m.peers && y in m.peers[q].reqs
    requires p in n.peers && AllRecorded(Credited(n, p, x).peers, m.peers)
    requires m.nblocks == n.nblocks && m.order == n.order && m.has == n.has && m.chokes == n.chokes &&
      m.count == n.count
    requires m.endgame == n.endgame
    ensures KeptBut(Credited(n, p, x), m, x)
  {
    assert Credited(n, p, x).peers.Keys == n.peers.Keys;
  }

  lemma FreedKept(n: Net, i: nat, r: Req, x: Block)
    requires i in n.pieces
    ensures FreeingOnly(n, Freed(n, i, r), x)
  {
  }

  lemma AskedKept(n: Net, m: Net, p: nat, x: Block)
    requires OnePeer(n, m, p)
    ensures FreeingOnly(n, m, x)
  {
    assert m.peers.Keys == n.peers.Keys;
  }

  /** The block is stored, and the piece verified exactly when it was the last one missing. */
  ghost predicate Stored(n: Net, m: Net, x: Block) {
    && x.piece < |n.have| && x.piece < |n.nblocks| && x.block !in n.have[x.piece] && x.piece !in n.got
    && m.have == n.have[x.piece := n.have[x.piece] + {x.block}]
    && m.got == if |n.have[x.piece]| + 1 == n.nblocks[x.piece] then n.got + {x.piece} else n.got
  }

  lemma TestedStored(n: Net, t: Net, m: Net, p: nat, x: Block)
    requires Base(n) && p in n.peers && n.peers[p].Loose() && x in n.peers[p].reqs && x.piece in n.pieces &&
      x.piece < |n.have|
    requires x.piece < |n.nblocks| && x.block !in n.have[x.piece] && x.piece in n.busy
    requires n.pieces[x.piece].nreqs > 0 && n.pieces[x.piece].nbusy > 0
    requires t == Got(n, p, x) && KeptBut(Credited(n, p, x), t, x)
    requires if t.pieces[x.piece].ngot == t.nblocks[x.piece]
      then t.nbusy > 0 && HaveTold(t, m.peers, x.piece, |t.order|) && m == Completed(t.(peers := m.peers), x.piece)
      else m == t
    ensures Stored(n, m, x) && KeptBut(Answered(n, p, x), m, x)
  {
    assert PieceOk(n.pieces[x.piece], n.nblocks[x.piece], n.have[x.piece], n.endgame);
    if t.pieces[x.piece].ngot == t.nblocks[x.piece] {
      SameToo(m.peers);
      ToldKept(t, m.peers, t.(peers := m.peers), x.piece, x);
      HaveNotedKept(Credited(n, p, x), t, x.piece, x);
      KeptButTransitive(Answered(n, p, x), HaveNoted(t, x.piece), m, x);
    }
  }

  lemma SameToo(peers: map<nat, Peer>)
    ensures SameReqs(peers, peers) && AllRecorded(peers, peers)
  {
  }

  lemma CancelledKeptEg(n: Net, m: Net, l: Net, p: nat, x: Block)
    requires Core(n) && x.piece in n.pieces && x.piece < |n.have|
    requires CancellingOnly(n, m, p, x, |n.pieces[x.piece].reqs|) && l == m.(getlst := l.getlst)
    ensures KeptBut(Credited(n, p, x), l, x)
    ensures l.got == n.got && l.have == n.have[x.piece := n.have[x.piece] + {x.block}]
    ensures x.piece in l.pieces && l.pieces[x.piece].reqs == n.pieces[x.piece].reqs
  {
    LooseOnce(n.peers);
    CancelledReqs(n.peers, l.peers, x, Askers(n.pieces[x.piece].reqs, |n.pieces[x.piece].reqs|, x.block) + {p});
    CancelledKept(n, l, p, x, Askers(n.pieces[x.piece].reqs, |n.pieces[x.piece].reqs|, x.block) + {p});
  }

  /** What an event has done; one that cannot happen has changed nothing. */
  ghost predicate Effect(n: Net, m: Net, e: Event) {
    match e
    case NewPeer(p) =>
      if p in n.peers then m == n
      else m == n.(order := [p] + n.order, peers := n.peers[p := FRESH_PEER], has := n.has[p := {}],
                   chokes := n.chokes + {p})
    case LostPeer(p) => if p !in n.order then m == n else WithoutPeer(n, m, p)
    case GotHave(p, i) =>
      if p !in n.order || |n.nblocks| <= i || (p in n.has && i in n.has[p]) then m == n
      else p in n.has && p in n.peers && i < |n.count| && Grew(Shown(n, p, i), m)
    case GotBitfield(p, field) =>
      if p in n.order && p in n.chokes && p in n.has && n.has[p] == {} && Bounded(field, |n.nblocks|) then
        m.has == n.has[p := field] && m.order == n.order && m.chokes == n.chokes && KeptRequests(n.peers, m.peers)
      else m == n
    case GotChoke(p) => if p !in n.order || p in n.chokes then m == n else ChokedBy(n, m, p)
    case GotUnchoke(p) => if p !in n.order then m == n else UnchokedBy(n, m, p)
    case GotPiece(p, x) =>
      if p in n.order && p in n.peers && x in n.peers[p].reqs then
        Stored(n, m, x) && KeptBut(Answered(n, p, x), m, x)
      else m == n
    case Wrote(p, k, part) =>
      if p in n.order && p in n.peers && k <= |n.peers[p].outq| then WrittenTo(n, m, p, k, part) else m == n
    case SentOther(p) => if p in n.order then p in n.peers && OtherSent(n, m, p) else m == n
    case WithdrewOther(p, k) =>
      if p in n.order && p in n.peers && k < |n.peers[p].outq| && n.peers[p].outq[k] == Other then
        OtherUnsent(n, m, p, k)
      else m == n
  }

  /** p chokes us, so its requests are void and those still queued are gone; others may be asked instead. */
  ghost predicate ChokedBy(n: Net, m: Net, p: nat) {
    Lost(n.(chokes := n.chokes + {p}), m, p) && m.peers[p].reqs == [] && NoneQueued(m.peers[p])
  }

  /** p does not choke us any more, so more may have been asked for, and new pieces started, the rarest first. */
  ghost predicate UnchokedBy(n: Net, m: Net, p: nat) {
    Grew(n.(chokes := n.chokes - {p}), m) && RarestNew(n, m, p) && SameStore(n, m) && BegunOnTime(n, m)
  }

  lemma UnchokedEnds(n: Net, u: Net, m: Net, p: nat)
    requires u == n.(chokes := n.chokes - {p})
    requires m == u || (Grew(u, m) && RarestNew(u, m, p) && BegunOnTime(u, m))
    ensures UnchokedBy(n, m, p)
  {
    GrewRefl(u);
    NoneNew(u, u, p);
    RarestIgnoresChokes(n, u, m, p);
  }

  lemma RarestIgnoresChokes(n: Net, u: Net, m: Net, p: nat)
    requires u == n.(chokes := u.chokes) && RarestNew(u, m, p)
    ensures RarestNew(n, m, p)
  {
  }

  ghost predicate SameStore(n: Net, m: Net) {
    m.nblocks == n.nblocks && m.got == n.got && m.have == n.have && (n.endgame ==> m.endgame)
  }

  lemma SameStoreProgress(n: Net, m: Net)
    requires SameStore(n, m)
    ensures Progress(n, m)
  {
  }

  lemma StoredProgress(n: Net, m: Net, p: nat, x: Block)
    requires m == n || (p in n.peers && Stored(n, m, x) && KeptBut(Answered(n, p, x), m, x))
    ensures Progress(n, m)
  {
  }
}
