/** Withdrawing requests: what taking a peer's requests off a piece keeps. */
module Withdrawals {
  import opened Lists
  import opened Peers
  import opened NetState
  import opened Requests

  function PieceDropped(pc: Piece, p: nat, b: nat, endgame: bool): Piece
    requires pc.nreqs > 0 && (!endgame ==> pc.nbusy > 0)
  {
    var pc' := pc.(reqs := Remove(pc.reqs, Req(p, b)), nreqs := pc.nreqs - 1);
    if endgame then pc' else pc'.(down := pc.down - {b}, nbusy := pc.nbusy - 1)
  }

  lemma LiveRemove(reqs: seq<Req>, r: Req, have: set<nat>)
    requires NoDup(reqs) && r in reqs && r.block !in have
    ensures |Live(reqs, have)| > 0 && |Live(Remove(reqs, r), have)| == |Live(reqs, have)| - 1
  {
    RemoveMembers(reqs, r);
    assert r in Live(reqs, have);
    assert Live(Remove(reqs, r), have) == Live(reqs, have) - {r};
  }

  lemma AskedRemove(reqs: seq<Req>, r: Req)
    requires NoDup(reqs) && r in reqs && OnePeerPerBlock(reqs)
    ensures r.block in Asked(reqs) && Asked(Remove(reqs, r)) == Asked(reqs) - {r.block}
    ensures OnePeerPerBlock(Remove(reqs, r))
  {
    RemoveMembers(reqs, r);
    forall b
      ensures b in Asked(Remove(reqs, r)) <==> b in Asked(reqs) - {r.block}
    {
    }
  }

  lemma DroppedPieceOk(pc: Piece, nblocks: nat, have: set<nat>, endgame: bool, p: nat, b: nat)
    requires PieceOk(pc, nblocks, have, endgame) && Req(p, b) in pc.reqs && b !in have
    ensures pc.nreqs > 0 && (!endgame ==> pc.nbusy > 0)
    ensures PieceOk(PieceDropped(pc, p, b, endgame), nblocks, have, endgame)
  {
    var r := Req(p, b);
    RemoveMembers(pc.reqs, r);
    LiveRemove(pc.reqs, r, have);
    if !endgame {
      AskedRemove(pc.reqs, r);
      assert b in pc.down;
    }
  }

  lemma PopKeepsLedger(pieces: map<nat, Piece>, have: seq<set<nat>>, peers: map<nat, Peer>,
                       p: nat, i: nat, b: nat, pc: Piece, pr: Peer)
    requires Ledger(pieces, have, peers) && i in pieces && p in peers
    requires NoDup(pieces[i].reqs) && NoDup(peers[p].reqs)
    requires pc.reqs == Remove(pieces[i].reqs, Req(p, b))
    requires pr.reqs == Remove(peers[p].reqs, Block(i, b))
    ensures Ledger(pieces[i := pc], have, peers[p := pr])
  {
    RemoveMembers(pieces[i].reqs, Req(p, b));
    RemoveMembers(peers[p].reqs, Block(i, b));
    var pieces', peers' := pieces[i := pc], peers[p := pr];
    forall q, j, c
      ensures Asks(peers', q, j, c) <==> Listed(pieces', have, q, j, c)
    {
      assert Asks(peers, q, j, c) <==> Listed(pieces, have, q, j, c);
    }
  }

  /** A request of p, seen from the piece's side. */
  lemma FindListed(n: Net, p: nat, x: Block)
    requires Core(n) && p in n.peers && x in n.peers[p].reqs
    ensures x.piece in n.pieces && x.piece < |n.nblocks| && x.piece < |n.have|
    ensures Req(p, x.block) in n.pieces[x.piece].reqs && x.block !in n.have[x.piece]
    ensures n.pieces[x.piece].nreqs > 0 && (!n.endgame ==> n.pieces[x.piece].nbusy > 0)
    ensures PieceOk(n.pieces[x.piece], n.nblocks[x.piece], n.have[x.piece], n.endgame)
  {
    assert Block(x.piece, x.block) == x;
    assert Asks(n.peers, p, x.piece, x.block);
    assert Listed(n.pieces, n.have, p, x.piece, x.block);
    DroppedPieceOk(n.pieces[x.piece], n.nblocks[x.piece], n.have[x.piece], n.endgame, p, x.block);
  }

  ghost function Dropped(n: Net, p: nat, x: Block): Net
    requires x.piece in n.pieces && p in n.peers && n.peers[p].Loose() && x in n.peers[p].reqs
    requires n.pieces[x.piece].nreqs > 0 && (!n.endgame ==> n.pieces[x.piece].nbusy > 0)
  {
    n.(pieces := n.pieces[x.piece := PieceDropped(n.pieces[x.piece], p, x.block, n.endgame)],
       peers := n.peers[p := DropRequest(n.peers[p], x)])
  }

  lemma DropKeepsCore(n: Net, p: nat, x: Block)
    requires Core(n) && p in n.peers && x in n.peers[p].reqs
    requires x.piece in n.pieces && n.pieces[x.piece].nreqs > 0 && (!n.endgame ==> n.pieces[x.piece].nbusy > 0)
    ensures Core(Dropped(n, p, x))
  {
    var m := Dropped(n, p, x);
    FindListed(n, p, x);
    DroppedPieceOk(n.pieces[x.piece], n.nblocks[x.piece], n.have[x.piece], n.endgame, p, x.block);
    PopKeepsLedger(n.pieces, n.have, n.peers, p, x.piece, x.block, m.pieces[x.piece], m.peers[p]);
    PutPiece(n.nblocks, n.have, n.endgame, n.pieces, x.piece, m.pieces[x.piece]);
    PutPeer(n.peers, p, m.peers[p]);
  }

  /** Some of p's requests for piece i are gone, from both lists. */
  ghost predicate Fewer(n: Net, m: Net, p: nat, i: nat) {
    && m == n.(pieces := m.pieces, peers := m.peers)
    && p in n.peers && p in m.peers && i in n.pieces && i in m.pieces
    && m.pieces == n.pieces[i := m.pieces[i]] && m.peers == n.peers[p := m.peers[p]]
    && FewerPiece(n.pieces[i], m.pieces[i]) && FewerPeer(n.peers[p], m.peers[p], i)
    && (!n.endgame ==> m.pieces[i].nbusy + |n.peers[p].reqs| == n.pieces[i].nbusy + |m.peers[p].reqs|)
  }

  ghost predicate FewerPiece(pc: Piece, pc': Piece) {
    && pc'.ngot == pc.ngot
    && (forall r :: r in pc'.reqs ==> r in pc.reqs)
  }

  ghost predicate FewerPeer(p: Peer, p': Peer, i: nat) {
    && p'.nwant == p.nwant && p'.doUnwant == p.doUnwant && OnlyLapsed(p, p')
    && (forall x :: x in p'.reqs ==> x in p.reqs)
    && (forall x :: x in p.reqs && x.piece != i ==> x in p'.reqs)
    && |p'.reqs| <= |p.reqs|
  }

  lemma FewerRefl(n: Net, p: nat, i: nat)
    requires p in n.peers && i in n.pieces
    ensures Fewer(n, n, p, i)
  {
    assert n.pieces == n.pieces[i := n.pieces[i]];
    assert n.peers == n.peers[p := n.peers[p]];
  }

  lemma FewerTransitive(n: Net, m: Net, l: Net, p: nat, i: nat)
    requires Fewer(n, m, p, i) && Fewer(m, l, p, i)
    ensures Fewer(n, l, p, i)
  {
    PutTwice(n.pieces, i, m.pieces[i], l.pieces[i]);
    PutTwice(n.peers, p, m.peers[p], l.peers[p]);
  }

  lemma DroppedFewer(n: Net, p: nat, x: Block)
    requires Core(n) && p in n.peers && x in n.peers[p].reqs
    requires x.piece in n.pieces && n.pieces[x.piece].nreqs > 0 && (!n.endgame ==> n.pieces[x.piece].nbusy > 0)
    ensures Fewer(n, Dropped(n, p, x), p, x.piece)
  {
    FindListed(n, p, x);
    RemoveMembers(n.pieces[x.piece].reqs, Req(p, x.block));
    assert n.peers[p].Loose();
    DroppedPeer(n.peers[p], x);
  }

  lemma DroppedPeer(p: Peer, x: Block)
    requires p.Loose() && x in p.reqs
    ensures FewerPeer(p, DropRequest(p, x), x.piece) && |DropRequest(p, x).reqs| == |p.reqs| - 1
  {
    RemoveMembers(p.reqs, x);
    RemoveCounts(p.reqs, x);
  }

  lemma FewerStep(n: Net, m: Net, p: nat, k: nat, i: nat)
    requires Core(m) && Fewer(n, m, p, i) && k < |m.peers[p].reqs| && m.peers[p].reqs[k].piece == i
    ensures m.pieces[i].nreqs > 0 && (!m.endgame ==> m.pieces[i].nbusy > 0) && m.peers[p].Loose()
    ensures Core(Dropped(m, p, m.peers[p].reqs[k])) && Fewer(n, Dropped(m, p, m.peers[p].reqs[k]), p, i)
  {
    var x := m.peers[p].reqs[k];
    assert m.peers[p].Loose();
    FindListed(m, p, x);
    DropKeepsCore(m, p, x);
    DroppedFewer(m, p, x);
    FewerTransitive(n, m, Dropped(m, p, x), p, i);
  }

  lemma NoneForStep(reqs: seq<Block>, k: nat, i: nat)
    requires NoDup(reqs) && k < |reqs| && NoneFor(reqs, k, i)
    ensures |Remove(reqs, reqs[k])| == |reqs| - 1 && NoneFor(Remove(reqs, reqs[k]), k, i)
    ensures reqs[k].piece != i ==> NoneFor(reqs, k + 1, i)
  {
    RemoveAt(reqs, k);
  }

  /** p keeps no request for piece i among its first k. */
  ghost predicate NoneFor(reqs: seq<Block>, k: nat, i: nat) {
    forall a :: 0 <= a < k && a < |reqs| ==> reqs[a].piece != i
  }

  // ---------- dl_unassign_requests ----------

  /** p may have lost requests; other peers only gained some. */
  ghost predicate Lost(n: Net, m: Net, p: nat) {
    && SameSetting(n, m)
    && (forall q :: q in n.peers && q != p ==>
         && q in m.peers
         && n.peers[q].reqs <= m.peers[q].reqs && SameRecord(n.peers[q], m.peers[q])
         && (q in n.chokes ==> m.peers[q].reqs == n.peers[q].reqs)
         && (q !in n.order ==> m.peers[q] == n.peers[q]))
    && p in n.peers && p in m.peers
    && (forall x :: x in m.peers[p].reqs ==> x in n.peers[p].reqs) && OnlyLapsed(n.peers[p], m.peers[p])
  }

  lemma LostRefl(n: Net, p: nat)
    requires p in n.peers
    ensures Lost(n, n, p)
  {
  }

  lemma RequeueIsLost(n: Net, m: Net, p: nat)
    requires m == n.(peers := m.peers) && p in n.peers && p in m.peers
    requires m.peers == n.peers[p := m.peers[p]] && m.peers[p].reqs == n.peers[p].reqs
    requires OnlyLapsed(n.peers[p], m.peers[p])
    ensures Lost(n, m, p)
  {
  }

  lemma LostTransitive(n: Net, m: Net, l: Net, p: nat)
    requires Lost(n, m, p) && Lost(m, l, p)
    ensures Lost(n, l, p)
  {
    forall q | q in n.peers && q != p
      ensures q in l.peers && n.peers[q].reqs <= l.peers[q].reqs
    {
      assert n.peers[q].reqs <= m.peers[q].reqs <= l.peers[q].reqs;
    }
  }

  /** Growth that leaves p alone. */
  lemma GrewLost(n: Net, m: Net, p: nat)
    requires Grew(n, m) && p in n.peers && (p in n.chokes || p !in n.order)
    ensures Lost(n, m, p) && m.peers[p].reqs == n.peers[p].reqs
  {
  }

  ghost predicate Unassigning(n: Net, m: Net, p: nat) {
    && Normal(m) && Lost(n, m, p) && (p in m.chokes || p !in m.order)
    && AllBusy(m, WantSet(m)) && WantSet(n) <= WantSet(m) && WantSet(n) != {}
    && m.getlst == n.getlst && m.busy == n.busy && m.nbusy == n.nbusy
  }

  lemma UnassignStart(n: Net, p: nat)
    requires Normal(n) && p in n.peers && (p in n.chokes || p !in n.order)
    requires AllBusy(n, WantSet(n)) && WantSet(n) != {}
    ensures Unassigning(n, n, p)
  {
    LostRefl(n, p);
  }

  /** The state after p's requests for piece i are gone and p has settled. */
  ghost predicate Withdrawn(m: Net, l: Net, p: nat, i: nat) {
    && Base(l) && Lost(m, l, p) && l == m.(pieces := l.pieces, peers := l.peers)
    && i in m.pieces && i in l.pieces && i < |l.nblocks|
    && l.pieces == m.pieces[i := l.pieces[i]] && p in l.peers && l.peers == m.peers[p := l.peers[p]]
    && l.peers[p].nwant == m.peers[p].nwant && OnlyLapsed(m.peers[p], l.peers[p])
    && (forall r :: r in l.pieces[i].reqs ==> r in m.pieces[i].reqs)
    && l.pieces[i].ngot == m.pieces[i].ngot
    && NoneFor(l.peers[p].reqs, |l.peers[p].reqs|, i)
    && (forall x :: x in m.peers[p].reqs && x.piece != i ==> x in l.peers[p].reqs)
  }

  lemma SettleAfterDrop(m: Net, d: Net, p: nat, i: nat)
    requires Base(m) && Core(d) && Fewer(m, d, p, i) && d.peers[p].Loose()
    requires NoneFor(d.peers[p].reqs, |d.peers[p].reqs|, i)
    ensures Withdrawn(m, d.(peers := d.peers[p := Settle(d.peers[p])]), p, i)
  {
    var pr := Settle(d.peers[p]);
    PutTwice(m.peers, p, d.peers[p], pr);
    SettleKeepsBase(m, d, p, i);
    SettleIsLost(m, d, p, i, pr);
  }

  lemma SettleKeepsBase(m: Net, d: Net, p: nat, i: nat)
    requires Base(m) && Core(d) && Fewer(m, d, p, i) && d.peers[p].Loose()
    ensures Base(d.(peers := d.peers[p := Settle(d.peers[p])]))
  {
    var pr := Settle(d.peers[p]);
    PutTwice(m.peers, p, d.peers[p], pr);
    SettledOthers(m.peers, p, pr);
    PutSameReqs(d.peers, d.peers, p, pr);
    SameReqsLedger(d.pieces, d.have, d.peers, d.peers[p := pr]);
    HeldPut(m.order, m.peers, m.has, p, pr);
  }

  lemma SettleIsLost(m: Net, d: Net, p: nat, i: nat, pr: Peer)
    requires Fewer(m, d, p, i) && pr.reqs == d.peers[p].reqs && SameRecord(d.peers[p], pr)
    ensures Lost(m, d.(peers := m.peers[p := pr]), p)
  {
  }

  lemma SettledOthers(peers: map<nat, Peer>, p: nat, pr: Peer)
    requires AllSettled(peers) && pr.Settled()
    ensures AllSettled(peers[p := pr]) && AllLoose(peers[p := pr])
  {
  }

  lemma HeldPut(order: seq<nat>, peers: map<nat, Peer>, has: map<nat, set<nat>>, p: nat, pr: Peer)
    requires HeldOk(order, peers, has) && p in peers && pr.npieces == peers[p].npieces
    ensures HeldOk(order, peers[p := pr], has)
  {
  }

  lemma WantPut(order: seq<nat>, peers: map<nat, Peer>, has: map<nat, set<nat>>, w: set<nat>, p: nat, pr: Peer)
    requires WantOk(order, peers, has, w) && p in peers && pr.nwant == peers[p].nwant
    ensures WantOk(order, peers[p := pr], has, w)
  {
  }

  /** Having had a request on the piece, p leaves it with a block to request. */
  lemma DropUnfills(m: Net, d: Net, p: nat, i: nat, x: Block)
    requires Core(m) && !m.endgame && Core(d) && Fewer(m, d, p, i)
    requires x in m.peers[p].reqs && x.piece == i && NoneFor(d.peers[p].reqs, |d.peers[p].reqs|, i)
    ensures i < |d.nblocks| && !Full(d.pieces[i], d.nblocks[i]) && |d.peers[p].reqs| < |m.peers[p].reqs|
  {
    assert x !in d.peers[p].reqs;
    assert m.peers[p].Loose() && d.peers[p].Loose();
    ShorterList(m.peers[p].reqs, d.peers[p].reqs, x);
    assert PieceOk(m.pieces[i], m.nblocks[i], m.have[i], false);
    NotOverfull(m.pieces[i], m.nblocks[i], m.have[i]);
  }

  lemma ShorterList<T>(s: seq<T>, t: seq<T>, x: T)
    requires NoDup(s) && NoDup(t) && x in s && x !in t
    requires forall y :: y in t ==> y in s
    ensures |t| < |s|
  {
    NoDupCard(s);
    NoDupCard(t);
    assert Elems(t) <= Elems(s) - {x};
    SubsetCard(Elems(t), Elems(s) - {x});
  }

  lemma WithdrawnBusy(m: Net, l: Net, p: nat, i: nat, w: set<nat>)
    requires Withdrawn(m, l, p, i) && AllBusy(m, w) && (p in m.chokes || p !in m.order)
    ensures AllBusy(l, w)
  {
    forall q | q in l.order
      ensures Busy(l, q, w)
    {
      assert Busy(m, q, w);
    }
  }

  /** After withdrawing: want levels and capacity still follow the old set of wanted pieces. */
  lemma WithdrawnReady(n: Net, m: Net, l: Net, p: nat, i: nat)
    requires Unassigning(n, m, p) && Withdrawn(m, l, p, i) && !Full(l.pieces[i], l.nblocks[i])
    ensures WantOk(l.order, l.peers, l.has, WantSet(m)) && AllBusy(l, WantSet(m))
    ensures WantSet(l) == WantSet(m) + {i}
  {
    WantPut(m.order, m.peers, m.has, WantSet(m), p, l.peers[p]);
    WithdrawnBusy(m, l, p, i, WantSet(m));
    WantSetOfPiece(m, l, i);
  }

  lemma UnassignKeeps(n: Net, m: Net, l: Net, p: nat, i: nat)
    requires Unassigning(n, m, p) && Withdrawn(m, l, p, i)
    requires WantOk(l.order, l.peers, l.has, WantSet(m)) && AllBusy(l, WantSet(m))
    requires WantSet(l) == WantSet(m) + {i} && i in WantSet(m)
    ensures Unassigning(n, l, p)
  {
    PutBack(WantSet(m), i);
    LostTransitive(n, m, l, p);
  }

  lemma UnassignRefilled(n: Net, m: Net, l: Net, r: Net, p: nat, i: nat)
    requires Unassigning(n, m, p) && Withdrawn(m, l, p, i) && Refilled(l, r, i, WantSet(m))
    ensures Unassigning(n, r, p) && r.peers[p].reqs == l.peers[p].reqs
  {
    GrewLost(l, r, p);
    LostTransitive(n, m, l, p);
    LostTransitive(n, l, r, p);
  }

  // ---------- dl_unassign_requests_eg ----------

  ghost predicate OthersSettled(peers: map<nat, Peer>, p: nat) {
    forall q :: q in peers && q != p ==> peers[q].Settled()
  }

  /** Requests only went away, and all of them were p's. */
  ghost predicate FewerAll(n: Net, m: Net, p: nat) {
    && m == n.(getlst := m.getlst, pieces := m.pieces, peers := m.peers)
    && p in n.peers && p in m.peers && m.peers == n.peers[p := m.peers[p]]
    && m.pieces.Keys == n.pieces.Keys
    && (forall i :: i in n.pieces ==> i in m.pieces && FewerPiece(n.pieces[i], m.pieces[i]))
    && m.peers[p].nwant == n.peers[p].nwant && OnlyLapsed(n.peers[p], m.peers[p])
    && (forall x :: x in m.peers[p].reqs ==> x in n.peers[p].reqs)
  }

  /** p keeps no request for a piece in the list. */
  ghost predicate ClearOf(reqs: seq<Block>, tmp: seq<nat>) {
    forall x :: x in reqs ==> x.piece !in tmp
  }

  ghost predicate UnassigningEg(n: Net, m: Net, p: nat, tmp: seq<nat>) {
    && Core(m) && m.endgame && FewerAll(n, m, p)
    && OthersSettled(m.peers, p) && HeldOk(m.order, m.peers, m.has) && |m.count| == |m.nblocks|
    && Sorted(m) && SplitList(m.getlst, tmp, m.busy) && ClearOf(m.peers[p].reqs, tmp)
  }

  lemma UnassignEgStart(n: Net, p: nat)
    requires Base(n) && n.endgame && Linked(n.getlst, n.busy) && Sorted(n) && p in n.peers
    ensures UnassigningEg(n, n, p, [])
  {
    assert n.peers == n.peers[p := n.peers[p]];
    assert Elems<nat>([]) == {};
  }

  lemma FewerAllStep(n: Net, m: Net, l: Net, p: nat, i: nat)
    requires FewerAll(n, m, p) && Fewer(m, l, p, i)
    ensures FewerAll(n, l, p)
  {
    PutTwice(n.peers, p, m.peers[p], l.peers[p]);
    forall j | j in n.pieces
      ensures j in l.pieces && FewerPiece(n.pieces[j], l.pieces[j])
    {
      assert FewerPiece(n.pieces[j], m.pieces[j]);
    }
  }

  /** The piece is still in getlst, and leaving it out keeps the order. */
  lemma TakeOutEg(m: Net, i: nat, tmp: seq<nat>)
    requires SplitList(m.getlst, tmp, m.busy) && Sorted(m) && i in m.busy && i !in tmp
    ensures SplitList(Remove(m.getlst, i), [i] + tmp, m.busy)
    ensures Ranked(Remove(m.getlst, i), Ranks(m.pieces, m.nblocks)) && i !in Remove(m.getlst, i)
  {
    assert i in Elems(m.getlst) + Elems(tmp);
    var k :| 0 <= k < |m.getlst| && m.getlst[k] == i;
    RemoveAt(m.getlst, k);
    RemoveMembers(m.getlst, i);
    TakeKeepsSplit(m.getlst, tmp, k, m.busy);
    RankedCut(m.getlst, k, Ranks(m.pieces, m.nblocks));
  }

  lemma ClearStep(reqs: seq<Block>, reqs': seq<Block>, tmp: seq<nat>, i: nat)
    requires ClearOf(reqs, tmp) && NoneFor(reqs', |reqs'|, i) && forall x :: x in reqs' ==> x in reqs
    ensures ClearOf(reqs', [i] + tmp)
  {
    forall x | x in reqs'
      ensures x.piece !in [i] + tmp
    {
      assert x.piece != i;
    }
  }

  lemma UnassignEgStep(n: Net, m: Net, l: Net, p: nat, i: nat, tmp: seq<nat>, x: Block)
    requires UnassigningEg(n, m, p, tmp) && x in m.peers[p].reqs && x.piece == i
    requires Core(l) && Fewer(m.(getlst := Remove(m.getlst, i)), l, p, i)
    requires NoneFor(l.peers[p].reqs, |l.peers[p].reqs|, i)
    ensures UnassigningEg(n, l, p, [i] + tmp)
    ensures |l.peers[p].reqs| < |m.peers[p].reqs|
  {
    var t := m.(getlst := Remove(m.getlst, i));
    FindListed(m, p, x);
    TakeOutEg(m, i, tmp);
    FewerAllStep(n, t, l, p, i);
    ClearStep(m.peers[p].reqs, l.peers[p].reqs, tmp, i);
    FewerRanked(t, l, p, i);
    FewerUnassigning(n, t, l, p, i, [i] + tmp);
    LooseShorter(m.peers, l.peers, p, x);
  }

  lemma FewerUnassigning(n: Net, t: Net, l: Net, p: nat, i: nat, tmp: seq<nat>)
    requires Core(l) && FewerAll(n, l, p) && Fewer(t, l, p, i) && t.endgame && OthersSettled(t.peers, p)
    requires HeldOk(t.order, t.peers, t.has) && |t.count| == |t.nblocks| && SplitList(t.getlst, tmp, t.busy)
    requires Sorted(l) && ClearOf(l.peers[p].reqs, tmp)
    ensures UnassigningEg(n, l, p, tmp)
  {
    HeldPut(t.order, t.peers, t.has, p, l.peers[p]);
  }

  lemma LooseShorter(peers: map<nat, Peer>, peers': map<nat, Peer>, p: nat, x: Block)
    requires AllLoose(peers) && AllLoose(peers') && p in peers && p in peers'
    requires x in peers[p].reqs && x !in peers'[p].reqs && forall y :: y in peers'[p].reqs ==> y in peers[p].reqs
    ensures |peers'[p].reqs| < |peers[p].reqs|
  {
    assert peers[p].Loose() && peers'[p].Loose();
    ShorterList(peers[p].reqs, peers'[p].reqs, x);
  }

  lemma FewerRanked(t: Net, l: Net, p: nat, i: nat)
    requires Fewer(t, l, p, i) && i !in t.getlst && Ranked(t.getlst, Ranks(t.pieces, t.nblocks))
    ensures Sorted(l)
  {
    RankedSame(l.getlst, Ranks(t.pieces, t.nblocks), Ranks(l.pieces, l.nblocks));
  }

  lemma UnassignEgEnd(n: Net, m: Net, p: nat, tmp: seq<nat>)
    requires UnassigningEg(n, m, p, tmp) && m.peers[p].nreqsOut == 0 && m.peers[p].Loose()
    ensures var l := m.(peers := m.peers[p := OnNoReqs(m.peers[p])]);
      Base(l) && Sorted(l) && SplitList(l.getlst, tmp, l.busy) && FewerAll(n, l, p) && l.peers[p].reqs == []
  {
    var pr := OnNoReqs(m.peers[p]);
    SettledFewer(n, m, p, pr);
    PutSameReqs(m.peers, m.peers, p, pr);
    SameReqsLedger(m.pieces, m.have, m.peers, m.peers[p := pr]);
    HeldPut(m.order, m.peers, m.has, p, pr);
    SettleOne(m.peers, p, pr);
  }

  lemma SettledFewer(n: Net, m: Net, p: nat, pr: Peer)
    requires FewerAll(n, m, p) && pr.reqs == m.peers[p].reqs && pr.nwant == m.peers[p].nwant
    requires SameRecord(m.peers[p], pr)
    ensures FewerAll(n, m.(peers := m.peers[p := pr]), p)
  {
    PutTwice(n.peers, p, m.peers[p], pr);
  }

  lemma SettleOne(peers: map<nat, Peer>, p: nat, pr: Peer)
    requires OthersSettled(peers, p) && pr.Settled()
    ensures AllSettled(peers[p := pr]) && AllLoose(peers[p := pr])
  {
  }

  lemma FewerKeepsLive(n: Net, m: Net, p: nat)
    requires FewerAll(n, m, p) && AllLive(n.pieces, n.have)
    ensures AllLive(m.pieces, m.have)
  {
    forall i | i in m.pieces
      ensures i < |m.have| && LiveOnly(m.pieces[i].reqs, m.have[i])
    {
      assert FewerPiece(n.pieces[i], m.pieces[i]) && LiveOnly(n.pieces[i].reqs, n.have[i]);
    }
  }
}
