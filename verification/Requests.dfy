/** How single steps on the request lists change the downloader's state and keep its invariants. */
module Requests {
  import opened Lists
  import opened Peers
  import opened NetState

  lemma ReinsertFits(lst: seq<nat>, tmp: seq<nat>, busy: set<nat>)
    requires SplitList(lst, tmp, busy) && tmp != []
    ensures tmp[0] !in lst && tmp[0] in busy
  {
    assert tmp[0] in Elems(tmp);
  }

  lemma ReinsertKeepsSplit(lst: seq<nat>, lst': seq<nat>, tmp: seq<nat>, busy: set<nat>)
    requires SplitList(lst, tmp, busy) && tmp != []
    requires NoDup(lst') && Elems(lst') == Elems(lst) + {tmp[0]}
    ensures SplitList(lst', tmp[1..], busy)
  {
    assert tmp == [tmp[0]] + tmp[1..];
    assert Elems(tmp) == {tmp[0]} + Elems(tmp[1..]);
  }

  /** getlst and the temporary list share out the busy pieces. */
  ghost predicate SplitList(getlst: seq<nat>, tmp: seq<nat>, busy: set<nat>) {
    NoDup(getlst) && NoDup(tmp) && Elems(getlst) !! Elems(tmp) && Elems(getlst) + Elems(tmp) == busy
  }

  /** Nothing of piece i is left to request from p. */
  ghost predicate Exhausted(n: Net, p: nat, i: nat) {
    p in n.has && i in n.has[p] && i < |n.nblocks| && i < |n.have| ==>
      AllRequestedOf(n.peers, p, i, n.nblocks[i], n.have[i])
  }

  ghost predicate AllExhausted(n: Net, p: nat, lst: seq<nat>) {
    forall j :: j in lst ==> Exhausted(n, p, j)
  }

  lemma AllExhaustedEnds(n: Net, p: nat, lst: seq<nat>, tmp: seq<nat>)
    requires BusyOk(|n.nblocks|, n.got, n.busy, n.nbusy, n.pieces) && SplitList(lst, tmp, n.busy)
    requires AllExhausted(n, p, lst) && AllExhausted(n, p, tmp)
    ensures AllRequested(n, p)
  {
    forall i | i in n.pieces
      ensures Exhausted(n, p, i)
    {
      assert i in Elems(lst) || i in Elems(tmp);
    }
  }

  lemma RelinkKeepsBase(n: Net, lst: seq<nat>)
    requires Base(n)
    ensures Base(n.(getlst := lst))
  {
  }

  lemma TakeKeepsSplit(lst: seq<nat>, tmp: seq<nat>, k: nat, busy: set<nat>)
    requires SplitList(lst, tmp, busy) && k < |lst|
    ensures SplitList(lst[..k] + lst[k + 1..], [lst[k]] + tmp, busy)
  {
    CutMembers(lst, k);
    assert lst[k] in Elems(lst);
    NoDupCons(lst[k], tmp);
    assert Elems([lst[k]] + tmp) == {lst[k]} + Elems(tmp);
  }

  lemma TakeKeepsSorted(n: Net, m: Net, i: nat, p: nat, k: nat)
    requires Sorted(n) && AskedMore(n, m, i, p) && NoDup(n.getlst)
    requires k < |n.getlst| && n.getlst[k] == i
    ensures Sorted(m.(getlst := m.getlst[..k] + m.getlst[k + 1..]))
  {
    var lst := n.getlst[..k] + n.getlst[k + 1..];
    RankedCut(n.getlst, k, Ranks(n.pieces, n.nblocks));
    CutMembers(n.getlst, k);
    assert i !in Elems(lst);
    RankedSame(lst, Ranks(n.pieces, n.nblocks), Ranks(m.pieces, m.nblocks));
  }

  lemma ExhaustedStays(n: Net, m: Net, p: nat, lst: seq<nat>)
    requires AllExhausted(n, p, lst)
    requires m.has == n.has && m.nblocks == n.nblocks && m.have == n.have
    requires forall j, b :: Asks(n.peers, p, j, b) ==> Asks(m.peers, p, j, b)
    ensures AllExhausted(m, p, lst)
  {
    forall j | j in lst
      ensures Exhausted(m, p, j)
    {
      assert Exhausted(n, p, j);
    }
  }

  lemma TakeExhausts(n: Net, m: Net, i: nat, p: nat, k: nat, tmp: seq<nat>)
    requires AskedMore(n, m, i, p)
    requires AllRequestedOf(m.peers, p, i, m.nblocks[i], m.have[i])
    requires k < |n.getlst|
    requires AllExhausted(n, p, n.getlst[..k]) && AllExhausted(n, p, tmp)
    ensures var l := m.(getlst := m.getlst[..k] + m.getlst[k + 1..]);
      AllExhausted(l, p, l.getlst[..k]) && AllExhausted(l, p, [i] + tmp)
  {
    var l := m.(getlst := m.getlst[..k] + m.getlst[k + 1..]);
    AskedMoreKeeps(n, m, i, p);
    ExhaustedStays(n, l, p, n.getlst[..k]);
    ExhaustedStays(n, l, p, tmp);
    assert l.getlst[..k] == n.getlst[..k];
    assert Exhausted(l, p, i);
  }

  lemma SkipExhausts(n: Net, p: nat, k: nat)
    requires Core(n) && k < |n.getlst| && p in n.has && n.getlst[k] in n.pieces
    requires n.getlst[k] !in n.has[p] || n.nblocks[n.getlst[k]] == n.pieces[n.getlst[k]].ngot
    requires AllExhausted(n, p, n.getlst[..k])
    ensures AllExhausted(n, p, n.getlst[..k + 1])
  {
    var i := n.getlst[k];
    TakeNext(n.getlst, k);
    if i in n.has[p] {
      CompleteHasAll(n.have[i], n.nblocks[i]);
    }
  }

  /** Of the peers only p changed, by new requests and perhaps a new want level. */
  ghost predicate OnePeer(n: Net, m: Net, p: nat) {
    && m == n.(getlst := m.getlst, pieces := m.pieces, peers := m.peers)
    && GrewPieces(n.pieces, m.pieces, n.have)
    && p in n.peers && p in m.peers
    && m.peers == n.peers[p := m.peers[p]]
    && n.peers[p].reqs <= m.peers[p].reqs && SameRecord(n.peers[p], m.peers[p])
  }

  ghost predicate AskedAll(n: Net, m: Net, p: nat) {
    OnePeer(n, m, p) && m.peers[p].nwant == n.peers[p].nwant
  }

  lemma AskedAllStep(n: Net, m: Net, l: Net, i: nat, p: nat)
    requires AskedAll(n, m, p) && AskedMore(m, l, i, p)
    ensures AskedAll(n, l, p)
  {
  }

  lemma RelinkedAsked(n: Net, m: Net, l: Net, p: nat)
    requires AskedAll(n, m, p) && l == m.(getlst := l.getlst)
    ensures AskedAll(n, l, p) && (AllRequested(m, p) ==> AllRequested(l, p))
  {
  }

  ghost function Advanced(n: Net, i: nat): Net
    requires Base(n) && i in n.pieces
  {
    n.(pieces := n.pieces[i := n.pieces[i].(next := Inc(n.pieces[i].next, n.nblocks[i]))])
  }

  /** Only p was asked, and only for missing blocks of piece i. */
  ghost predicate AskedMore(n: Net, m: Net, i: nat, p: nat) {
    && m == n.(pieces := m.pieces, peers := m.peers)
    && i in n.pieces && i in m.pieces && p in n.peers && p in m.peers && i < |n.have| && i < |n.nblocks|
    && m.pieces == n.pieces[i := m.pieces[i]] && GrewPiece(n.pieces[i], m.pieces[i], n.have[i])
    && m.peers == n.peers[p := m.peers[p]] && OnlyAsked(n.peers[p], m.peers[p])
  }

  lemma RequestedIsMore(n: Net, p: nat, i: nat)
    requires Base(n) && CanRequest(n, p, i)
    ensures AskedMore(n, Requested(n, p, i), i, p)
    ensures Asks(Requested(n, p, i).peers, p, i, n.pieces[i].next)
    ensures HeldOk(n.order, Requested(n, p, i).peers, n.has)
  {
    var b := n.pieces[i].next;
    assert n.peers[p].Settled();
    var pr := AddRequest(n.peers[p], Block(i, b));
    AskedHeld(n.order, n.peers, n.has, p, pr);
    AskedPieceGrew(n.pieces[i], p, n.endgame, n.have[i]);
    AskedIsMore(n, Requested(n, p, i), i, p);
  }

  lemma AskedPieceGrew(pc: Piece, p: nat, endgame: bool, have: set<nat>)
    requires pc.next !in have
    ensures GrewPiece(pc, PieceAsked(pc, p, endgame), have)
  {
  }

  lemma AskedIsMore(n: Net, m: Net, i: nat, p: nat)
    requires i in n.pieces && i in m.pieces && p in n.peers && p in m.peers && i < |n.have| && i < |n.nblocks|
    requires m == n.(pieces := n.pieces[i := m.pieces[i]], peers := n.peers[p := m.peers[p]])
    requires GrewPiece(n.pieces[i], m.pieces[i], n.have[i]) && OnlyAsked(n.peers[p], m.peers[p])
    ensures AskedMore(n, m, i, p)
  {
  }

  lemma AskedHeld(order: seq<nat>, peers: map<nat, Peer>, has: map<nat, set<nat>>, p: nat, pr: Peer)
    requires HeldOk(order, peers, has) && p in peers && pr.npieces == peers[p].npieces
    ensures HeldOk(order, peers[p := pr], has)
  {
  }

  lemma AdvancedIsMore(n: Net, i: nat, p: nat)
    requires Base(n) && i in n.pieces && p in n.peers
    ensures AskedMore(n, Advanced(n, i), i, p)
  {
    PutSame(n.peers, p);
    assert PieceOk(n.pieces[i], n.nblocks[i], n.have[i], n.endgame);
    AskedIsMore(n, Advanced(n, i), i, p);
  }

  lemma AskedMoreTransitive(n: Net, m: Net, l: Net, i: nat, p: nat)
    requires AskedMore(n, m, i, p) && AskedMore(m, l, i, p)
    ensures AskedMore(n, l, i, p)
  {
  }

  lemma AskedMoreKeeps(n: Net, m: Net, i: nat, p: nat)
    requires AskedMore(n, m, i, p)
    ensures forall q, j, b :: Asks(n.peers, q, j, b) ==> Asks(m.peers, q, j, b)
  {
  }

  lemma AheadStep(first: nat, k: nat, nblocks: nat)
    requires first < nblocks && k < nblocks
    ensures Ahead(first, k, nblocks) < nblocks
    ensures Inc(Ahead(first, k, nblocks), nblocks) == Ahead(first, k + 1, nblocks)
    ensures Ahead(first, k + 1, nblocks) == first <==> k + 1 == nblocks
  {
  }

  /** The first k blocks in cyclic order from first are stored or requested from p. */
  ghost predicate SweptTo(peers: map<nat, Peer>, p: nat, i: nat, have: set<nat>, first: nat, k: nat, nblocks: nat)
    requires first < nblocks
  {
    forall b: nat :: b < nblocks && Offset(first, b, nblocks) < k && b !in have ==> Asks(peers, p, i, b)
  }

  lemma SweepStep(peers: map<nat, Peer>, peers': map<nat, Peer>, p: nat, i: nat, have: set<nat>, first: nat, k: nat,
                  nblocks: nat)
    requires first < nblocks && k < nblocks
    requires SweptTo(peers, p, i, have, first, k, nblocks)
    requires forall b :: Asks(peers, p, i, b) ==> Asks(peers', p, i, b)
    requires Ahead(first, k, nblocks) !in have ==> Asks(peers', p, i, Ahead(first, k, nblocks))
    ensures SweptTo(peers', p, i, have, first, k + 1, nblocks)
  {
  }

  lemma SweepEnd(peers: map<nat, Peer>, p: nat, i: nat, have: set<nat>, first: nat, nblocks: nat)
    requires first < nblocks
    ensures SweptTo(peers, p, i, have, first, nblocks, nblocks) ==> AllRequestedOf(peers, p, i, nblocks, have)
  {
  }

  /** p was only asked for more. */
  ghost predicate OnlyAsked(p: Peer, p': Peer) {
    p'.nwant == p.nwant && SameRecord(p, p') && p.reqs <= p'.reqs
  }

  /** The block k steps after first, in the cyclic order of next_block. */
  ghost function Ahead(first: nat, k: nat, nblocks: nat): nat
    requires first < nblocks && k <= nblocks
  {
    if first + k < nblocks then first + k else first + k - nblocks
  }

  ghost function Offset(first: nat, b: nat, nblocks: nat): nat
    requires first < nblocks && b < nblocks
  {
    if first <= b then b - first else b + nblocks - first
  }

  /** The piece after its next block has been requested from p. */
  function PieceAsked(pc: Piece, p: nat, endgame: bool): Piece {
    var pc' := pc.(reqs := pc.reqs + [Req(p, pc.next)], nreqs := pc.nreqs + 1);
    if endgame then pc' else pc'.(down := pc.down + {pc.next}, nbusy := pc.nbusy + 1)
  }

  lemma NoDupPush<T>(s: seq<T>, x: T)
    requires NoDup(s) && x !in s
    ensures NoDup(s + [x])
  {
  }

  lemma LivePush(reqs: seq<Req>, r: Req, have: set<nat>)
    requires r !in reqs && r.block !in have
    ensures |Live(reqs + [r], have)| == |Live(reqs, have)| + 1
  {
    assert Live(reqs + [r], have) == Live(reqs, have) + {r};
  }

  lemma AskedPush(reqs: seq<Req>, r: Req)
    ensures Asked(reqs + [r]) == Asked(reqs) + {r.block}
  {
    assert r in reqs + [r];
    forall b ensures b in Asked(reqs + [r]) <==> b in Asked(reqs) + {r.block} {
    }
  }

  lemma AskedKeepsPiece(pc: Piece, nblocks: nat, have: set<nat>, endgame: bool, p: nat)
    requires PieceOk(pc, nblocks, have, endgame)
    requires pc.next !in have && Req(p, pc.next) !in pc.reqs
    requires !endgame ==> pc.next !in pc.down
    ensures PieceOk(PieceAsked(pc, p, endgame), nblocks, have, endgame)
  {
    var r := Req(p, pc.next);
    NoDupPush(pc.reqs, r);
    LivePush(pc.reqs, r, have);
    AskedPush(pc.reqs, r);
  }

  ghost predicate CanRequest(n: Net, p: nat, i: nat)
    requires Core(n)
  {
    && i in n.pieces && p in n.peers && n.peers[p].nwant > 0 && !n.peers[p].Laden()
    && n.pieces[i].next !in n.have[i] && Block(i, n.pieces[i].next) !in n.peers[p].reqs
    && (!n.endgame ==> n.pieces[i].next !in n.pieces[i].down)
  }

  ghost function Requested(n: Net, p: nat, i: nat): Net
    requires Core(n) && AllSettled(n.peers) && CanRequest(n, p, i)
  {
    n.(pieces := n.pieces[i := PieceAsked(n.pieces[i], p, n.endgame)],
       peers := n.peers[p := AddRequest(n.peers[p], Block(i, n.pieces[i].next))])
  }

  lemma PushKeepsLedger(pieces: map<nat, Piece>, have: seq<set<nat>>, peers: map<nat, Peer>,
                        p: nat, i: nat, b: nat, pc: Piece, pr: Peer)
    requires Ledger(pieces, have, peers)
    requires i in pieces && i < |have| && b !in have[i] && p in peers
    requires pc.reqs == pieces[i].reqs + [Req(p, b)]
    requires pr.reqs == peers[p].reqs + [Block(i, b)]
    ensures Ledger(pieces[i := pc], have, peers[p := pr])
  {
    var pieces', peers' := pieces[i := pc], peers[p := pr];
    forall q, j, c
      ensures Asks(peers', q, j, c) <==> Listed(pieces', have, q, j, c)
    {
      assert Asks(peers, q, j, c) <==> Listed(pieces, have, q, j, c);
    }
  }

  lemma RequestKeepsCore(n: Net, p: nat, i: nat)
    requires Core(n) && AllSettled(n.peers) && CanRequest(n, p, i)
    ensures Core(Requested(n, p, i)) && AllSettled(Requested(n, p, i).peers)
  {
    var m := Requested(n, p, i);
    var b := n.pieces[i].next;
    assert !Asks(n.peers, p, i, b) && !Listed(n.pieces, n.have, p, i, b);
    AskedKeepsPiece(n.pieces[i], n.nblocks[i], n.have[i], n.endgame, p);
    PushKeepsLedger(n.pieces, n.have, n.peers, p, i, b, m.pieces[i], m.peers[p]);
    PutPiece(n.nblocks, n.have, n.endgame, n.pieces, i, m.pieces[i]);
    PutPeer(n.peers, p, m.peers[p]);
  }

  // ---------- Entering end game ----------

  /** The piece when end game begins: its blocks are no longer marked as taken. */
  function EgPiece(pc: Piece): Piece {
    pc.(down := {}, nbusy := 0)
  }

  /** The first k pieces of the list have been converted. */
  ghost predicate Converted(lst: seq<nat>, k: nat, pieces: map<nat, Piece>, pieces': map<nat, Piece>) {
    && pieces'.Keys == pieces.Keys
    && forall a :: 0 <= a < |lst| ==>
         lst[a] in pieces && lst[a] in pieces' &&
         pieces'[lst[a]] == if a < k then EgPiece(pieces[lst[a]]) else pieces[lst[a]]
  }

  lemma ConvertStep(lst: seq<nat>, k: nat, pieces: map<nat, Piece>, pieces': map<nat, Piece>)
    requires NoDup(lst) && k < |lst| && Converted(lst, k, pieces, pieces')
    ensures Converted(lst, k + 1, pieces, pieces'[lst[k] := EgPiece(pieces'[lst[k]])])
  {
  }

  lemma EgPieceOk(pc: Piece, nblocks: nat, have: set<nat>)
    requires PieceOk(pc, nblocks, have, false)
    ensures PieceOk(EgPiece(pc), nblocks, have, true)
  {
  }

  lemma ConvertedBase(n: Net, m: Net)
    requires Base(n) && !n.endgame && Linked(n.getlst, n.busy)
    requires m == n.(endgame := true, pieces := m.pieces)
    requires Converted(n.getlst, |n.getlst|, n.pieces, m.pieces)
    ensures Base(m)
  {
    forall i | i in m.pieces
      ensures i in n.pieces && m.pieces[i] == EgPiece(n.pieces[i])
    {
      assert i in Elems(n.getlst);
    }
    forall i | i in m.pieces
      ensures i < |m.nblocks| && i < |m.have| && PieceOk(m.pieces[i], m.nblocks[i], m.have[i], true)
    {
      EgPieceOk(n.pieces[i], n.nblocks[i], n.have[i]);
    }
    ConvertedLedger(n.pieces, m.pieces, n.have, n.peers);
  }

  lemma ConvertedLedger(pieces: map<nat, Piece>, pieces': map<nat, Piece>, have: seq<set<nat>>, peers: map<nat, Peer>)
    requires Ledger(pieces, have, peers) && pieces'.Keys == pieces.Keys
    requires forall i :: i in pieces ==> i in pieces' && pieces'[i].reqs == pieces[i].reqs
    ensures Ledger(pieces', have, peers)
  {
    forall q, i, b
      ensures Asks(peers, q, i, b) <==> Listed(pieces', have, q, i, b)
    {
      assert Asks(peers, q, i, b) <==> Listed(pieces, have, q, i, b);
    }
  }

  /** Outside end game, with every missing piece full, the missing pieces are the busy ones. */
  lemma NothingWanted(n: Net)
    requires Core(n) && !n.endgame && WantSet(n) == {}
    ensures n.got + n.busy == Range(|n.nblocks|)
  {
    forall i: nat
      ensures i in n.got + n.busy <==> i < |n.nblocks|
    {
      assert i !in WantSet(n) && !Wanted(n, i);
    }
  }

  lemma WantSetEg(n: Net)
    requires Core(n) && n.endgame && n.got + n.busy == Range(|n.nblocks|)
    ensures WantSet(n) == n.busy
  {
    forall i: nat
      ensures i in WantSet(n) <==> i in n.busy
    {
      assert i in n.got + n.busy <==> i in Range(|n.nblocks|);
    }
  }

  /** Requests stored in a piece's list are for missing blocks. */
  ghost predicate AllLive(pieces: map<nat, Piece>, have: seq<set<nat>>) {
    forall i :: i in pieces ==> i < |have| && LiveOnly(pieces[i].reqs, have[i])
  }

  ghost predicate LiveOnly(reqs: seq<Req>, have: set<nat>) {
    forall r :: r in reqs ==> r.block !in have
  }

  lemma GrewKeepsLive(pieces: map<nat, Piece>, pieces': map<nat, Piece>, have: seq<set<nat>>)
    requires AllLive(pieces, have) && GrewPieces(pieces, pieces', have)
    ensures AllLive(pieces', have)
  {
    forall i | i in pieces'
      ensures i < |have| && LiveOnly(pieces'[i].reqs, have[i])
    {
      assert i in pieces && GrewPiece(pieces[i], pieces'[i], have[i]) && LiveOnly(pieces[i].reqs, have[i]);
    }
  }

  lemma DownIsLive(n: Net)
    requires Core(n) && !n.endgame
    ensures AllLive(n.pieces, n.have)
  {
    forall i, r | i in n.pieces && r in n.pieces[i].reqs
      ensures r.block !in n.have[i]
    {
      assert PieceOk(n.pieces[i], n.nblocks[i], n.have[i], false);
      assert r.block in Asked(n.pieces[i].reqs);
    }
  }

  /** No capacity is left idle at q in end game. */
  ghost predicate BusyEg(n: Net, q: nat) {
    q in n.chokes || (q in n.peers && n.peers[q].Laden()) || AllRequested(n, q)
  }

  ghost predicate BusyEgUpto(n: Net, k: nat) {
    forall a :: 0 <= a < k && a < |n.order| ==> BusyEg(n, n.order[a])
  }

  /** What the scheduler keeps between events once end game is on. */
  ghost predicate EgInv(n: Net) {
    && Base(n) && n.endgame && Linked(n.getlst, n.busy) && Sorted(n)
    && n.got + n.busy == Range(|n.nblocks|)
    && WantOk(n.order, n.peers, n.has, n.busy)
    && AllLive(n.pieces, n.have)
    && BusyEgUpto(n, |n.order|)
  }

  lemma OnePeerKeepsBusy(n: Net, m: Net, p: nat, q: nat)
    requires OnePeer(n, m, p) && q != p && BusyEg(n, q)
    ensures BusyEg(m, q)
  {
    if AllRequested(n, q) {
      forall i | i in m.pieces && q in m.has && i in m.has[q] && i < |m.nblocks| && i < |m.have|
        ensures AllRequestedOf(m.peers, q, i, m.nblocks[i], m.have[i])
      {
        assert i in n.pieces && AllRequestedOf(n.peers, q, i, n.nblocks[i], n.have[i]);
        forall b: nat | b < m.nblocks[i] && b !in m.have[i]
          ensures Asks(m.peers, q, i, b)
        {
          assert Asks(n.peers, q, i, b);
        }
      }
    }
  }

  lemma BusyEgStep(n: Net, m: Net, k: nat)
    requires k < |n.order| && NoDup(n.order) && OnePeer(n, m, n.order[k])
    requires BusyEgUpto(n, k) && BusyEg(m, n.order[k])
    ensures BusyEgUpto(m, k + 1)
  {
    forall a | 0 <= a < k + 1
      ensures BusyEg(m, n.order[a])
    {
      if a < k {
        OnePeerKeepsBusy(n, m, n.order[k], n.order[a]);
      }
    }
  }

  /** A peer that is not wanted has none of the missing pieces. */
  lemma UnwantedIsBusy(n: Net, p: nat)
    requires Core(n) && p in n.peers && n.peers[p].nwant == |n.has[p] * n.busy| && !n.peers[p].wanted
    ensures AllRequested(n, p)
  {
    assert n.peers[p].Loose() && n.has[p] * n.busy == {};
    forall i | i in n.pieces
      ensures i !in n.has[p]
    {
      assert i !in n.has[p] * n.busy;
    }
  }

  lemma OnePeerGrows(n: Net, m: Net, l: Net, p: nat)
    requires Grew(n, m) && OnePeer(m, l, p) && p in n.order
    requires p in n.chokes ==> l.peers[p].reqs == m.peers[p].reqs
    ensures Grew(n, l)
  {
  }

  lemma TailFits(lst: seq<nat>, pcs: seq<nat>, busy: set<nat>)
    requires SplitList(lst, pcs, busy) && pcs != []
    ensures pcs[|pcs| - 1] !in lst && pcs[|pcs| - 1] in busy
  {
    assert pcs[|pcs| - 1] in Elems(pcs);
  }

  lemma TailKeepsSplit(lst: seq<nat>, lst': seq<nat>, pcs: seq<nat>, busy: set<nat>)
    requires SplitList(lst, pcs, busy) && pcs != []
    requires NoDup(lst') && Elems(lst') == Elems(lst) + {pcs[|pcs| - 1]}
    ensures SplitList(lst', pcs[..|pcs| - 1], busy)
  {
    assert pcs == pcs[..|pcs| - 1] + [pcs[|pcs| - 1]];
    assert Elems(pcs) == Elems(pcs[..|pcs| - 1]) + {pcs[|pcs| - 1]};
  }

  lemma WantOneMore(has: set<nat>, lst: seq<nat>, k: nat)
    requires NoDup(lst) && k < |lst|
    ensures |has * Elems(lst[..k + 1])| == |has * Elems(lst[..k])| + (if lst[k] in has then 1 else 0)
    ensures lst[k] in has ==> |has * Elems(lst[..k])| < |has|
  {
    assert lst[..k + 1] == lst[..k] + [lst[k]];
    assert Elems(lst[..k + 1]) == Elems(lst[..k]) + {lst[k]};
    assert lst[k] !in Elems(lst[..k]);
    MeetGrow(has, Elems(lst[..k]), lst[k]);
    SubsetCard(has * Elems(lst[..k + 1]), has);
  }

  lemma WantKeepsBase(n: Net, p: nat)
    requires Base(n) && p in n.order && n.peers[p].nwant < n.peers[p].npieces
    ensures Base(n.(peers := n.peers[p := Want(n.peers[p])]))
  {
    var pr := Want(n.peers[p]);
    PutPeer(n.peers, p, pr);
    PutSameReqs(n.peers, n.peers, p, pr);
    SameReqsLedger(n.pieces, n.have, n.peers, n.peers[p := pr]);
  }

  lemma RewantIsOnePeer(n: Net, m: Net, p: nat)
    requires PiecesOk(n.nblocks, n.have, n.endgame, n.pieces)
    requires p in n.peers && p in m.peers && m == n.(peers := n.peers[p := m.peers[p]])
    requires m.peers[p].reqs == n.peers[p].reqs && SameRecord(n.peers[p], m.peers[p])
    ensures OnePeer(n, m, p)
  {
  }

  lemma OnePeerTransitive(n: Net, m: Net, l: Net, p: nat)
    requires OnePeer(n, m, p) && OnePeer(m, l, p)
    ensures OnePeer(n, l, p)
  {
    forall i | i in n.pieces
      ensures i in l.pieces && i < |n.have| && GrewPiece(n.pieces[i], l.pieces[i], n.have[i])
    {
      assert GrewPiece(n.pieces[i], m.pieces[i], n.have[i]) && GrewPiece(m.pieces[i], l.pieces[i], n.have[i]);
    }
  }

  lemma PutTwice<K, T>(m: map<K, T>, k: K, a: T, b: T)
    ensures m[k := a][k := b] == m[k := b]
  {
  }

  lemma ConvertedLive(lst: seq<nat>, pieces: map<nat, Piece>, pieces': map<nat, Piece>, have: seq<set<nat>>)
    requires AllLive(pieces, have) && Converted(lst, |lst|, pieces, pieces') && Elems(lst) == pieces.Keys
    ensures AllLive(pieces', have)
  {
    forall i | i in pieces'
      ensures i < |have| && LiveOnly(pieces'[i].reqs, have[i])
    {
      assert i in Elems(lst);
      assert pieces'[i] == EgPiece(pieces[i]);
      assert LiveOnly(pieces[i].reqs, have[i]);
    }
  }

  /** p is wanted for the first k pieces of getlst. */
  ghost predicate WantedTo(n: Net, m: Net, p: nat, k: nat) {
    && m == n.(peers := m.peers) && p in n.peers && p in n.has && p in m.peers
    && Base(m) && m.peers == n.peers[p := m.peers[p]]
    && m.peers[p].reqs == n.peers[p].reqs && SameRecord(n.peers[p], m.peers[p])
    && k <= |n.getlst| && m.peers[p].nwant == |n.has[p] * Elems(n.getlst[..k])|
  }

  lemma WantedFrom(n: Net, p: nat)
    requires Base(n) && p in n.order && n.peers[p].nwant == 0
    ensures WantedTo(n, n, p, 0)
  {
    assert n.has[p] * Elems(n.getlst[..0]) == {};
    assert n.peers == n.peers[p := n.peers[p]];
  }

  lemma WantedEnd(n: Net, m: Net, p: nat, k: nat)
    requires PiecesOk(n.nblocks, n.have, n.endgame, n.pieces) && Elems(n.getlst) == n.busy
    requires k == |n.getlst| && WantedTo(n, m, p, k)
    ensures OnePeer(n, m, p) && m.peers[p].nwant == |m.has[p] * m.busy|
  {
    assert n.getlst[..k] == n.getlst;
    RewantIsOnePeer(n, m, p);
  }

  lemma WantedStep(n: Net, m: Net, p: nat, k: nat)
    requires NoDup(n.getlst) && k < |n.getlst| && WantedTo(n, m, p, k) && p in n.order
    ensures n.getlst[k] in m.has[p] ==>
      m.peers[p].nwant < m.peers[p].npieces && m.peers[p].Settled() &&
      WantedTo(n, m.(peers := m.peers[p := Want(m.peers[p])]), p, k + 1)
    ensures n.getlst[k] !in m.has[p] ==> WantedTo(n, m, p, k + 1)
  {
    WantOneMore(n.has[p], n.getlst, k);
    if n.getlst[k] in m.has[p] {
      WantKeepsBase(m, p);
      PutTwice(n.peers, p, m.peers[p], Want(m.peers[p]));
    }
  }

  /** End game has been entered and the first k peers have been asked. */
  ghost predicate Welcomed(n: Net, m: Net, k: nat) {
    && m.busy == n.busy
    && Base(m) && m.endgame && Grew(n, m)
    && Linked(m.getlst, m.busy) && Sorted(m) && AllLive(m.pieces, m.have)
    && WantSplit(m.order, k, m.peers, m.has, {}, m.busy)
    && BusyEgUpto(m, k)
  }

  /** The same, kept folded until a step of the loop needs its parts. */
  ghost predicate Welcoming(n: Net, m: Net, k: nat) {
    forall j: nat {:trigger Welcomed(n, m, j)} :: j == k ==> Welcomed(n, m, j)
  }

  lemma WelcomeReady(n: Net, m: Net, k: nat)
    requires Welcoming(n, m, k) && k < |n.order|
    ensures m.order == n.order && m.order[k] in m.peers && m.peers[m.order[k]].nwant == 0
    ensures Base(m) && m.endgame && Linked(m.getlst, m.busy) && Sorted(m)
  {
    assert Welcomed(n, m, k);
    assert m.has[m.order[k]] * {} == {};
  }

  lemma WelcomeStep(n: Net, m: Net, l: Net, k: nat)
    requires Welcoming(n, m, k) && m.order == n.order && k < |m.order| && OnePeer(m, l, m.order[k])
    requires Base(l) && Linked(l.getlst, l.busy) && Sorted(l)
    requires l.peers[m.order[k]].nwant == |m.has[m.order[k]] * m.busy| && BusyEg(l, m.order[k])
    requires m.order[k] in m.chokes ==> l.peers[m.order[k]].reqs == m.peers[m.order[k]].reqs
    ensures Welcoming(n, l, k + 1)
  {
    assert Welcomed(n, m, k);
    OnePeerGrows(n, m, l, m.order[k]);
    GrewKeepsLive(m.pieces, l.pieces, m.have);
    WantSplitStep(m.order, k, m.peers, m.has, {}, m.busy, l.peers[m.order[k]]);
    BusyEgStep(m, l, k);
  }

  lemma WelcomeStart(n: Net, m: Net)
    requires Base(n) && !n.endgame && Linked(n.getlst, n.busy)
    requires WantOk(n.order, n.peers, n.has, {})
    requires Base(m) && m == n.(endgame := true, pieces := m.pieces, getlst := m.getlst)
    requires Converted(n.getlst, |n.getlst|, n.pieces, m.pieces)
    requires Linked(m.getlst, m.busy) && Sorted(m)
    ensures Welcomed(n, m, 0)
  {
    DownIsLive(n);
    ConvertedLive(n.getlst, n.pieces, m.pieces, n.have);
    WantSplitEnds(n.order, n.peers, n.has, {}, n.busy);
    SamePeersGrew(n, m);
  }

  lemma WelcomeEnd(n: Net, m: Net)
    requires Core(n) && !n.endgame && WantSet(n) == {}
    requires Welcoming(n, m, |n.order|)
    ensures EgInv(m) && Grew(n, m) && m.busy == n.busy
  {
    assert Welcomed(n, m, |n.order|);
    NothingWanted(n);
    WantSplitEnds(m.order, m.peers, m.has, {}, m.busy);
  }

  // ---------- When end game begins ----------

  lemma NotOverfull(pc: Piece, nblocks: nat, have: set<nat>)
    requires PieceOk(pc, nblocks, have, false) && Bounded(have, nblocks)
    ensures pc.ngot + pc.nbusy <= nblocks
  {
    assert |have + pc.down| == |have| + |pc.down|;
    forall c | c in have + pc.down ensures c in Range(nblocks) {
      if c in pc.down {
        assert c in Asked(pc.reqs);
      }
    }
    SubsetCard(have + pc.down, Range(nblocks));
  }

  lemma TakenIsAsked(n: Net, i: nat, b: nat)
    requires Core(n) && !n.endgame && i in n.pieces && b in n.pieces[i].down
    ensures Outstanding(n, i, b)
  {
    assert PieceOk(n.pieces[i], n.nblocks[i], n.have[i], false);
    var r :| r in n.pieces[i].reqs && r.block == b;
    assert Req(r.peer, b) == r;
    assert Listed(n.pieces, n.have, r.peer, i, b);
    assert Asks(n.peers, r.peer, i, b);
  }

  /** A full piece has every missing block requested. */
  lemma FullIsRequested(n: Net, i: nat, b: nat)
    requires Core(n) && !n.endgame && i in n.pieces && i < |n.nblocks| && Full(n.pieces[i], n.nblocks[i]) &&
      Missing(n, i, b)
    ensures Outstanding(n, i, b)
  {
    var pc, have := n.pieces[i], n.have[i];
    assert PieceOk(pc, n.nblocks[i], have, false);
    NotOverfull(pc, n.nblocks[i], have);
    assert |have + pc.down| == |have| + |pc.down|;
    forall c | c in have + pc.down
      ensures c in Range(n.nblocks[i])
    {
      if c in pc.down {
        assert c in Asked(pc.reqs);
      }
    }
    SubsetCard(have + pc.down, Range(n.nblocks[i]));
    assert b in Range(n.nblocks[i]) && b in have + pc.down;
    TakenIsAsked(n, i, b);
  }

  /** With nothing left to start on or to fill, everything missing has been asked for. */
  lemma NothingWantedAllAsked(n: Net)
    requires Core(n) && !n.endgame && WantSet(n) == {}
    ensures AllAsked(n)
  {
    forall i: nat, b: nat | Missing(n, i, b)
      ensures Outstanding(n, i, b)
    {
      assert i !in WantSet(n) && !Wanted(n, i);
      FullIsRequested(n, i, b);
    }
  }

  lemma GrewAllAsked(n: Net, m: Net)
    requires AllAsked(n) && Grew(n, m)
    ensures AllAsked(m)
  {
    forall i: nat, b: nat | Missing(m, i, b)
      ensures Outstanding(m, i, b)
    {
      assert Missing(n, i, b);
      var q :| Asks(n.peers, q, i, b);
      assert n.peers[q].reqs <= m.peers[q].reqs;
      assert Asks(m.peers, q, i, b);
    }
  }

  /** The state in which end game begins. */
  ghost predicate EgBegun(n: Net) {
    EgInv(n) && AllAsked(n)
  }

  // ---------- Assigning requests outside end game ----------

  /** A piece that is not full has a block that is neither stored nor requested. */
  lemma FreeBlock(pc: Piece, nblocks: nat, have: set<nat>) returns (b: nat)
    requires PieceOk(pc, nblocks, have, false) && Bounded(have, nblocks) && !Full(pc, nblocks)
    ensures b < nblocks && b !in have && b !in pc.down
  {
    var taken := have + pc.down;
    assert |taken| == |have| + |pc.down|;
    forall c | c in taken ensures c in Range(nblocks) {
      if c in pc.down {
        assert c in Asked(pc.reqs);
      }
    }
    SubsetCard(taken, Range(nblocks));
    assert taken != Range(nblocks);
    b :| b in Range(nblocks) && b !in taken;
  }

  /** Whoever is asked for a block of the piece is in the piece's list, for a block we lack. */
  lemma AsksAreLive(n: Net, i: nat)
    requires Core(n) && i in n.pieces && i < |n.have|
    ensures forall q, b :: Asks(n.peers, q, i, b) ==> Req(q, b) in Live(n.pieces[i].reqs, n.have[i])
    ensures forall q, b :: Asks(n.peers, q, i, b) ==> b in Asked(n.pieces[i].reqs)
  {
    forall q, b | Asks(n.peers, q, i, b)
      ensures Req(q, b) in Live(n.pieces[i].reqs, n.have[i]) && b in Asked(n.pieces[i].reqs)
    {
      assert Listed(n.pieces, n.have, q, i, b);
      assert Req(q, b).block == b;
    }
  }

  /** A block that is not marked as taken is requested from no one. */
  lemma FreeIsUnasked(n: Net, i: nat, p: nat)
    requires Core(n) && !n.endgame && i in n.pieces && n.pieces[i].next !in n.pieces[i].down
    ensures !Asks(n.peers, p, i, n.pieces[i].next)
  {
    AsksAreLive(n, i);
    assert PieceOk(n.pieces[i], n.nblocks[i], n.have[i], false);
  }

  lemma WantSetOfPiece(n: Net, m: Net, i: nat)
    requires i in n.pieces && i in m.pieces && i < |n.nblocks| && i !in n.got && !n.endgame
    requires m == n.(pieces := n.pieces[i := m.pieces[i]], peers := m.peers)
    ensures WantSet(m) == if Full(m.pieces[i], n.nblocks[i]) then WantSet(n) - {i} else WantSet(n) + {i}
  {
    forall j
      ensures j in WantSet(m) <==> j in (if Full(m.pieces[i], n.nblocks[i]) then WantSet(n) - {i} else WantSet(n) + {i})
    {
      assert j in WantSet(m) <==> Wanted(m, j);
      assert j in WantSet(n) <==> Wanted(n, j);
    }
  }

  // ---------- Want levels ----------

  /** The first k attached peers have had their want level adjusted from w to w'. */
  ghost predicate Rewanted(n: Net, m: Net, k: nat, w: set<nat>, w': set<nat>) {
    && m == n.(peers := m.peers)
    && SameReqs(n.peers, m.peers) && AllRecorded(n.peers, m.peers) && AllSettled(m.peers)
    && DetachedSame(n.order, n.peers, m.peers)
    && WantSplit(n.order, k, m.peers, n.has, w, w')
  }

  lemma RewantStep(n: Net, m: Net, k: nat, w: set<nat>, w': set<nat>, pr: Peer)
    requires Rewanted(n, m, k, w, w') && NoDup(n.order) && k < |n.order| && n.order[k] in m.peers
    requires pr.Settled() && pr.reqs == m.peers[n.order[k]].reqs && SameRecord(m.peers[n.order[k]], pr)
    requires n.order[k] in n.has && pr.nwant == |n.has[n.order[k]] * w'|
    ensures Rewanted(n, m.(peers := m.peers[n.order[k] := pr]), k + 1, w, w')
  {
    var q := n.order[k];
    WantSplitStep(n.order, k, m.peers, n.has, w, w', pr);
    PutPeer(m.peers, q, pr);
    PutSameReqs(n.peers, m.peers, q, pr);
    PutRecorded(n.peers, m.peers, q, pr);
    PutDetachedSame(n.order, n.peers, m.peers, q, pr);
  }

  /** What the want loops need to know of the peer list. */
  ghost predicate Attached(n: Net) {
    && NoDup(n.order) && HeldOk(n.order, n.peers, n.has)
    && forall a :: 0 <= a < |n.order| ==> n.order[a] in n.peers && n.order[a] in n.has
  }

  lemma RewantStart(n: Net, w: set<nat>, w': set<nat>)
    requires Base(n) && WantOk(n.order, n.peers, n.has, w)
    ensures Attached(n) && Rewanted(n, n, 0, w, w')
  {
    WantSplitEnds(n.order, n.peers, n.has, w, w');
    forall a | 0 <= a < |n.order|
      ensures n.order[a] in n.peers && n.order[a] in n.has
    {
      assert n.order[a] in Elems(n.order);
    }
  }

  lemma WantReady(n: Net, m: Net, k: nat, w: set<nat>, i: nat)
    requires Attached(n) && Rewanted(n, m, k, w, w + {i}) && k < |n.order| && i !in w
    ensures n.order[k] in m.peers && n.order[k] in n.has && m.peers[n.order[k]].Settled()
    ensures |n.has[n.order[k]] * (w + {i})| == m.peers[n.order[k]].nwant + (if i in n.has[n.order[k]] then 1 else 0)
    ensures i in n.has[n.order[k]] ==> m.peers[n.order[k]].nwant < m.peers[n.order[k]].npieces
  {
    var q := n.order[k];
    assert q in n.order;
    MeetGrow(n.has[q], w, i);
    SubsetCard(n.has[q] * (w + {i}), n.has[q]);
  }

  lemma UnwantReady(n: Net, m: Net, k: nat, w: set<nat>, i: nat)
    requires Attached(n) && Rewanted(n, m, k, w + {i}, w) && k < |n.order| && i !in w
    ensures n.order[k] in m.peers && n.order[k] in n.has && m.peers[n.order[k]].Settled()
    ensures m.peers[n.order[k]].nwant == |n.has[n.order[k]] * w| + (if i in n.has[n.order[k]] then 1 else 0)
  {
    var q := n.order[k];
    assert q in n.order;
    MeetGrow(n.has[q], w, i);
  }

  lemma RewantEnd(n: Net, m: Net, k: nat, w: set<nat>, w': set<nat>)
    requires Base(n) && k == |n.order| && Rewanted(n, m, k, w, w')
    ensures Base(m) && WantOk(m.order, m.peers, m.has, w')
  {
    SameReqsLedger(n.pieces, n.have, n.peers, m.peers);
    WantSplitEnds(n.order, m.peers, n.has, w, w');
  }

  /** Every piece is verified or busy exactly when the counters say so. */
  lemma BusyAndGot(n: Net)
    requires Core(n)
    ensures n.ngot + n.nbusy == |n.nblocks| <==> n.got + n.busy == Range(|n.nblocks|)
    ensures !n.endgame && n.got + n.busy != Range(|n.nblocks|) ==> WantSet(n) != {}
  {
    assert |n.got + n.busy| == |n.got| + |n.busy|;
    assert n.got + n.busy <= Range(|n.nblocks|);
    SubsetCard(n.got + n.busy, Range(|n.nblocks|));
    if !n.endgame && n.got + n.busy != Range(|n.nblocks|) {
      var i :| i in Range(|n.nblocks|) && i !in n.got + n.busy;
      assert Wanted(n, i) && i in WantSet(n);
    }
  }

  ghost predicate FullUpto(n: Net, k: nat) {
    forall a :: 0 <= a < k && a < |n.getlst| ==>
      n.getlst[a] in n.pieces && n.getlst[a] < |n.nblocks| && Full(n.pieces[n.getlst[a]], n.nblocks[n.getlst[a]])
  }

  lemma UnfullIsWanted(n: Net, k: nat)
    requires Core(n) && !n.endgame && Linked(n.getlst, n.busy) && k < |n.getlst| && FullUpto(n, k)
    ensures n.getlst[k] in n.pieces && n.getlst[k] < |n.nblocks|
    ensures if Full(n.pieces[n.getlst[k]], n.nblocks[n.getlst[k]]) then FullUpto(n, k + 1) else WantSet(n) != {}
  {
    var i := n.getlst[k];
    assert i in Elems(n.getlst);
    if !Full(n.pieces[i], n.nblocks[i]) {
      assert Wanted(n, i) && i in WantSet(n);
    }
  }

  lemma AllFull(n: Net)
    requires Core(n) && !n.endgame && Linked(n.getlst, n.busy)
    requires n.got + n.busy == Range(|n.nblocks|) && FullUpto(n, |n.getlst|)
    ensures WantSet(n) == {}
  {
    forall i | i in n.busy
      ensures i in n.pieces && i < |n.nblocks| && Full(n.pieces[i], n.nblocks[i])
    {
      assert i in Elems(n.getlst);
      assert exists a :: 0 <= a < |n.getlst| && n.getlst[a] == i;
    }
    forall i | i in n.got + n.busy
      ensures !Wanted(n, i)
    {
    }
  }

  lemma WantSetStays(n: Net, m: Net)
    requires m.nblocks == n.nblocks && m.got == n.got && m.endgame == n.endgame && m.pieces == n.pieces
    ensures WantSet(m) == WantSet(n)
  {
    forall i
      ensures i in WantSet(m) <==> i in WantSet(n)
    {
      assert Wanted(m, i) <==> Wanted(n, i);
    }
  }

  lemma SameReqsGrew(n: Net, m: Net)
    requires m == n.(peers := m.peers) && SameReqs(n.peers, m.peers) && AllRecorded(n.peers, m.peers)
    requires DetachedSame(n.order, n.peers, m.peers)
    ensures Grew(n, m)
  {
  }

  lemma GrewTransitive(n: Net, m: Net, l: Net)
    requires Grew(n, m) && Grew(m, l)
    ensures Grew(n, l)
  {
    forall q | q in n.peers
      ensures q in l.peers && n.peers[q].reqs <= l.peers[q].reqs
    {
      assert n.peers[q].reqs <= m.peers[q].reqs <= l.peers[q].reqs;
    }
  }

  // ---------- dl_piece_assign_requests ----------

  ghost predicate MovedNext(n: Net, m: Net, i: nat) {
    && i in n.pieces && i in m.pieces
    && m == n.(pieces := n.pieces[i := n.pieces[i].(next := m.pieces[i].next)])
  }

  lemma MovedNextRefl(n: Net, i: nat)
    requires i in n.pieces
    ensures MovedNext(n, n, i)
  {
    assert n.pieces == n.pieces[i := n.pieces[i]];
  }

  lemma MovedNextStep(n: Net, m: Net, i: nat)
    requires Base(m) && MovedNext(n, m, i)
    ensures MovedNext(n, Advanced(m, i), i)
  {
    var next := Inc(m.pieces[i].next, m.nblocks[i]);
    PutTwice(n.pieces, i, m.pieces[i], m.pieces[i].(next := next));
  }

  lemma MovedNextIsMore(n: Net, m: Net, i: nat, p: nat)
    requires Base(n) && MovedNext(n, m, i) && p in n.peers
    ensures AskedMore(n, m, i, p)
  {
    PutSame(n.peers, p);
    assert PieceOk(n.pieces[i], n.nblocks[i], n.have[i], n.endgame);
    AskedIsMore(n, m, i, p);
  }

  lemma AskedMoreRefl(n: Net, i: nat, p: nat)
    requires Base(n) && i in n.pieces && p in n.peers
    ensures AskedMore(n, n, i, p)
  {
    MovedNextRefl(n, i);
    MovedNextIsMore(n, n, i, p);
  }

  /**
   The loop of dl_piece_assign_requests, k blocks on from the next block that pc0 had: all those
   are stored or have been asked for, and of the others none has been asked for since.
   */
  ghost predicate TurnOf(pc0: Piece, pc: Piece, have: set<nat>, nblocks: nat, k: nat) {
    && pc0.next < nblocks && k <= nblocks && pc.next == Ahead(pc0.next, k, nblocks) && pc0.down <= pc.down
    && (forall b: nat :: b < nblocks && Offset(pc0.next, b, nblocks) < k ==> b in have || b in pc.down)
    && (forall b :: b in pc.down && b !in pc0.down ==> b < nblocks && Offset(pc0.next, b, nblocks) < k)
  }

  lemma TurnStart(pc: Piece, have: set<nat>, nblocks: nat)
    requires pc.next < nblocks
    ensures TurnOf(pc, pc, have, nblocks, 0)
  {
  }

  lemma TurnMoves(pc0: Piece, pc: Piece, pc': Piece, have: set<nat>, nblocks: nat, k: nat)
    requires TurnOf(pc0, pc, have, nblocks, k) && k < nblocks && pc'.next == Inc(pc.next, nblocks)
    requires pc.next in have || pc.next in pc'.down
    requires pc'.down == pc.down || pc'.down == pc.down + {pc.next}
    ensures TurnOf(pc0, pc', have, nblocks, k + 1)
  {
    assert Offset(pc0.next, pc.next, nblocks) == k;
    forall b: nat | b < nblocks && Offset(pc0.next, b, nblocks) < k + 1
      ensures b in have || b in pc'.down
    {
      assert Offset(pc0.next, b, nblocks) == k ==> b == pc.next;
    }
  }

  /** While the piece is not full some block is left. */
  lemma TurnGoesOn(pc0: Piece, pc: Piece, have: set<nat>, nblocks: nat, k: nat)
    requires TurnOf(pc0, pc, have, nblocks, k) && PieceOk(pc, nblocks, have, false) && Bounded(have, nblocks)
    requires !Full(pc, nblocks)
    ensures k < nblocks
  {
    var b := FreeBlock(pc, nblocks, have);
    assert Offset(pc0.next, b, nblocks) < nblocks;
  }

  /** Blocks are asked for in turn, from next_block on: none is passed over that could have been asked for. */
  ghost predicate InTurn(n: Net, m: Net, i: nat) {
    && i in n.pieces && i in m.pieces && i < |n.nblocks| && i < |n.have| && n.pieces[i].next < n.nblocks[i]
    && forall b, c: nat ::
         b in m.pieces[i].down && b !in n.pieces[i].down && b < n.nblocks[i] && c < n.nblocks[i]
         && Offset(n.pieces[i].next, c, n.nblocks[i]) < Offset(n.pieces[i].next, b, n.nblocks[i]) ==>
           c in n.have[i] || c in m.pieces[i].down
  }

  lemma TurnEnds(n: Net, m: Net, i: nat, k: nat)
    requires i in n.pieces && i in m.pieces && i < |n.nblocks| && i < |n.have|
    requires TurnOf(n.pieces[i], m.pieces[i], n.have[i], n.nblocks[i], k)
    ensures InTurn(n, m, i)
  {
  }

  lemma TurnSkip(pc0: Piece, m: Net, i: nat, k: nat)
    requires Base(m) && !m.endgame && i in m.pieces && !Full(m.pieces[i], m.nblocks[i])
    requires TurnOf(pc0, m.pieces[i], m.have[i], m.nblocks[i], k)
    requires m.pieces[i].next in m.have[i] || m.pieces[i].next in m.pieces[i].down
    ensures TurnOf(pc0, Advanced(m, i).pieces[i], m.have[i], m.nblocks[i], k + 1)
  {
    TurnGoesOn(pc0, m.pieces[i], m.have[i], m.nblocks[i], k);
    TurnMoves(pc0, m.pieces[i], Advanced(m, i).pieces[i], m.have[i], m.nblocks[i], k);
  }

  lemma TurnAsk(pc0: Piece, m: Net, i: nat, p: nat, k: nat)
    requires Base(m) && !m.endgame && CanRequest(m, p, i) && !Full(m.pieces[i], m.nblocks[i])
    requires TurnOf(pc0, m.pieces[i], m.have[i], m.nblocks[i], k)
    ensures var pc := PieceAsked(m.pieces[i], p, false);
      TurnOf(pc0, pc.(next := Inc(pc.next, m.nblocks[i])), m.have[i], m.nblocks[i], k + 1)
  {
    var pc := PieceAsked(m.pieces[i], p, false);
    TurnGoesOn(pc0, m.pieces[i], m.have[i], m.nblocks[i], k);
    TurnMoves(pc0, m.pieces[i], pc.(next := Inc(pc.next, m.nblocks[i])), m.have[i], m.nblocks[i], k);
  }

  lemma OffsetShrinks(next: nat, b: nat, nblocks: nat)
    requires next < nblocks && b < nblocks && next != b
    ensures Offset(Inc(next, nblocks), b, nblocks) < Offset(next, b, nblocks)
  {
  }

  lemma HolderIsWanted(n: Net, i: nat, p: nat)
    requires WantOk(n.order, n.peers, n.has, WantSet(n)) && p in n.order
    requires p in n.has && i in n.has[p] && i in WantSet(n)
    ensures p in n.peers && n.peers[p].nwant > 0
  {
    assert i in n.has[p] * WantSet(n);
  }

  /** The requests of peers other than p are the same. */
  ghost predicate OthersSame(peers: map<nat, Peer>, peers': map<nat, Peer>, p: nat) {
    forall q :: q in peers && q != p ==> q in peers' && peers'[q].reqs == peers[q].reqs
  }

  /**
   The outcome of dl_piece_assign_requests on piece i and peer p: end game begins exactly when
   i was the last piece with a block to request and it is full now; otherwise i is full or p is
   laden, and want levels follow the pieces that are left to request.
   */
  ghost predicate Assigned(n: Net, m: Net, i: nat, p: nat) {
    && Grew(n, m) && m.busy == n.busy
    && (m.endgame ==> EgBegun(m) && WantSet(n) == {i})
    && (!m.endgame ==> AssignedNormal(n, m, i, p))
  }

  ghost predicate AssignedNormal(n: Net, m: Net, i: nat, p: nat) {
    && Base(m) && m == n.(pieces := m.pieces, peers := m.peers)
    && i in n.pieces && i in m.pieces && m.pieces == n.pieces[i := m.pieces[i]]
    && OthersSame(n.peers, m.peers, p)
    && WantOk(m.order, m.peers, m.has, WantSet(m)) && WantSet(m) != {}
    && p in m.peers && i < |m.nblocks|
    && if Full(m.pieces[i], m.nblocks[i]) then WantSet(m) == WantSet(n) - {i}
       else WantSet(m) == WantSet(n) && m.peers[p].Laden()
  }

  /** Before dl_on_piece_full: want levels still follow the old set. */
  lemma FilledPiece(n: Net, m: Net, i: nat, p: nat)
    requires Base(n) && !n.endgame && WantOk(n.order, n.peers, n.has, WantSet(n))
    requires i in WantSet(n) && p in n.order && p !in n.chokes
    requires Base(m) && AskedMore(n, m, i, p)
    ensures Grew(n, m) && WantOk(m.order, m.peers, m.has, WantSet(n)) && OthersSame(n.peers, m.peers, p)
    ensures WantSet(m) == if Full(m.pieces[i], m.nblocks[i]) then WantSet(n) - {i} else WantSet(n)
    ensures Full(m.pieces[i], m.nblocks[i]) ==> WantSet(m) + {i} == WantSet(n)
  {
    AskedMoreGrew(n, m, i, p);
    AskedMoreWantOk(n, m, i, p, WantSet(n));
    WantSetOfPiece(n, m, i);
    PutBack(WantSet(n), i);
  }

  lemma LadenAssigned(n: Net, m: Net, i: nat, p: nat)
    requires Base(m) && !m.endgame && AskedMore(n, m, i, p) && Grew(n, m) && OthersSame(n.peers, m.peers, p)
    requires WantOk(m.order, m.peers, m.has, WantSet(m)) && WantSet(m) == WantSet(n) && i in WantSet(n)
    requires !Full(m.pieces[i], m.nblocks[i]) && m.peers[p].Laden()
    ensures Assigned(n, m, i, p)
  {
  }

  lemma AskedMoreGrew(n: Net, m: Net, i: nat, p: nat)
    requires AskedMore(n, m, i, p) && p in n.order && p !in n.chokes
    ensures Grew(n, m) && OthersSame(n.peers, m.peers, p)
  {
  }

  lemma AskedMoreWantOk(n: Net, m: Net, i: nat, p: nat, w: set<nat>)
    requires AskedMore(n, m, i, p) && WantOk(n.order, n.peers, n.has, w)
    ensures WantOk(m.order, m.peers, m.has, w)
  {
  }

  lemma PieceFullAssigned(n: Net, m: Net, l: Net, i: nat, p: nat)
    requires !n.endgame && AskedMore(n, m, i, p) && Grew(n, m) && OthersSame(n.peers, m.peers, p)
    requires WantSet(m) == WantSet(n) - {i} && i in WantSet(n) && Full(m.pieces[i], m.nblocks[i])
    requires Grew(m, l) && l.busy == m.busy
    requires WantSet(m) == {} ==> EgBegun(l)
    requires WantSet(m) != {} ==>
        && Base(l) && l == m.(peers := l.peers) && SameReqs(m.peers, l.peers)
        && WantOk(l.order, l.peers, l.has, WantSet(l))
    ensures Assigned(n, l, i, p)
  {
    GrewTransitive(n, m, l);
    if WantSet(m) != {} {
      WantSetStays(m, l);
      PieceFullNormal(n, m, l, i, p);
    }
    PutBack(WantSet(n), i);
  }

  lemma PieceFullNormal(n: Net, m: Net, l: Net, i: nat, p: nat)
    requires AskedMore(n, m, i, p) && OthersSame(n.peers, m.peers, p)
    requires WantSet(l) == WantSet(n) - {i} && WantSet(l) != {} && Full(m.pieces[i], m.nblocks[i])
    requires Base(l) && l == m.(peers := l.peers) && SameReqs(m.peers, l.peers)
    requires WantOk(l.order, l.peers, l.has, WantSet(l))
    ensures AssignedNormal(n, l, i, p)
  {
  }

  // ---------- dl_on_piece_unfull ----------

  /** q chokes us, has a full pipe, or has none of the pieces in w. */
  ghost predicate Busy(n: Net, q: nat, w: set<nat>) {
    q in n.chokes || (q in n.peers && n.peers[q].Laden()) || (q in n.has && n.has[q] !! w)
  }

  ghost predicate AllBusy(n: Net, w: set<nat>) {
    forall q :: q in n.order ==> Busy(n, q, w)
  }

  ghost predicate BusyUpto(n: Net, k: nat, w: set<nat>) {
    forall a :: 0 <= a < k && a < |n.order| ==> Busy(n, n.order[a], w)
  }

  lemma GrewKeepsBusyOne(n: Net, m: Net, q: nat, w: set<nat>)
    requires Grew(n, m) && AllLoose(n.peers) && AllLoose(m.peers) && Busy(n, q, w)
    ensures Busy(m, q, w)
  {
    if q in n.peers && n.peers[q].Laden() {
      assert n.peers[q].Loose() && m.peers[q].Loose() && n.peers[q].reqs <= m.peers[q].reqs;
    }
  }

  lemma GrewKeepsBusy(n: Net, m: Net, w: set<nat>, k: nat, w': set<nat>)
    requires Grew(n, m) && AllLoose(n.peers) && AllLoose(m.peers)
    ensures AllBusy(n, w) ==> AllBusy(m, w)
    ensures BusyUpto(n, k, w') ==> BusyUpto(m, k, w')
  {
    forall q | q in n.order && Busy(n, q, w)
      ensures Busy(m, q, w)
    {
      GrewKeepsBusyOne(n, m, q, w);
    }
    forall a | 0 <= a < |n.order| && Busy(n, n.order[a], w')
      ensures Busy(m, n.order[a], w')
    {
      GrewKeepsBusyOne(n, m, n.order[a], w');
    }
  }

  /** A peer that cannot be asked for any piece in w. */
  lemma IdleForReason(n: Net, p: nat, i: nat, w: set<nat>)
    requires Core(n) && p in n.order && WantOk(n.order, n.peers, n.has, w + {i}) && Busy(n, p, w)
    requires !LeechOk(n, p) || i !in n.has[p]
    ensures Busy(n, p, w + {i})
  {
    assert p !in n.chokes && !n.peers[p].Laden() ==> LeechOk(n, p) || n.peers[p].nwant == 0;
    if i in n.has[p] {
      assert i in n.has[p] * (w + {i});
    } else {
      assert n.has[p] !! w ==> n.has[p] !! w + {i};
    }
  }

  ghost predicate Refilled(n: Net, m: Net, i: nat, w: set<nat>) {
    && Base(m) && !m.endgame && Grew(n, m)
    && m == n.(pieces := m.pieces, peers := m.peers) && i in m.pieces && m.pieces == n.pieces[i := m.pieces[i]]
    && WantOk(m.order, m.peers, m.has, WantSet(m)) && AllBusy(m, WantSet(m))
    && w <= WantSet(m) <= w + {i}
  }

  ghost predicate Refilling(n: Net, m: Net, i: nat, w: set<nat>) {
    && Base(m) && !m.endgame && Linked(m.getlst, m.busy) && Grew(n, m)
    && m == n.(pieces := m.pieces, peers := m.peers) && i in m.pieces && m.pieces == n.pieces[i := m.pieces[i]]
    && i < |m.nblocks|
    && WantSet(m) == (if Full(m.pieces[i], m.nblocks[i]) then w else w + {i})
    && WantOk(m.order, m.peers, m.has, WantSet(m))
    && AllBusy(m, w)
  }

  lemma RefillStart(n: Net, m: Net, i: nat, w: set<nat>)
    requires Base(n) && !n.endgame && Linked(n.getlst, n.busy)
    requires i in n.pieces && !Full(n.pieces[i], n.nblocks[i])
    requires WantSet(n) == w + {i} && AllBusy(n, w)
    requires Base(m) && m == n.(peers := m.peers) && SameReqs(n.peers, m.peers) && AllRecorded(n.peers, m.peers)
    requires DetachedSame(n.order, n.peers, m.peers)
    requires WantOk(m.order, m.peers, m.has, w + {i})
    ensures Refilling(n, m, i, w)
  {
    SameReqsGrew(n, m);
    WantSetStays(n, m);
    GrewKeepsBusy(n, m, w, 0, w + {i});
    MovedNextRefl(n, i);
  }

  lemma RefillReady(n: Net, m: Net, i: nat, w: set<nat>, k: nat)
    requires Refilling(n, m, i, w) && k < |m.order| && i !in w && !Full(m.pieces[i], m.nblocks[i])
    ensures i in WantSet(m) && m.order[k] in m.order && WantSet(m) == w + {i}
  {
  }

  lemma RefillStep(n: Net, m: Net, l: Net, i: nat, w: set<nat>, k: nat)
    requires Refilling(n, m, i, w) && BusyUpto(m, k, w + {i}) && k < |m.order| && i !in w && w != {}
    requires WantSet(m) == w + {i} && Assigned(m, l, i, m.order[k])
    ensures Refilling(n, l, i, w)
    ensures !Full(l.pieces[i], l.nblocks[i]) ==> BusyUpto(l, k + 1, w + {i})
  {
    TakeOut(w, i);
    GrewTransitive(n, m, l);
    GrewKeepsBusy(m, l, w, k, w + {i});
    PutTwice(n.pieces, i, m.pieces[i], l.pieces[i]);
    if !Full(l.pieces[i], l.nblocks[i]) {
      BusyUptoStep(l, k, w + {i});
    }
  }

  lemma BusyUptoStep(n: Net, k: nat, w: set<nat>)
    requires k < |n.order| && BusyUpto(n, k, w) && Busy(n, n.order[k], w)
    ensures BusyUpto(n, k + 1, w)
  {
  }

  lemma RefillSkip(n: Net, m: Net, i: nat, w: set<nat>, k: nat)
    requires Refilling(n, m, i, w) && BusyUpto(m, k, w + {i}) && k < |m.order| && !Full(m.pieces[i], m.nblocks[i])
    requires !LeechOk(m, m.order[k]) || (m.order[k] in m.has && i !in m.has[m.order[k]])
    ensures BusyUpto(m, k + 1, w + {i})
  {
    assert m.order[k] in m.order;
    IdleForReason(m, m.order[k], i, w);
    BusyUptoStep(m, k, w + {i});
  }

  lemma RefillEnd(n: Net, m: Net, i: nat, w: set<nat>, k: nat)
    requires Refilling(n, m, i, w)
    requires Full(m.pieces[i], m.nblocks[i]) || (k >= |m.order| && BusyUpto(m, k, w + {i}))
    ensures Refilled(n, m, i, w)
  {
    if !Full(m.pieces[i], m.nblocks[i]) {
      BusyAll(m, k, w + {i});
    }
  }

  lemma BusyAll(n: Net, k: nat, w: set<nat>)
    requires BusyUpto(n, k, w) && k >= |n.order|
    ensures AllBusy(n, w)
  {
  }

  // ---------- Starting on a piece ----------

  ghost function Started(n: Net, i: nat): Net
    requires i < |n.have|
  {
    n.(busy := n.busy + {i}, nbusy := n.nbusy + 1, getlst := n.getlst + [i],
       pieces := n.pieces[i := Piece(0, |n.have[i]|, 0, 0, [], {})])
  }

  lemma StartKeepsLedger(pieces: map<nat, Piece>, have: seq<set<nat>>, peers: map<nat, Peer>, i: nat, pc: Piece)
    requires Ledger(pieces, have, peers) && i !in pieces && pc.reqs == []
    ensures Ledger(pieces[i := pc], have, peers)
  {
    var pieces' := pieces[i := pc];
    forall q, j, c
      ensures Asks(peers, q, j, c) <==> Listed(pieces', have, q, j, c)
    {
      assert Asks(peers, q, j, c) <==> Listed(pieces, have, q, j, c);
    }
  }

  lemma StartedPieceOk(nblocks: nat, have: set<nat>)
    requires nblocks > 0
    ensures PieceOk(Piece(0, |have|, 0, 0, [], {}), nblocks, have, false)
  {
    assert Live([], have) == {};
    assert Asked([]) == {};
  }

  lemma StartKeepsLinked(getlst: seq<nat>, busy: set<nat>, i: nat)
    requires Linked(getlst, busy) && i !in busy
    ensures Linked(getlst + [i], busy + {i})
  {
    assert i !in Elems(getlst);
    NoDupPush(getlst, i);
    assert Elems(getlst + [i]) == Elems(getlst) + {i};
  }

  lemma StartKeepsBusyOk(npieces: nat, got: set<nat>, busy: set<nat>, nbusy: nat, pieces: map<nat, Piece>, i: nat,
                         pc: Piece)
    requires BusyOk(npieces, got, busy, nbusy, pieces) && i < npieces && i !in got && i !in busy
    ensures BusyOk(npieces, got, busy + {i}, nbusy + 1, pieces[i := pc])
  {
    OneMore(busy, i);
  }

  lemma StartKeepsBase(n: Net, i: nat)
    requires Base(n) && !n.endgame && Linked(n.getlst, n.busy)
    requires i < |n.nblocks| && i !in n.got && i !in n.busy && |n.have[i]| < n.nblocks[i]
    ensures Base(Started(n, i)) && Linked(Started(n, i).getlst, Started(n, i).busy)
    ensures WantSet(Started(n, i)) == WantSet(n) && Grew(n, Started(n, i))
  {
    var m := Started(n, i);
    StartKeepsLinked(n.getlst, n.busy, i);
    StartKeepsBusyOk(|n.nblocks|, n.got, n.busy, n.nbusy, n.pieces, i, m.pieces[i]);
    StartedPieceOk(n.nblocks[i], n.have[i]);
    StartKeepsLedger(n.pieces, n.have, n.peers, i, m.pieces[i]);
    AddPiece(n.nblocks, n.have, false, n.pieces, i, m.pieces[i]);
    StartKeepsWant(n, i);
    SamePeersGrew(n, m);
  }

  lemma SamePeersGrew(n: Net, m: Net)
    requires SameSetting(n, m) && m.peers == n.peers
    ensures Grew(n, m)
  {
  }

  lemma AddPiece(nblocks: seq<nat>, have: seq<set<nat>>, endgame: bool, pieces: map<nat, Piece>, i: nat, pc: Piece)
    requires PiecesOk(nblocks, have, endgame, pieces)
    requires i < |nblocks| && i < |have| && PieceOk(pc, nblocks[i], have[i], endgame)
    ensures PiecesOk(nblocks, have, endgame, pieces[i := pc])
  {
  }

  lemma StartKeepsWant(n: Net, i: nat)
    requires !n.endgame && i < |n.nblocks| && i < |n.have| && i !in n.pieces && |n.have[i]| < n.nblocks[i]
    ensures WantSet(Started(n, i)) == WantSet(n)
  {
    forall j
      ensures j in WantSet(Started(n, i)) <==> j in WantSet(n)
    {
      assert Wanted(Started(n, i), j) <==> Wanted(n, j);
    }
  }

  // ---------- The first loop of dl_assign_requests_eg ----------

  ghost predicate Taking(n: Net, m: Net, p: nat, k: nat, tmp: seq<nat>) {
    && Base(m) && m.endgame && AskedAll(n, m, p) && Sorted(m) && SplitList(m.getlst, tmp, m.busy)
    && p in m.has && m.peers[p].nwant > 0 && k <= |m.getlst|
    && (m.peers[p].Laden() || (AllExhausted(m, p, m.getlst[..k]) && AllExhausted(m, p, tmp)))
  }

  lemma TakingStart(n: Net, p: nat)
    requires Base(n) && n.endgame && Linked(n.getlst, n.busy) && Sorted(n)
    requires LeechOk(n, p) && p in n.has
    ensures Taking(n, n, p, 0, [])
  {
    assert n.peers == n.peers[p := n.peers[p]];
    assert n.peers[p].Loose();
    assert Elems<nat>([]) == {};
  }

  lemma TakingReady(n: Net, m: Net, p: nat, k: nat, tmp: seq<nat>)
    requires Taking(n, m, p, k, tmp) && k < |m.getlst|
    ensures m.getlst[k] in m.pieces && m.getlst[k] < |m.nblocks|
  {
    assert m.getlst[k] in Elems(m.getlst);
  }

  lemma SkipTaking(n: Net, m: Net, p: nat, k: nat, tmp: seq<nat>)
    requires Taking(n, m, p, k, tmp) && k < |m.getlst|
    requires m.getlst[k] !in m.has[p] ||
      (m.getlst[k] in m.pieces && m.getlst[k] < |m.nblocks| && m.nblocks[m.getlst[k]] == m.pieces[m.getlst[k]].ngot)
    ensures Taking(n, m, p, k + 1, tmp)
  {
    TakingReady(n, m, p, k, tmp);
    if !m.peers[p].Laden() {
      SkipExhausts(m, p, k);
    }
  }

  lemma TakingStep(n: Net, m: Net, l: Net, p: nat, k: nat, tmp: seq<nat>)
    requires Taking(n, m, p, k, tmp) && k < |m.getlst| && !m.peers[p].Laden()
    requires Base(l) && AskedMore(m, l, m.getlst[k], p)
    requires l.peers[p].Laden() || AllRequestedOf(l.peers, p, m.getlst[k], l.nblocks[m.getlst[k]], l.have[m.getlst[k]])
    ensures l.getlst == m.getlst
    ensures Taking(n, l.(getlst := l.getlst[..k] + l.getlst[k + 1..]), p, k, [m.getlst[k]] + tmp)
  {
    var i := m.getlst[k];
    AskedAllStep(n, m, l, i, p);
    TakeKeepsSplit(l.getlst, tmp, k, l.busy);
    TakeKeepsSorted(m, l, i, p, k);
    if !l.peers[p].Laden() {
      TakeExhausts(m, l, i, p, k, tmp);
    }
    RelinkKeepsBase(l, l.getlst[..k] + l.getlst[k + 1..]);
  }

  lemma TakingEnd(n: Net, m: Net, p: nat, k: nat, tmp: seq<nat>)
    requires Taking(n, m, p, k, tmp) && (k == |m.getlst| || m.peers[p].Laden())
    ensures m.peers[p].Laden() || AllRequested(m, p)
  {
    if !m.peers[p].Laden() {
      assert m.getlst[..k] == m.getlst;
      AllExhaustedEnds(m, p, m.getlst, tmp);
    }
  }

  // ---------- dl_assign_requests ----------

  /** What dl_assign_requests expects, but for the peers' want levels. */
  ghost predicate Normal(n: Net) {
    && Base(n) && !n.endgame && Linked(n.getlst, n.busy)
    && Unfinished(n.nblocks, n.got, n.have)
    && WantOk(n.order, n.peers, n.has, WantSet(n))
  }

  ghost predicate AssignReady(n: Net, p: nat) {
    Normal(n) && p in n.order && LeechOk(n, p)
  }

  ghost predicate Assigning(n: Net, m: Net, p: nat) {
    && Grew(n, m) && p in n.order && p !in n.chokes
    && (m.endgame ==> EgBegun(m))
    && (!m.endgame ==> AssigningNormal(n, m, p))
  }

  ghost predicate AssigningNormal(n: Net, m: Net, p: nat) {
    Normal(m) && OthersSame(n.peers, m.peers, p) && WantSet(m) != {} && WantSet(m) <= WantSet(n)
  }

  /** p has no wanted piece in the list. */
  ghost predicate NoneOf(n: Net, p: nat, lst: seq<nat>) {
    forall i :: i in lst && p in n.has && i in n.has[p] ==> i !in WantSet(n)
  }

  ghost predicate AssignedUpto(n: Net, m: Net, p: nat, k: nat) {
    && Assigning(n, m, p) && p in m.peers && m.busy == n.busy
    && (!m.endgame ==> m.getlst == n.getlst && k <= |m.getlst| && (m.peers[p].Laden() || NoneOf(m, p, m.getlst[..k])))
  }

  lemma GrewRefl(n: Net)
    ensures Grew(n, n)
  {
  }

  /**
   The pieces that p was made to start on since n: of what it could start on, it was always a
   rarest piece. While end game is off they are the end of getlst, in the order of piece_count,
   and of the pieces that were busy before none is left that p could be asked for.
   */
  ghost predicate RarestNew(n: Net, m: Net, p: nat) {
    && n.busy <= m.busy && m.count == n.count && m.got == n.got && m.has == n.has
    && (forall i, j: nat :: i in m.busy - n.busy && Startable(m, p, j) && j < |m.count| ==>
         i < |m.count| && m.count[i] <= m.count[j])
    && (!m.endgame ==> n.getlst <= m.getlst && RarestTail(n, m))
    && (!m.endgame && m.busy != n.busy ==> NoneOf(m, p, n.getlst))
  }

  /** Nothing was started. */
  lemma NoneNew(n: Net, m: Net, p: nat)
    requires m.busy == n.busy && m.count == n.count && m.got == n.got && m.has == n.has
    requires m.endgame || m.getlst == n.getlst
    ensures RarestNew(n, m, p)
  {
  }

  ghost predicate RarestTail(n: Net, m: Net)
    requires |n.getlst| <= |m.getlst|
  {
    && (forall a :: |n.getlst| <= a < |m.getlst| ==>
         m.getlst[a] in m.busy - n.busy && m.getlst[a] < |m.count|)
    && (forall a, b :: |n.getlst| <= a < b < |m.getlst| ==> m.count[m.getlst[a]] <= m.count[m.getlst[b]])
  }

  lemma RarestStarted(n: Net, m: Net, p: nat, i: nat)
    requires RarestNew(n, m, p) && !m.endgame && i < |m.count| && i < |m.have| && Startable(m, p, i)
    requires RarestUpto(m, p, m.count[i], |m.count|)
    requires NoneOf(m, p, m.getlst) && WantSet(Started(m, i)) == WantSet(m)
    ensures RarestNew(n, Started(m, i), p)
  {
    var l := Started(m, i);
    forall k, j: nat | k in l.busy - n.busy && Startable(l, p, j) && j < |m.count|
      ensures k < |m.count| && m.count[k] <= m.count[j]
    {
      assert Startable(m, p, j);
      assert k == i || k in m.busy - n.busy;
    }
    RarestAppended(n, m, l, p, i);
  }

  lemma RarestAppended(n: Net, m: Net, l: Net, p: nat, i: nat)
    requires RarestNew(n, m, p) && !m.endgame && i < |m.count| && Startable(m, p, i) && l.count == m.count
    requires l.getlst == m.getlst + [i] && l.busy == m.busy + {i}
    ensures n.getlst <= l.getlst && RarestTail(n, l)
  {
    assert forall a :: 0 <= a < |m.getlst| ==> l.getlst[a] == m.getlst[a];
    assert i !in n.busy;
  }

  lemma RarestKept(n: Net, m: Net, l: Net, i: nat, p: nat)
    requires RarestNew(n, m, p) && !m.endgame && Assigned(m, l, i, p)
    ensures RarestNew(n, l, p)
  {
    AssignedFrame(m, l, i, p);
    RarestStays(n, m, l, p);
  }

  lemma AssignedFrame(m: Net, l: Net, i: nat, p: nat)
    requires Assigned(m, l, i, p)
    ensures l.busy == m.busy && l.count == m.count && l.got == m.got && l.has == m.has
    ensures !l.endgame ==> l.getlst == m.getlst && WantSet(l) <= WantSet(m)
  {
    if !l.endgame {
      AssignedShrinks(m, l, i, p);
    }
  }

  lemma RarestStays(n: Net, m: Net, l: Net, p: nat)
    requires RarestNew(n, m, p) && !m.endgame
    requires l.busy == m.busy && l.count == m.count && l.got == m.got && l.has == m.has
    requires !l.endgame ==> l.getlst == m.getlst && WantSet(l) <= WantSet(m)
    ensures RarestNew(n, l, p)
  {
    forall j | Startable(l, p, j)
      ensures Startable(m, p, j)
    {
    }
  }

  lemma AssigningStart(n: Net, p: nat)
    requires AssignReady(n, p)
    ensures Assigning(n, n, p)
  {
    GrewRefl(n);
    assert p in Elems(n.order);
    assert n.peers[p].Loose();
    assert n.has[p] * WantSet(n) != {};
  }

  lemma AttachedPeer(n: Net, m: Net, p: nat)
    requires Assigning(n, m, p)
    ensures p in m.order && p in m.peers && p !in m.chokes && (!m.endgame ==> p in m.has)
  {
    if !m.endgame {
      assert p in Elems(m.order);
    }
  }

  lemma ListedPiece(n: Net, k: nat)
    requires Base(n) && !n.endgame && Linked(n.getlst, n.busy) && k < |n.getlst|
    ensures n.getlst[k] in n.pieces && n.getlst[k] < |n.nblocks|
    ensures Full(n.pieces[n.getlst[k]], n.nblocks[n.getlst[k]]) <==> n.getlst[k] !in WantSet(n)
  {
    var i := n.getlst[k];
    assert i in Elems(n.getlst);
    assert i in WantSet(n) <==> Wanted(n, i);
  }

  lemma FullIsUnwanted(n: Net, i: nat)
    requires Core(n) && !n.endgame && i in n.pieces && i < |n.nblocks|
    ensures Full(n.pieces[i], n.nblocks[i]) <==> i !in WantSet(n)
  {
    assert i in WantSet(n) <==> Wanted(n, i);
  }

  lemma AssigningStep(n: Net, m: Net, l: Net, i: nat, p: nat)
    requires Assigning(n, m, p) && !m.endgame && Assigned(m, l, i, p)
    ensures Assigning(n, l, p) && l.busy == m.busy
    ensures !l.endgame ==> l.getlst == m.getlst && l.nbusy == m.nbusy
  {
    GrewTransitive(n, m, l);
    if !l.endgame {
      AssignedShrinks(m, l, i, p);
      SubsetTransitive(WantSet(l), WantSet(m), WantSet(n));
      OthersSameTransitive(n.peers, m.peers, l.peers, p);
    }
  }

  lemma AssignedShrinks(m: Net, l: Net, i: nat, p: nat)
    requires AssignedNormal(m, l, i, p)
    ensures WantSet(l) <= WantSet(m)
  {
  }

  lemma SubsetTransitive<T>(a: set<T>, b: set<T>, c: set<T>)
    requires a <= b <= c
    ensures a <= c
  {
  }

  lemma OthersSameTransitive(a: map<nat, Peer>, b: map<nat, Peer>, c: map<nat, Peer>, p: nat)
    requires OthersSame(a, b, p) && OthersSame(b, c, p)
    ensures OthersSame(a, c, p)
  {
  }

  lemma TurnReady(n: Net, m: Net, p: nat, k: nat)
    requires AssignedUpto(n, m, p, k) && k < |m.getlst| && !m.endgame
    ensures p in m.order && p in m.has && p !in m.chokes
    ensures m.getlst[k] in m.pieces && m.getlst[k] < |m.nblocks|
    ensures Full(m.pieces[m.getlst[k]], m.nblocks[m.getlst[k]]) <==> m.getlst[k] !in WantSet(m)
  {
    AttachedPeer(n, m, p);
    ListedPiece(m, k);
  }

  lemma TurnStep(n: Net, m: Net, l: Net, p: nat, k: nat)
    requires AssignedUpto(n, m, p, k) && k < |m.getlst| && !m.endgame && !m.peers[p].Laden()
    requires Assigned(m, l, m.getlst[k], p)
    ensures AssignedUpto(n, l, p, k + 1)
  {
    AssigningStep(n, m, l, m.getlst[k], p);
    AttachedPeer(n, l, p);
    AssignedNone(m, l, m.getlst[k], p, m.getlst[..k]);
    TakeNext(m.getlst, k);
  }

  lemma AssigningNew(n: Net, m: Net, l: Net, p: nat, i: nat)
    requires Assigning(n, m, p) && !m.endgame && i < |m.have| && l == Started(m, i)
    requires Base(l) && Linked(l.getlst, l.busy) && WantSet(l) == WantSet(m) && Grew(m, l)
    ensures Assigning(n, l, p)
  {
    GrewTransitive(n, m, l);
  }

  /** After assigning on i, p has nothing left to request of i. */
  lemma AssignedNone(m: Net, l: Net, i: nat, p: nat, lst: seq<nat>)
    requires Assigned(m, l, i, p) && NoneOf(m, p, lst)
    ensures !l.endgame && p in l.peers && !l.peers[p].Laden() ==> NoneOf(l, p, lst + [i])
  {
  }

  lemma AssignedEnd(n: Net, m: Net, p: nat, k: nat)
    requires AssignedUpto(n, m, p, k) && (k < |m.getlst| ==> m.endgame || m.peers[p].Laden())
    ensures !m.endgame ==> m.peers[p].Laden() || NoneOf(m, p, m.getlst)
  {
    if !m.endgame && !m.peers[p].Laden() {
      TakeAll(m.getlst);
    }
  }

  lemma SkipNone(n: Net, p: nat, k: nat)
    requires k < |n.getlst| && NoneOf(n, p, n.getlst[..k])
    requires n.getlst[k] !in WantSet(n) || (p in n.has && n.getlst[k] !in n.has[p])
    ensures NoneOf(n, p, n.getlst[..k + 1])
  {
    TakeNext(n.getlst, k);
  }

  lemma BusyBound(n: Net)
    requires Core(n)
    ensures n.nbusy <= |n.nblocks|
  {
    assert n.busy <= Range(|n.nblocks|);
    SubsetCard(n.busy, Range(|n.nblocks|));
  }

  lemma StartReady(n: Net, p: nat, i: nat)
    requires Normal(n) && i < |n.count| && Startable(n, p, i)
    ensures i < |n.nblocks| && i in WantSet(n) && n.nbusy < |n.nblocks|
  {
    assert Wanted(n, i);
    assert i !in n.busy && n.busy + {i} <= Range(|n.nblocks|);
    SubsetCard(n.busy + {i}, Range(|n.nblocks|));
  }

  lemma NoneStartable(n: Net, p: nat)
    requires Normal(n) && p in n.has && NoneOf(n, p, n.getlst)
    requires forall i :: 0 <= i < |n.count| ==> !Startable(n, p, i)
    ensures Busy(n, p, WantSet(n))
  {
    forall i | i in n.has[p]
      ensures i !in WantSet(n)
    {
      assert Wanted(n, i) ==> Startable(n, p, i) || i in Elems(n.getlst);
    }
  }
}
