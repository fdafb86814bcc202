/**
 The state of one torrent's downloader (struct net, struct piece and what they read of
 struct content) and the invariants that tie its redundant parts together.
 */
module NetState {
  import opened Lists
  import opened Peers

  /** A request as the piece's own list keeps it: who was asked, for which block. */
  datatype Req = Req(peer: nat, block: nat)

  /** A piece being downloaded. */
  datatype Piece = Piece(
    nreqs: nat,
    ngot: nat,
    nbusy: nat,
    next: nat,          // next_block
    reqs: seq<Req>,
    down: set<nat>)     // down_field

  datatype Net = Net(
    nblocks: seq<nat>,          // blocks of each piece
    endgame: bool,
    got: set<nat>,              // verified pieces
    ngot: nat,                  // npieces_got
    have: seq<set<nat>>,        // stored blocks of each piece
    busy: set<nat>,             // busy_field
    nbusy: nat,                 // npcs_busy
    getlst: seq<nat>,
    pieces: map<nat, Piece>,    // the pieces that getlst links
    order: seq<nat>,            // n->peers
    peers: map<nat, Peer>,
    has: map<nat, set<nat>>,    // piece_field of each peer
    chokes: set<nat>,           // peers with PF_P_CHOKE
    count: seq<nat>)            // piece_count

  /** piece_full */
  predicate Full(pc: Piece, nblocks: nat) {
    pc.ngot + pc.nbusy == nblocks
  }

  /** Requests for blocks that are still missing. */
  ghost function Live(reqs: seq<Req>, have: set<nat>): set<Req> {
    set r | r in reqs && r.block !in have
  }

  ghost function Asked(reqs: seq<Req>): set<nat> {
    set r | r in reqs :: r.block
  }

  ghost predicate OnePeerPerBlock(reqs: seq<Req>) {
    forall r, s :: r in reqs && s in reqs && r.block == s.block ==> r == s
  }

  /** One piece: its counters are the sizes of what they count, and its block sets fit together. */
  ghost predicate PieceOk(pc: Piece, nblocks: nat, have: set<nat>, endgame: bool) {
    && pc.next < nblocks
    && pc.ngot == |have|
    && NoDup(pc.reqs)
    && (forall r :: r in pc.reqs ==> r.block < nblocks)
    && pc.nreqs == |Live(pc.reqs, have)|
    && pc.nbusy == |pc.down|
    && (endgame ==> pc.down == {})
    && (!endgame ==> pc.down == Asked(pc.reqs) && pc.down !! have && OnePeerPerBlock(pc.reqs))
  }

  ghost predicate TorrentOk(nblocks: seq<nat>, got: set<nat>, ngot: nat, have: seq<set<nat>>) {
    && |have| == |nblocks|
    && (forall i :: 0 <= i < |nblocks| ==> nblocks[i] > 0)
    && (forall i :: 0 <= i < |nblocks| ==> Bounded(have[i], nblocks[i]))
    && Bounded(got, |nblocks|)
    && ngot == |got|
  }

  /** getlst links exactly the busy pieces. */
  ghost predicate Linked(getlst: seq<nat>, busy: set<nat>) {
    NoDup(getlst) && Elems(getlst) == busy
  }

  ghost predicate BusyOk(npieces: nat, got: set<nat>, busy: set<nat>, nbusy: nat, pieces: map<nat, Piece>) {
    && busy == pieces.Keys
    && nbusy == |busy|
    && Bounded(busy, npieces)
    && busy !! got
  }

  ghost predicate PeerListsOk(npieces: nat, order: seq<nat>, peers: map<nat, Peer>, has: map<nat, set<nat>>) {
    && NoDup(order)
    && Elems(order) <= peers.Keys
    && peers.Keys == has.Keys
    && (forall q :: q in has ==> Bounded(has[q], npieces))
  }

  ghost predicate AllLoose(peers: map<nat, Peer>) {
    forall q :: q in peers ==> peers[q].Loose()
  }

  ghost predicate AllSettled(peers: map<nat, Peer>) {
    forall q :: q in peers ==> peers[q].Settled()
  }

  ghost predicate PiecesOk(nblocks: seq<nat>, have: seq<set<nat>>, endgame: bool, pieces: map<nat, Piece>) {
    forall i :: i in pieces ==>
      i < |nblocks| && i < |have| && PieceOk(pieces[i], nblocks[i], have[i], endgame)
  }

  ghost predicate Asks(peers: map<nat, Peer>, q: nat, i: nat, b: nat) {
    q in peers && Block(i, b) in peers[q].reqs
  }

  ghost predicate Listed(pieces: map<nat, Piece>, have: seq<set<nat>>, q: nat, i: nat, b: nat) {
    i in pieces && Req(q, b) in pieces[i].reqs && i < |have| && b !in have[i]
  }

  /** The peers' lists and the pieces' lists hold the same requests. */
  ghost predicate Ledger(pieces: map<nat, Piece>, have: seq<set<nat>>, peers: map<nat, Peer>) {
    forall q, i, b :: Asks(peers, q, i, b) <==> Listed(pieces, have, q, i, b)
  }

  /** The part of the invariant that holds between any two steps of a handler. */
  ghost predicate Core(n: Net) {
    && TorrentOk(n.nblocks, n.got, n.ngot, n.have)
    && BusyOk(|n.nblocks|, n.got, n.busy, n.nbusy, n.pieces)
    && PeerListsOk(|n.nblocks|, n.order, n.peers, n.has)
    && PiecesOk(n.nblocks, n.have, n.endgame, n.pieces)
    && Ledger(n.pieces, n.have, n.peers)
    && AllLoose(n.peers)
  }

  /** A piece for which a peer that has it is wanted. */
  ghost predicate Wanted(n: Net, i: nat) {
    i < |n.nblocks| && i !in n.got && (n.endgame || i !in n.pieces || !Full(n.pieces[i], n.nblocks[i]))
  }

  ghost function WantSet(n: Net): (w: set<nat>)
    ensures forall i :: i in w <==> Wanted(n, i)
  {
    set i | i in Range(|n.nblocks|) && Wanted(n, i)
  }

  /** The block is neither stored nor part of a verified piece. */
  ghost predicate Missing(n: Net, i: nat, b: nat) {
    i < |n.nblocks| && i < |n.have| && i !in n.got && b < n.nblocks[i] && b !in n.have[i]
  }

  /** Somebody has been asked for the block. */
  ghost predicate Outstanding(n: Net, i: nat, b: nat) {
    exists q :: Asks(n.peers, q, i, b)
  }

  /** Every missing block has been asked for. */
  ghost predicate AllAsked(n: Net) {
    forall i: nat, b: nat :: Missing(n, i, b) ==> Outstanding(n, i, b)
  }

  /** If end game began between the two, then when every missing block had been asked for, and still has. */
  ghost predicate BegunOnTime(n: Net, m: Net) {
    !n.endgame && m.endgame ==> AllAsked(m)
  }

  /** Every attached peer's want level is the number of wanted pieces it has. */
  ghost predicate WantOk(order: seq<nat>, peers: map<nat, Peer>, has: map<nat, set<nat>>, w: set<nat>) {
    forall q :: q in order ==> q in peers && q in has && peers[q].nwant == |has[q] * w|
  }

  /** npieces counts the pieces an attached peer has. */
  ghost predicate HeldOk(order: seq<nat>, peers: map<nat, Peer>, has: map<nat, set<nat>>) {
    forall q :: q in order ==> q in peers && q in has && peers[q].npieces == |has[q]|
  }

  /** No unverified piece has all its blocks: it would have been tested. */
  ghost predicate Unfinished(nblocks: seq<nat>, got: set<nat>, have: seq<set<nat>>) {
    |have| == |nblocks| && forall i :: 0 <= i < |nblocks| && i !in got ==> |have[i]| < nblocks[i]
  }

  ghost predicate Base(n: Net) {
    && Core(n)
    && AllSettled(n.peers)
    && HeldOk(n.order, n.peers, n.has)
    && |n.count| == |n.nblocks|
  }

  /** Nothing but pieces, want levels and requests differs. */
  ghost predicate SameSetting(n: Net, m: Net) {
    && m.nblocks == n.nblocks && m.got == n.got && m.ngot == n.ngot && m.have == n.have
    && m.order == n.order && m.has == n.has && m.chokes == n.chokes && m.count == n.count
    && m.peers.Keys == n.peers.Keys && (n.endgame ==> m.endgame)
  }

  /** Requests were only added, and only to attached peers that do not choke us. */
  ghost predicate Grew(n: Net, m: Net) {
    && SameSetting(n, m)
    && forall q :: q in n.peers ==>
         && q in m.peers
         && n.peers[q].reqs <= m.peers[q].reqs
         && SameRecord(n.peers[q], m.peers[q])
         && (q in n.chokes ==> m.peers[q].reqs == n.peers[q].reqs)
         && (q !in n.order ==> m.peers[q] == n.peers[q])
  }

  /** Peers' requests are the same. */
  ghost predicate SameReqs(peers: map<nat, Peer>, peers': map<nat, Peer>) {
    && peers'.Keys == peers.Keys
    && forall q :: q in peers ==>
         q in peers' && peers'[q].reqs == peers[q].reqs && peers'[q].npieces == peers[q].npieces
  }

  lemma SameReqsTransitive(a: map<nat, Peer>, b: map<nat, Peer>, c: map<nat, Peer>)
    requires SameReqs(a, b) && SameReqs(b, c)
    ensures SameReqs(a, c)
  {
  }

  /** Nothing was written to the peers, and their records are the same. */
  ghost predicate AllRecorded(peers: map<nat, Peer>, peers': map<nat, Peer>) {
    forall q :: q in peers ==> q in peers' && SameRecord(peers[q], peers'[q])
  }

  lemma AllRecordedTransitive(a: map<nat, Peer>, b: map<nat, Peer>, c: map<nat, Peer>)
    requires AllRecorded(a, b) && AllRecorded(b, c)
    ensures AllRecorded(a, c)
  {
  }

  lemma PutRecorded(peers: map<nat, Peer>, peers': map<nat, Peer>, p: nat, pr: Peer)
    requires AllRecorded(peers, peers') && p in peers' && SameRecord(peers'[p], pr)
    ensures AllRecorded(peers, peers'[p := pr])
  {
  }

  lemma SameReqsLedger(pieces: map<nat, Piece>, have: seq<set<nat>>, peers: map<nat, Peer>, peers': map<nat, Peer>)
    requires Ledger(pieces, have, peers) && SameReqs(peers, peers')
    ensures Ledger(pieces, have, peers')
  {
    forall q, i, b
      ensures Asks(peers', q, i, b) <==> Listed(pieces, have, q, i, b)
    {
      assert Asks(peers, q, i, b) <==> Listed(pieces, have, q, i, b);
    }
  }

  /** Detached peers are as they were. */
  ghost predicate DetachedSame(order: seq<nat>, peers: map<nat, Peer>, peers': map<nat, Peer>) {
    forall q :: q in peers && q !in order ==> q in peers' && peers'[q] == peers[q]
  }

  /** The first k attached peers' want levels follow w', the others' follow w. */
  ghost predicate WantSplit(order: seq<nat>, k: nat, peers: map<nat, Peer>, has: map<nat, set<nat>>, w: set<nat>,
                            w': set<nat>) {
    forall a :: 0 <= a < |order| ==>
      order[a] in peers && order[a] in has && peers[order[a]].nwant == |has[order[a]] * (if a < k then w' else w)|
  }

  lemma WantSplitEnds(order: seq<nat>, peers: map<nat, Peer>, has: map<nat, set<nat>>, w: set<nat>, w': set<nat>)
    ensures WantOk(order, peers, has, w) ==> WantSplit(order, 0, peers, has, w, w')
    ensures WantSplit(order, |order|, peers, has, w, w') ==> WantOk(order, peers, has, w')
  {
    if WantOk(order, peers, has, w) {
      forall a | 0 <= a < |order|
        ensures order[a] in peers && order[a] in has && peers[order[a]].nwant == |has[order[a]] * w|
      {
        assert order[a] in order;
      }
    }
  }

  lemma WantSplitStep(order: seq<nat>, k: nat, peers: map<nat, Peer>, has: map<nat, set<nat>>, w: set<nat>,
                      w': set<nat>, pr: Peer)
    requires NoDup(order) && k < |order| && WantSplit(order, k, peers, has, w, w')
    requires pr.nwant == |has[order[k]] * w'|
    ensures WantSplit(order, k + 1, peers[order[k] := pr], has, w, w')
  {
  }

  lemma PutSameReqs(peers: map<nat, Peer>, peers': map<nat, Peer>, p: nat, pr: Peer)
    requires SameReqs(peers, peers') && p in peers'
    requires pr.reqs == peers'[p].reqs && pr.npieces == peers'[p].npieces
    ensures SameReqs(peers, peers'[p := pr])
  {
  }

  lemma PutDetachedSame(order: seq<nat>, peers: map<nat, Peer>, peers': map<nat, Peer>, p: nat, pr: Peer)
    requires DetachedSame(order, peers, peers') && p in order
    ensures DetachedSame(order, peers, peers'[p := pr])
  {
  }

  /** The request lists of pieces were only appended to, with requests for missing blocks. */
  ghost predicate GrewPiece(pc: Piece, pc': Piece, have: set<nat>) {
    && pc.reqs <= pc'.reqs
    && pc'.ngot == pc.ngot
    && (forall r :: r in pc'.reqs ==> r in pc.reqs || r.block !in have)
  }

  ghost predicate GrewPieces(pieces: map<nat, Piece>, pieces': map<nat, Piece>, have: seq<set<nat>>) {
    && pieces'.Keys == pieces.Keys
    && forall i :: i in pieces ==> i in pieces' && i < |have| && GrewPiece(pieces[i], pieces'[i], have[i])
  }

  ghost predicate AllRequestedOf(peers: map<nat, Peer>, p: nat, i: nat, nblocks: nat, have: set<nat>) {
    forall b: nat :: b < nblocks && b !in have ==> Asks(peers, p, i, b)
  }

  /** In end game: p has been asked for every missing block it has. */
  ghost predicate AllRequested(n: Net, p: nat) {
    forall i :: i in n.pieces && p in n.has && i in n.has[p] && i < |n.nblocks| && i < |n.have| ==>
      AllRequestedOf(n.peers, p, i, n.nblocks[i], n.have[i])
  }

  /** (next + 1) mod nblocks for next in range, as INCNEXTBLOCK */
  function Inc(next: nat, nblocks: nat): nat
    requires next < nblocks
  {
    if next + 1 == nblocks then 0 else next + 1
  }

  lemma NextKeepsBase(n: Net, i: nat, next: nat)
    requires Base(n) && i in n.pieces && next < n.nblocks[i]
    ensures Base(n.(pieces := n.pieces[i := n.pieces[i].(next := next)]))
  {
    var pc := n.pieces[i].(next := next);
    PutPiece(n.nblocks, n.have, n.endgame, n.pieces, i, pc);
    SamePieceLedger(n.pieces, n.have, n.peers, i, pc);
  }

  lemma SamePieceLedger(pieces: map<nat, Piece>, have: seq<set<nat>>, peers: map<nat, Peer>, i: nat, pc: Piece)
    requires Ledger(pieces, have, peers) && i in pieces && pc.reqs == pieces[i].reqs
    ensures Ledger(pieces[i := pc], have, peers)
  {
    var pieces' := pieces[i := pc];
    forall q, j, b
      ensures Asks(peers, q, j, b) <==> Listed(pieces', have, q, j, b)
    {
      assert Asks(peers, q, j, b) <==> Listed(pieces, have, q, j, b);
    }
  }

  /** peer_leech_ok; no peer is suspected or banned here. */
  predicate LeechOk(n: Net, p: nat) {
    p in n.peers && n.peers[p].wanted && p !in n.chokes && !n.peers[p].Laden()
  }

  /** A piece with all its blocks has nothing left to request. */
  lemma CompleteHasAll(have: set<nat>, nblocks: nat)
    requires Bounded(have, nblocks) && |have| == nblocks
    ensures forall b: nat :: b < nblocks ==> b in have
  {
    SubsetCard(have, Range(nblocks));
  }

  lemma PutPiece(nblocks: seq<nat>, have: seq<set<nat>>, endgame: bool, pieces: map<nat, Piece>, i: nat, pc: Piece)
    requires PiecesOk(nblocks, have, endgame, pieces) && i in pieces
    requires i < |nblocks| && i < |have| && PieceOk(pc, nblocks[i], have[i], endgame)
    ensures PiecesOk(nblocks, have, endgame, pieces[i := pc])
    ensures pieces[i := pc].Keys == pieces.Keys
  {
  }

  lemma PutPeer(peers: map<nat, Peer>, p: nat, pr: Peer)
    requires p in peers
    ensures AllLoose(peers) && pr.Loose() ==> AllLoose(peers[p := pr])
    ensures AllSettled(peers) && pr.Settled() ==> AllSettled(peers[p := pr])
    ensures peers[p := pr].Keys == peers.Keys
  {
  }

  // ---------- End game order ----------

  /** How loaded a piece is: requests per missing block, or nothing left to get. */
  datatype Rank = Load(r: nat) | Done

  function RankOf(pc: Piece, nblocks: nat): Rank {
    if nblocks <= pc.ngot then Done else Load(pc.nreqs / (nblocks - pc.ngot))
  }

  predicate RankLe(a: Rank, b: Rank) {
    b.Done? || (a.Load? && a.r <= b.r)
  }

  ghost predicate Ranked(lst: seq<nat>, ranks: map<nat, Rank>) {
    && (forall i :: i in lst ==> i in ranks)
    && (forall a, b :: 0 <= a < b < |lst| ==> RankLe(ranks[lst[a]], ranks[lst[b]]))
  }

  ghost function Ranks(pieces: map<nat, Piece>, nblocks: seq<nat>): map<nat, Rank> {
    map i | i in pieces && i < |nblocks| :: RankOf(pieces[i], nblocks[i])
  }

  /** Least loaded pieces first, pieces that wait for their hash last. */
  ghost predicate Sorted(n: Net) {
    Ranked(n.getlst, Ranks(n.pieces, n.nblocks))
  }

  /** Ranks of the listed pieces only matter. */
  lemma RankedSame(lst: seq<nat>, ranks: map<nat, Rank>, ranks': map<nat, Rank>)
    requires Ranked(lst, ranks)
    requires forall i :: i in lst ==> i in ranks' && ranks'[i] == ranks[i]
    ensures Ranked(lst, ranks')
  {
  }

  lemma RankedCut(lst: seq<nat>, k: nat, ranks: map<nat, Rank>)
    requires Ranked(lst, ranks) && k < |lst|
    ensures Ranked(lst[..k] + lst[k + 1..], ranks)
  {
    var s := lst[..k] + lst[k + 1..];
    forall i | i in s ensures i in ranks {
      assert i in lst;
    }
  }

  /** i came into the list before all that are more loaded, and behind all others. */
  ghost predicate PutInOrder(lst: seq<nat>, lst': seq<nat>, i: nat, ranks: map<nat, Rank>)
    requires i in ranks && forall j :: j in lst ==> j in ranks
  {
    exists k :: 0 <= k <= |lst| && PutAt(lst, lst', k, i)
      && (forall a :: 0 <= a < k ==> RankLe(ranks[lst[a]], ranks[i]))
      && (forall a :: k <= a < |lst| ==> !RankLe(ranks[lst[a]], ranks[i]))
  }

  ghost predicate PutAt(lst: seq<nat>, lst': seq<nat>, k: int, i: nat) {
    0 <= k <= |lst| && lst' == lst[..k] + [i] + lst[k..]
  }

  lemma InsertedInOrder(lst: seq<nat>, k: nat, i: nat, ranks: map<nat, Rank>)
    requires Ranked(lst, ranks) && k <= |lst| && i in ranks
    requires forall a :: 0 <= a < k ==> RankLe(ranks[lst[a]], ranks[i])
    requires k < |lst| ==> !RankLe(ranks[lst[k]], ranks[i])
    ensures PutInOrder(lst, lst[..k] + [i] + lst[k..], i, ranks)
  {
    assert PutAt(lst, lst[..k] + [i] + lst[k..], k, i);
    forall a | k <= a < |lst|
      ensures !RankLe(ranks[lst[a]], ranks[i])
    {
      assert a > k ==> RankLe(ranks[lst[k]], ranks[lst[a]]);
    }
  }

  lemma RankedInsert(lst: seq<nat>, k: nat, i: nat, ranks: map<nat, Rank>)
    requires Ranked(lst, ranks) && k <= |lst| && i in ranks
    requires forall a :: 0 <= a < k ==> RankLe(ranks[lst[a]], ranks[i])
    requires k < |lst| ==> RankLe(ranks[i], ranks[lst[k]])
    ensures Ranked(lst[..k] + [i] + lst[k..], ranks)
  {
  }

  lemma InsertMembers(lst: seq<nat>, k: nat, i: nat)
    requires NoDup(lst) && i !in lst && k <= |lst|
    ensures NoDup(lst[..k] + [i] + lst[k..]) && Elems(lst[..k] + [i] + lst[k..]) == Elems(lst) + {i}
  {
    var s := lst[..k] + [i] + lst[k..];
    assert lst == lst[..k] + lst[k..];
    forall x ensures x in s <==> x in Elems(lst) + {i} {
      assert x in s <==> x in lst[..k] || x == i || x in lst[k..];
      assert x in lst <==> x in lst[..k] || x in lst[k..];
    }
  }

  lemma CutMembers(lst: seq<nat>, k: nat)
    requires NoDup(lst) && k < |lst|
    ensures NoDup(lst[..k] + lst[k + 1..]) && Elems(lst[..k] + lst[k + 1..]) == Elems(lst) - {lst[k]}
  {
    var s := lst[..k] + lst[k + 1..];
    assert lst == lst[..k] + [lst[k]] + lst[k + 1..];
    forall x ensures x in s <==> x in Elems(lst) - {lst[k]} {
      assert x in s <==> x in lst[..k] || x in lst[k + 1..];
    }
  }

  // ---------- Rarest first ----------

  /** dl_piece_startable */
  predicate Startable(n: Net, p: nat, i: nat) {
    p in n.has && i in n.has[p] && i !in n.got && i !in n.busy
  }

  /** The pieces in lo..hi that p could start on and that c peers have. */
  ghost function Ties(n: Net, p: nat, c: nat, lo: nat, hi: nat): nat
    requires hi <= |n.count|
  {
    if lo >= hi then 0
    else Ties(n, p, c, lo, hi - 1) + (if Startable(n, p, hi - 1) && n.count[hi - 1] == c then 1 else 0)
  }

  lemma {:induction false} TiesSplit(n: Net, p: nat, c: nat, lo: nat, mid: nat, hi: nat)
    requires lo <= mid <= hi <= |n.count|
    ensures Ties(n, p, c, lo, hi) == Ties(n, p, c, lo, mid) + Ties(n, p, c, mid, hi)
  {
    if mid < hi {
      TiesSplit(n, p, c, lo, mid, hi - 1);
    }
  }

  lemma {:induction false} NoTies(n: Net, p: nat, c: nat, lo: nat, hi: nat)
    requires hi <= |n.count|
    requires forall j :: lo <= j < hi && Startable(n, p, j) ==> n.count[j] != c
    ensures Ties(n, p, c, lo, hi) == 0
  {
    if lo < hi {
      NoTies(n, p, c, lo, hi - 1);
    }
  }

  /** No piece that p could start on before hi is rarer than one that c peers have. */
  ghost predicate RarestUpto(n: Net, p: nat, c: nat, hi: nat) {
    forall j :: 0 <= j < hi && j < |n.count| && Startable(n, p, j) ==> c <= n.count[j]
  }

  /** minI is the first of the rarest pieces before i, and minC of them lie in minI..i. */
  ghost predicate RarestSoFar(n: Net, p: nat, minI: nat, minC: nat, i: nat) {
    && minI < i <= |n.count| && Startable(n, p, minI)
    && RarestUpto(n, p, n.count[minI], i)
    && (forall j :: 0 <= j < minI && Startable(n, p, j) ==> n.count[minI] < n.count[j])
    && minC == Ties(n, p, n.count[minI], minI, i) && minC > 0
  }

  lemma RarestStart(n: Net, p: nat, i: nat)
    requires i < |n.count| && Startable(n, p, i) && forall j :: 0 <= j < i ==> !Startable(n, p, j)
    ensures RarestSoFar(n, p, i, 1, i + 1)
  {
  }

  lemma RarestStep(n: Net, p: nat, minI: nat, minC: nat, i: nat)
    requires RarestSoFar(n, p, minI, minC, i) && i < |n.count|
    ensures !Startable(n, p, i) || n.count[i] > n.count[minI] ==> RarestSoFar(n, p, minI, minC, i + 1)
    ensures Startable(n, p, i) && n.count[i] == n.count[minI] ==> RarestSoFar(n, p, minI, minC + 1, i + 1)
    ensures Startable(n, p, i) && n.count[i] < n.count[minI] ==> RarestSoFar(n, p, i, 1, i + 1)
  {
  }

  lemma RarestEnd(n: Net, p: nat, minI: nat, minC: nat)
    requires RarestSoFar(n, p, minI, minC, |n.count|)
    ensures Rarest(n, p, minI, minC)
  {
    NoTies(n, p, n.count[minI], 0, minI);
  }

  /** minI is the first of the rarest pieces that p could start on, and minC of them there are. */
  ghost predicate Rarest(n: Net, p: nat, minI: nat, minC: nat) {
    && minI < |n.count| && Startable(n, p, minI) && RarestUpto(n, p, n.count[minI], |n.count|)
    && minC == Ties(n, p, n.count[minI], minI, |n.count|) && minC > 0
    && Ties(n, p, n.count[minI], 0, minI) == 0
  }
}
