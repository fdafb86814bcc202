/**
 The per-peer side of the downloader: want level, interest messages and the list of
 outstanding requests (btpd/peer.c). A peer is a value held by its identifier.
 */
module Peers {
  import opened Lists

  const MAX_PIPED_REQUESTS: nat := 10

  /** One block of the torrent: what a request message asks for. */
  datatype Block = Block(piece: nat, block: nat)

  /** The buffers of an output queue; Other are those the scheduler does not send. */
  datatype Item =
    | Interest
    | Uninterest
    | Request(want: Block)
    | Cancel(stop: Block)
    | Have(piece: nat)
    | Other

  /**
   What became of requests, as a history: answered by the block, void because the peer choked us
   or left, and swept from the queue unsent after a choke. Then the have messages and the others
   that were put into the stream.
   */
  datatype Record = Record(
    answered: multiset<Block>,
    lapsed: multiset<Block>,
    swept: multiset<Block>,
    haves: multiset<nat>,
    others: nat)

  /**
   `outq` holds the queued messages, `begun` says that some bytes of the first of them are
   on the wire (outq_off > 0), and `sent` is the history of messages written in full.
   */
  datatype Peer = Peer(
    npieces: nat,
    nwant: nat,
    wanted: bool,       // PF_I_WANT
    doUnwant: bool,     // PF_DO_UNWANT
    reqs: seq<Block>,   // my_reqs
    nreqsOut: nat,
    outq: seq<Item>,
    begun: bool,
    sent: seq<Item>,
    past: Record)
  {
    predicate Laden() {
      nreqsOut >= MAX_PIPED_REQUESTS
    }

    /** What holds between any two steps, even when the last request has just gone. */
    ghost predicate Loose() {
      && wanted == (nwant > 0)
      && (nwant == 0 && nreqsOut > 0 ==> doUnwant)
      && (doUnwant ==> nwant == 0)
      && NoDup(reqs)
      && nreqsOut == |reqs| <= MAX_PIPED_REQUESTS
      && (begun ==> outq != [])
      && Alternates(Interests(sent + outq))
      && (LastIsInterest(Interests(sent + outq)) <==> nwant > 0 || doUnwant)
      && Balanced(sent + outq, reqs, past)
    }

    /** What holds once peer_on_no_reqs has had its say. */
    ghost predicate Settled() {
      Loose() && (doUnwant ==> nreqsOut > 0)
    }
  }

  /** The interest messages of a stream, true for interest and false for uninterest. */
  function Interests(ms: seq<Item>): seq<bool> {
    Joined(InterestOf, ms)
  }

  function InterestOf(m: Item): seq<bool> {
    match m
    case Interest => [true]
    case Uninterest => [false]
    case _ => []
  }

  /** Each message differs from the one before it, and the first is interest. */
  ghost predicate Alternates(s: seq<bool>) {
    s == [] || (Alternates(s[..|s| - 1]) && s[|s| - 1] == !LastIsInterest(s[..|s| - 1]))
  }

  ghost predicate LastIsInterest(s: seq<bool>) {
    s != [] && s[|s| - 1]
  }

  const FRESH_PEER: Peer :=
    Peer(0, 0, false, false, [], 0, [], false, [], Record(multiset{}, multiset{}, multiset{}, multiset{}, 0))

  // ---------- The stream and the requests ----------

  /** Every request in the stream, or swept from it, is open, cancelled, answered or void. */
  ghost predicate Squares(ms: seq<Item>, reqs: seq<Block>, past: Record, x: Block) {
    multiset(ms)[Request(x)] + past.swept[x]
      == (if x in reqs then 1 else 0) + multiset(ms)[Cancel(x)] + past.answered[x] + past.lapsed[x]
  }

  /** The block is asked for in the stream, and no cancel follows. */
  ghost predicate Stands(ms: seq<Item>, x: Block) {
    exists k :: 0 <= k < |ms| && ms[k] == Request(x) && forall j :: k < j < |ms| ==> ms[j] != Cancel(x)
  }

  ghost predicate Balanced(ms: seq<Item>, reqs: seq<Block>, past: Record) {
    && (forall x :: Squares(ms, reqs, past, x))
    && (forall x {:trigger Stands(ms, x)} :: x in reqs ==> Stands(ms, x))
    && (forall m :: Counted(ms, past, m))
  }

  /** Messages about neither interest nor requests are as many as the record says. */
  ghost predicate Counted(ms: seq<Item>, past: Record, m: Item) {
    && (m.Have? ==> multiset(ms)[m] == past.haves[m.piece])
    && (m.Other? ==> multiset(ms)[m] == past.others)
  }

  lemma PushStands(ms: seq<Item>, m: Item, x: Block)
    ensures m == Request(x) ==> Stands(ms + [m], x)
    ensures m != Cancel(x) && Stands(ms, x) ==> Stands(ms + [m], x)
  {
    var all := ms + [m];
    if m == Request(x) {
      assert all[|ms|] == Request(x);
    } else if m != Cancel(x) && Stands(ms, x) {
      var k :| 0 <= k < |ms| && ms[k] == Request(x) && forall j :: k < j < |ms| ==> ms[j] != Cancel(x);
      assert all[k] == Request(x);
    }
  }

  /** r is ms without its message at place c. */
  ghost predicate IsCut(ms: seq<Item>, r: seq<Item>, c: nat) {
    && c < |ms| && |r| + 1 == |ms|
    && (forall j :: 0 <= j < c ==> r[j] == ms[j]) && (forall j :: c <= j < |r| ==> r[j] == ms[j + 1])
  }

  lemma CutParts(ms: seq<Item>, r: seq<Item>, c: nat)
    requires IsCut(ms, r, c)
    ensures ms == ms[..c] + ([ms[c]] + ms[c + 1..]) && r == ms[..c] + ms[c + 1..]
  {
  }

  lemma CutCounts(ms: seq<Item>, r: seq<Item>, c: nat)
    requires IsCut(ms, r, c)
    ensures multiset(ms) == multiset(r) + multiset{ms[c]}
  {
    CutParts(ms, r, c);
  }

  lemma CutStands(ms: seq<Item>, r: seq<Item>, c: nat, x: Block)
    requires IsCut(ms, r, c) && ms[c] != Request(x) && Stands(ms, x)
    ensures Stands(r, x)
  {
    var k :| 0 <= k < |ms| && ms[k] == Request(x) && forall j :: k < j < |ms| ==> ms[j] != Cancel(x);
    var k' := if k < c then k else k - 1;
    assert r[k'] == Request(x);
  }

  /** Taking a message that is no interest message out of a stream leaves the interest messages alone. */
  lemma CutInterests(ms: seq<Item>, r: seq<Item>, c: nat)
    requires IsCut(ms, r, c) && !ms[c].Interest? && !ms[c].Uninterest?
    ensures Interests(r) == Interests(ms)
  {
    CutParts(ms, r, c);
    JoinedPlus(InterestOf, ms[..c], [ms[c]] + ms[c + 1..]);
    JoinedPlus(InterestOf, [ms[c]], ms[c + 1..]);
    JoinedOne(InterestOf, ms[c]);
    JoinedPlus(InterestOf, ms[..c], ms[c + 1..]);
  }

  /** The record after a message that is neither a request nor a cancel has been put into the stream. */
  function Noted(past: Record, m: Item): Record {
    match m
    case Have(i) => past.(haves := past.haves + multiset{i})
    case Other => past.(others := past.others + 1)
    case _ => past
  }

  lemma PushQuiet(ms: seq<Item>, reqs: seq<Block>, past: Record, m: Item)
    requires Balanced(ms, reqs, past) && !m.Request? && !m.Cancel?
    ensures Balanced(ms + [m], reqs, Noted(past, m))
  {
    forall x | x in reqs
      ensures Stands(ms + [m], x)
    {
      PushStands(ms, m, x);
    }
    forall x
      ensures Squares(ms + [m], reqs, Noted(past, m), x)
    {
      assert Squares(ms, reqs, past, x);
    }
    forall c
      ensures Counted(ms + [m], Noted(past, m), c)
    {
      assert Counted(ms, past, c);
    }
  }

  lemma PushRequest(ms: seq<Item>, reqs: seq<Block>, past: Record, b: Block)
    requires Balanced(ms, reqs, past) && b !in reqs
    ensures Balanced(ms + [Request(b)], reqs + [b], past)
  {
    forall x | x in reqs + [b]
      ensures Stands(ms + [Request(b)], x)
    {
      PushStands(ms, Request(b), x);
    }
    forall x
      ensures Squares(ms + [Request(b)], reqs + [b], past, x)
    {
      assert Squares(ms, reqs, past, x);
    }
    forall c
      ensures Counted(ms + [Request(b)], past, c)
    {
      assert Counted(ms, past, c);
    }
  }

  /** A request is closed by a cancel. */
  lemma CancelBalanced(ms: seq<Item>, reqs: seq<Block>, past: Record, b: Block)
    requires Balanced(ms, reqs, past) && NoDup(reqs) && b in reqs
    ensures Balanced(ms + [Cancel(b)], Remove(reqs, b), past)
  {
    RemoveMembers(reqs, b);
    forall x
      ensures Squares(ms + [Cancel(b)], Remove(reqs, b), past, x)
    {
      assert Squares(ms, reqs, past, x);
    }
    forall c
      ensures Counted(ms + [Cancel(b)], past, c)
    {
      assert Counted(ms, past, c);
    }
    forall x | x in Remove(reqs, b)
      ensures Stands(ms + [Cancel(b)], x)
    {
      PushStands(ms, Cancel(b), x);
    }
  }

  /** A request is closed by taking it back. */
  lemma TakeBackBalanced(ms: seq<Item>, r: seq<Item>, reqs: seq<Block>, past: Record, k: nat, b: Block)
    requires Balanced(ms, reqs, past) && NoDup(reqs) && IsCut(ms, r, k) && ms[k] == Request(b) && b in reqs
    ensures Balanced(r, Remove(reqs, b), past)
  {
    RemoveMembers(reqs, b);
    CutCounts(ms, r, k);
    forall x
      ensures Squares(r, Remove(reqs, b), past, x)
    {
      assert Squares(ms, reqs, past, x);
    }
    forall c
      ensures Counted(r, past, c)
    {
      assert Counted(ms, past, c);
    }
    forall x | x in Remove(reqs, b)
      ensures Stands(r, x)
    {
      CutStands(ms, r, k, x);
    }
  }

  /** An uninterest or a message that is not the scheduler's leaves the stream. */
  lemma CutQuiet(ms: seq<Item>, r: seq<Item>, reqs: seq<Block>, past: Record, k: nat)
    requires Balanced(ms, reqs, past) && IsCut(ms, r, k) && (ms[k].Uninterest? || ms[k].Other?)
    ensures ms[k].Other? ==> past.others > 0
    ensures Balanced(r, reqs, if ms[k].Other? then past.(others := past.others - 1) else past)
  {
    CutCounts(ms, r, k);
    assert Counted(ms, past, ms[k]) && ms[k] in multiset(ms);
    var past' := if ms[k].Other? then past.(others := past.others - 1) else past;
    forall x | x in reqs
      ensures Stands(r, x)
    {
      CutStands(ms, r, k, x);
    }
    forall x
      ensures Squares(r, reqs, past', x)
    {
      assert Squares(ms, reqs, past, x);
    }
    forall c
      ensures Counted(r, past', c)
    {
      assert Counted(ms, past, c);
    }
  }

  /** A request that is not open any more leaves the stream. */
  lemma CutSwept(ms: seq<Item>, r: seq<Item>, past: Record, k: nat, b: Block)
    requires Balanced(ms, [], past) && IsCut(ms, r, k) && ms[k] == Request(b)
    ensures Balanced(r, [], past.(swept := past.swept + multiset{b}))
  {
    var past' := past.(swept := past.swept + multiset{b});
    CutCounts(ms, r, k);
    forall x
      ensures Squares(r, [], past', x)
    {
      assert Squares(ms, [], past, x);
    }
    forall c
      ensures Counted(r, past', c)
    {
      assert Counted(ms, past, c);
    }
  }

  /** A request is closed without a message. */
  lemma CloseBalanced(ms: seq<Item>, reqs: seq<Block>, past: Record, past': Record, b: Block)
    requires Balanced(ms, reqs, past) && NoDup(reqs) && b in reqs
    requires || past' == past.(answered := past.answered + multiset{b})
             || past' == past.(lapsed := past.lapsed + multiset{b})
    ensures Balanced(ms, Remove(reqs, b), past')
  {
    RemoveMembers(reqs, b);
    forall x
      ensures Squares(ms, Remove(reqs, b), past', x)
    {
      assert Squares(ms, reqs, past, x);
    }
    forall c
      ensures Counted(ms, past', c)
    {
      assert Counted(ms, past, c);
    }
  }

  /** Nothing was written, a message that has begun stays first, and the record is as it was. */
  ghost predicate SamePast(p: Peer, p': Peer) {
    && p'.past == p.past && p'.sent == p.sent && p'.begun == p.begun
    && (p.begun && p.outq != [] ==> p'.outq != [] && p'.outq[0] == p.outq[0])
  }

  ghost predicate SameRecord(p: Peer, p': Peer) {
    p'.npieces == p.npieces && SamePast(p, p')
  }

  /** Requests that are not open any more have lapsed, and some of those that were queued were swept. */
  ghost predicate OnlyLapsed(p: Peer, p': Peer) {
    && p'.npieces == p.npieces && SamePast(p, p'.(past := p.past))
    && p'.past == p.past.(lapsed := p'.past.lapsed, swept := p'.past.swept)
    && multiset(p'.reqs) + p'.past.lapsed == multiset(p.reqs) + p.past.lapsed
  }

  lemma InterestsPush(ms: seq<Item>, m: Item)
    ensures Interests(ms + [m]) == Interests(ms) + InterestOf(m)
  {
    JoinedPlus(InterestOf, ms, [m]);
    JoinedOne(InterestOf, m);
  }

  /** peer_send: appends to the output queue. */
  function Send(p: Peer, m: Item): Peer {
    p.(outq := p.outq + [m])
  }

  /** peer_unsend: a link can be withdrawn unless part of it is on the wire. */
  predicate Withdrawable(p: Peer, k: nat) {
    !(k == 0 && p.begun)
  }

  function Unsend(p: Peer, k: nat): Peer
    requires k < |p.outq|
  {
    if Withdrawable(p, k) then p.(outq := p.outq[..k] + p.outq[k + 1..]) else p
  }

  lemma SendStream(p: Peer, m: Item)
    ensures p.sent + Send(p, m).outq == p.sent + p.outq + [m]
    ensures Interests(p.sent + Send(p, m).outq) == Interests(p.sent + p.outq) + InterestOf(m)
  {
    assert p.sent + (p.outq + [m]) == (p.sent + p.outq) + [m];
    InterestsPush(p.sent + p.outq, m);
  }

  lemma UnsendStream(p: Peer, k: nat)
    requires k < |p.outq| && Withdrawable(p, k)
    ensures IsCut(p.sent + p.outq, p.sent + Unsend(p, k).outq, |p.sent| + k)
    ensures (p.sent + p.outq)[|p.sent| + k] == p.outq[k]
    ensures p.begun ==> Unsend(p, k).outq != [] && Unsend(p, k).outq[0] == p.outq[0]
  {
  }

  /** peer_want for a piece the peer has. */
  function Want(p: Peer): (r: Peer)
    requires p.Settled() && p.nwant < p.npieces
    ensures r.Settled() && r.nwant == p.nwant + 1
    ensures r.reqs == p.reqs && r.nreqsOut == p.nreqsOut && SameRecord(p, r)
  {
    var q := p.(nwant := p.nwant + 1);
    if q.nwant != 1 then q
    else
      var q := q.(wanted := true);
      if q.nreqsOut == 0 then
        assert !q.doUnwant;
        var last := |q.outq| - 1;
        if q.outq != [] && q.outq[last] == Uninterest && Withdrawable(q, last) then
          WithdrawUninterest(q);
          Unsend(q, last)
        else
          PushInterest(q, Interest);
          Send(q, Interest)
      else
        assert q.doUnwant;
        q.(doUnwant := false)
  }

  lemma WithdrawUninterest(p: Peer)
    requires p.outq != [] && p.outq[|p.outq| - 1] == Uninterest && Withdrawable(p, |p.outq| - 1)
    requires Alternates(Interests(p.sent + p.outq)) && Balanced(p.sent + p.outq, p.reqs, p.past)
    ensures var r := Unsend(p, |p.outq| - 1); var ms := r.sent + r.outq;
      && Alternates(Interests(ms)) && LastIsInterest(Interests(ms)) && Balanced(ms, p.reqs, p.past)
      && SamePast(p, r)
  {
    var ms := p.sent + p.outq[..|p.outq| - 1];
    assert p.sent + p.outq == ms + [Uninterest];
    InterestsPush(ms, Uninterest);
    assert Interests(p.sent + p.outq)[..|Interests(ms)|] == Interests(ms);
    UnsendStream(p, |p.outq| - 1);
    assert Unsend(p, |p.outq| - 1).outq == p.outq[..|p.outq| - 1];
    CutQuiet(p.sent + p.outq, ms, p.reqs, p.past, |p.sent| + |p.outq| - 1);
  }

  lemma PushInterest(p: Peer, m: Item)
    requires m.Interest? || m.Uninterest?
    requires Alternates(Interests(p.sent + p.outq)) && Balanced(p.sent + p.outq, p.reqs, p.past)
    requires LastIsInterest(Interests(p.sent + p.outq)) <==> m.Uninterest?
    ensures var ms := p.sent + Send(p, m).outq;
      Alternates(Interests(ms)) && (LastIsInterest(Interests(ms)) <==> m.Interest?) && Balanced(ms, p.reqs, p.past)
  {
    SendStream(p, m);
    PushQuiet(p.sent + p.outq, p.reqs, p.past, m);
    assert (Interests(p.sent + p.outq) + [m.Interest?])[..|Interests(p.sent + p.outq)|] == Interests(p.sent + p.outq);
  }

  /** peer_unwant for a piece the peer has. */
  function Unwant(p: Peer): (r: Peer)
    requires p.Settled() && p.nwant > 0
    ensures r.Settled() && r.nwant == p.nwant - 1
    ensures r.reqs == p.reqs && r.nreqsOut == p.nreqsOut && SameRecord(p, r)
  {
    var q := p.(nwant := p.nwant - 1);
    if q.nwant != 0 then q
    else
      var q := q.(wanted := false);
      if q.nreqsOut == 0 then
        PushInterest(q, Uninterest);
        Send(q, Uninterest)
      else
        q.(doUnwant := true)
  }

  /** peer_request. */
  function AddRequest(p: Peer, b: Block): (r: Peer)
    requires p.Settled() && p.nwant > 0 && !p.Laden() && b !in p.reqs
    ensures r.Settled() && r.nwant == p.nwant
    ensures r.reqs == p.reqs + [b] && r.nreqsOut == p.nreqsOut + 1 && SameRecord(p, r)
  {
    RequestSent(p, b);
    Send(p.(nreqsOut := p.nreqsOut + 1, reqs := p.reqs + [b]), Request(b))
  }

  lemma RequestSent(p: Peer, b: Block)
    requires p.Loose() && b !in p.reqs
    ensures var ms := p.sent + (p.outq + [Request(b)]);
      Interests(ms) == Interests(p.sent + p.outq) && Balanced(ms, p.reqs + [b], p.past)
  {
    SendStream(p, Request(b));
    PushRequest(p.sent + p.outq, p.reqs, p.past, b);
  }

  /** A request that is answered by its block leaves my_reqs. */
  function CloseRequest(p: Peer, b: Block): (r: Peer)
    requires p.Loose() && b in p.reqs
    ensures r.Loose() && r.nwant == p.nwant && r.npieces == p.npieces && r.doUnwant == p.doUnwant
    ensures r.reqs == Remove(p.reqs, b) && r.nreqsOut == p.nreqsOut - 1
    ensures r.past == p.past.(answered := p.past.answered + multiset{b})
    ensures r.sent == p.sent && r.outq == p.outq && r.begun == p.begun
  {
    RemoveMembers(p.reqs, b);
    CloseBalanced(p.sent + p.outq, p.reqs, p.past, p.past.(answered := p.past.answered + multiset{b}), b);
    p.(nreqsOut := p.nreqsOut - 1, reqs := Remove(p.reqs, b),
       past := p.past.(answered := p.past.answered + multiset{b}))
  }

  /**
   A request that is void, because the peer chokes us or leaves, leaves my_reqs; the caller still
   owes peer_on_no_reqs when it was the last.
   */
  function DropRequest(p: Peer, b: Block): (r: Peer)
    requires p.Loose() && b in p.reqs
    ensures r.Loose() && r.nwant == p.nwant && r.npieces == p.npieces && r.doUnwant == p.doUnwant
    ensures r.reqs == Remove(p.reqs, b) && r.nreqsOut == p.nreqsOut - 1
    ensures r.past == p.past.(lapsed := p.past.lapsed + multiset{b})
    ensures r.sent == p.sent && r.outq == p.outq && r.begun == p.begun
  {
    RemoveMembers(p.reqs, b);
    CloseBalanced(p.sent + p.outq, p.reqs, p.past, p.past.(lapsed := p.past.lapsed + multiset{b}), b);
    p.(nreqsOut := p.nreqsOut - 1, reqs := Remove(p.reqs, b),
       past := p.past.(lapsed := p.past.lapsed + multiset{b}))
  }

  /** peer_on_no_reqs, called when nreqs_out is zero. */
  function OnNoReqs(p: Peer): (r: Peer)
    requires p.Loose() && p.nreqsOut == 0
    ensures r.Settled() && r.nwant == p.nwant
    ensures r.reqs == p.reqs && r.nreqsOut == p.nreqsOut && SameRecord(p, r)
  {
    if p.doUnwant then
      PushInterest(p, Uninterest);
      Send(p.(doUnwant := false), Uninterest)
    else p
  }

  /** The common tail of the handlers: peer_on_no_reqs exactly when nothing is outstanding. */
  function Settle(p: Peer): (r: Peer)
    requires p.Loose()
    ensures r.Settled() && r.nwant == p.nwant
    ensures r.reqs == p.reqs && r.nreqsOut == p.nreqsOut && SameRecord(p, r)
  {
    if p.nreqsOut == 0 then OnNoReqs(p) else p
  }

  /**
   peer_cancel: `link` is the position in the output queue of the buffer that carries the
   request, if it is still queued. A request that could not be withdrawn is cancelled.
   */
  function CancelRequest(p: Peer, b: Block, link: int): (r: Peer)
    requires p.Settled() && b in p.reqs
    requires 0 <= link < |p.outq| ==> p.outq[link] == Request(b)
    ensures r.Settled() && r.nwant == p.nwant
    ensures r.reqs == Remove(p.reqs, b) && r.nreqsOut == p.nreqsOut - 1 && r.npieces == p.npieces
  {
    RemoveMembers(p.reqs, b);
    var q := p.(nreqsOut := p.nreqsOut - 1, reqs := Remove(p.reqs, b));
    if 0 <= link < |q.outq| && Withdrawable(q, link) then
      RequestUnsent(p, link);
      Settle(Unsend(q, link))
    else
      CancelSent(p, b);
      Settle(Send(q, Cancel(b)))
  }

  lemma RequestUnsent(p: Peer, k: nat)
    requires p.Loose() && k < |p.outq| && Withdrawable(p, k) && p.outq[k].Request? && p.outq[k].want in p.reqs
    ensures var ms := p.sent + Unsend(p, k).outq;
      Interests(ms) == Interests(p.sent + p.outq) && Balanced(ms, Remove(p.reqs, p.outq[k].want), p.past)
    ensures SamePast(p, Unsend(p, k)) && (p.begun ==> Unsend(p, k).outq != [])
  {
    UnsendStream(p, k);
    var ms, r := p.sent + p.outq, p.sent + Unsend(p, k).outq;
    CutInterests(ms, r, |p.sent| + k);
    TakeBackBalanced(ms, r, p.reqs, p.past, |p.sent| + k, p.outq[k].want);
  }

  lemma CancelSent(p: Peer, b: Block)
    requires p.Loose() && b in p.reqs
    ensures var ms := p.sent + (p.outq + [Cancel(b)]);
      Interests(ms) == Interests(p.sent + p.outq) && Balanced(ms, Remove(p.reqs, b), p.past)
  {
    SendStream(p, Cancel(b));
    CancelBalanced(p.sent + p.outq, p.reqs, p.past, b);
  }

  /** Only the output queue and the record differ. */
  ghost predicate Requeued(p: Peer, p': Peer) {
    p'.Settled() && p' == p.(outq := p'.outq, begun := p'.begun, sent := p'.sent, past := p'.past)
  }

  /** peer_send of a message that is neither about interest nor about a request. */
  function SendNoted(p: Peer, m: Item): Peer {
    Send(p, m).(past := Noted(p.past, m))
  }

  lemma SendRequeues(p: Peer, m: Item)
    requires p.Settled() && (m.Have? || m.Other?)
    ensures Requeued(p, SendNoted(p, m))
  {
    SendStream(p, m);
    PushQuiet(p.sent + p.outq, p.reqs, p.past, m);
    assert Interests(p.sent + p.outq) + [] == Interests(p.sent + p.outq);
  }

  /** peer_unsend of a message that is not the scheduler's. */
  function UnsendOther(p: Peer, k: nat): Peer
    requires k < |p.outq|
  {
    if Withdrawable(p, k) && p.past.others > 0 then Unsend(p, k).(past := p.past.(others := p.past.others - 1)) else p
  }

  lemma UnsendOtherRequeues(p: Peer, k: nat)
    requires p.Settled() && k < |p.outq| && p.outq[k].Other?
    ensures p.past.others > 0 && Requeued(p, UnsendOther(p, k))
  {
    OthersThere(p.sent + p.outq, p.reqs, p.past, |p.sent| + k);
    if Withdrawable(p, k) {
      OtherUnsentOk(p, k);
    }
  }

  lemma OtherUnsentOk(p: Peer, k: nat)
    requires p.Loose() && k < |p.outq| && Withdrawable(p, k) && p.outq[k].Other? && p.past.others > 0
    ensures var ms := p.sent + Unsend(p, k).outq;
      && Interests(ms) == Interests(p.sent + p.outq)
      && Balanced(ms, p.reqs, p.past.(others := p.past.others - 1))
    ensures p.begun ==> Unsend(p, k).outq != []
  {
    UnsendStream(p, k);
    CutInterests(p.sent + p.outq, p.sent + Unsend(p, k).outq, |p.sent| + k);
    CutQuiet(p.sent + p.outq, p.sent + Unsend(p, k).outq, p.reqs, p.past, |p.sent| + k);
  }

  lemma OthersThere(ms: seq<Item>, reqs: seq<Block>, past: Record, k: nat)
    requires Balanced(ms, reqs, past) && k < |ms| && ms[k].Other?
    ensures past.others > 0
  {
    assert Counted(ms, past, ms[k]) && ms[k] in multiset(ms);
  }

  /** peer_unsend of a request that is not open any more. */
  function Sweep(p: Peer, k: nat): Peer
    requires k < |p.outq| && p.outq[k].Request?
  {
    Unsend(p, k).(past := p.past.(swept := p.past.swept + multiset{p.outq[k].want}))
  }

  lemma SweepRequeues(p: Peer, k: nat)
    requires p.Settled() && k < |p.outq| && p.outq[k].Request? && Withdrawable(p, k) && p.reqs == []
    ensures Requeued(p, Sweep(p, k)) && Sweep(p, k).sent == p.sent && Sweep(p, k).begun == p.begun
    ensures p.begun ==> Sweep(p, k).outq != [] && Sweep(p, k).outq[0] == p.outq[0]
  {
    UnsendStream(p, k);
    var ms, r := p.sent + p.outq, p.sent + Unsend(p, k).outq;
    CutInterests(ms, r, |p.sent| + k);
    CutSwept(ms, r, p.past, |p.sent| + k, p.outq[k].want);
  }

  /** No request is queued any more, but for one that has begun. */
  ghost predicate NoneQueued(p: Peer) {
    forall k :: 0 <= k < |p.outq| && p.outq[k].Request? ==> k == 0 && p.begun
  }

  /** net_write: the first k messages have gone out, and perhaps a part of the next one. */
  function Flush(p: Peer, k: nat, part: bool): Peer
    requires k <= |p.outq|
  {
    p.(sent := p.sent + p.outq[..k], outq := p.outq[k..],
       begun := k < |p.outq| && (part || (k == 0 && p.begun)))
  }

  lemma FlushRequeues(p: Peer, k: nat, part: bool)
    requires p.Settled() && k <= |p.outq|
    ensures Requeued(p, Flush(p, k, part))
  {
    assert p.sent + p.outq[..k] + p.outq[k..] == p.sent + p.outq;
  }

  lemma {:induction false} AlternatesParity(s: seq<bool>)
    requires Alternates(s)
    ensures forall k :: 0 <= k < |s| ==> (s[k] <==> k % 2 == 0)
  {
    if s == [] {
    } else {
      var t := s[..|s| - 1];
      AlternatesParity(t);
      forall k | 0 <= k < |s|
        ensures s[k] <==> k % 2 == 0
      {
        if k < |t| {
          assert s[k] == t[k];
        } else if t != [] {
          assert t[|t| - 1] <==> (|t| - 1) % 2 == 0;
        }
      }
    }
  }

  /** The interest protocol at one peer, over all messages written or queued. */
  lemma SettledInterest(p: Peer)
    requires p.Settled()
    ensures var s := Interests(p.sent + p.outq);
      && (forall k :: 0 <= k < |s| ==> (s[k] <==> k % 2 == 0))
      && (s != [] && s[|s| - 1] <==> p.nwant > 0 || p.reqs != [])
    ensures p.wanted <==> p.nwant > 0
    ensures p.doUnwant <==> p.nwant == 0 && p.nreqsOut > 0
  {
    AlternatesParity(Interests(p.sent + p.outq));
  }

  /** What the peer was told last, if everything queued is counted as told. */
  predicate Told(p: Peer) {
    p.nwant > 0 || p.doUnwant
  }

  function Words(p: Peer): seq<bool> {
    Interests(p.sent + p.outq)
  }

  /** Wanting a peer tells it interest exactly when it was told the opposite last, or withdraws the opposite. */
  lemma WantTells(p: Peer)
    requires p.Settled() && p.nwant < p.npieces
    ensures Told(Want(p))
    ensures Told(p) ==> Words(Want(p)) == Words(p)
    ensures !Told(p) ==> Words(Want(p)) == Words(p) + [true] || Words(p) == Words(Want(p)) + [false]
  {
    if !Told(p) {
      var last := |p.outq| - 1;
      if p.outq != [] && p.outq[last] == Uninterest && Withdrawable(p, last) {
        assert p.outq[..last] + p.outq[last + 1..] == p.outq[..last];
        assert p.sent + p.outq == p.sent + p.outq[..last] + [Uninterest];
        InterestsPush(p.sent + p.outq[..last], Uninterest);
      } else {
        Associative(p.sent, p.outq, [Interest]);
        InterestsPush(p.sent + p.outq, Interest);
      }
    }
  }

  /** The opposite is told exactly when the last wanted piece and the last request are gone. */
  lemma UnwantTells(p: Peer)
    requires p.Settled() && p.nwant > 0
    ensures Told(p) && Words(Unwant(p)) == if Told(Unwant(p)) then Words(p) else Words(p) + [false]
  {
    Associative(p.sent, p.outq, [Uninterest]);
    InterestsPush(p.sent + p.outq, Uninterest);
  }

  lemma NoReqsTells(p: Peer)
    requires p.Loose() && p.nreqsOut == 0
    ensures Words(OnNoReqs(p)) == if Told(OnNoReqs(p)) == Told(p) then Words(p) else Words(p) + [false]
  {
    Associative(p.sent, p.outq, [Uninterest]);
    InterestsPush(p.sent + p.outq, Uninterest);
  }
}
