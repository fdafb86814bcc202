/** In which order pieces are asked for: the order of getlst (btpd/download_subr.c). */
module Orders {
  import opened Lists
  import opened Peers
  import opened NetState
  import opened Requests

  /** What p has been asked for since n is of these pieces. */
  ghost predicate NewOf(n: Net, m: Net, p: nat, lst: seq<nat>) {
    p in n.peers && p in m.peers && forall x :: x in m.peers[p].reqs && x !in n.peers[p].reqs ==> x.piece in lst
  }

  /** Where one piece has changed, requests are new for that piece only. */
  lemma NewAreOf(n: Net, m: Net, i: nat, p: nat)
    requires Ledger(n.pieces, n.have, n.peers) && Ledger(m.pieces, m.have, m.peers) && m.have == n.have
    requires p in n.peers && p in m.peers && i in m.pieces && m.pieces == n.pieces[i := m.pieces[i]]
    ensures NewOf(n, m, p, [i])
  {
    forall x | x in m.peers[p].reqs && x.piece != i
      ensures x in n.peers[p].reqs
    {
      assert x == Block(x.piece, x.block);
      assert Asks(m.peers, p, x.piece, x.block);
      assert Listed(n.pieces, n.have, p, x.piece, x.block);
      assert Asks(n.peers, p, x.piece, x.block);
    }
  }

  lemma NewOfBoth(n: Net, m: Net, l: Net, p: nat, lst: seq<nat>, i: nat)
    requires NewOf(n, m, p, lst) && NewOf(m, l, p, [i])
    ensures NewOf(n, l, p, lst + [i])
  {
  }

  lemma Before(s: seq<nat>, b: nat, c: nat)
    requires b <= c <= |s|
    ensures forall x :: x in s[..b] ==> x in s[..c]
  {
    assert s[..c][..b] == s[..b];
  }

  lemma PlaceIn(s: seq<nat>, b: nat, c: nat)
    requires NoDup(s) && b < |s| && c <= |s| && s[b] in s[..c]
    ensures b < c
  {
  }

  // ---------- Outside end game ----------

  /** Where p has been asked for more of a piece of getlst, nothing is left to ask it of the pieces before. */
  ghost predicate InListOrder(n: Net, m: Net, p: nat) {
    && p in n.peers && p in m.peers
    && forall b, x :: 0 <= b < |n.getlst| && x in m.peers[p].reqs && x !in n.peers[p].reqs && x.piece == n.getlst[b] ==>
         NoneOf(m, p, n.getlst[..b])
  }

  /** The first loop of dl_assign_requests, k pieces on. */
  ghost predicate BusyInOrder(n: Net, m: Net, p: nat, k: nat) {
    && k <= |n.getlst| && NewOf(n, m, p, n.getlst[..k])
    && (k > 0 ==> NoneOf(m, p, n.getlst[..k - 1]))
  }

  lemma BusySkip(n: Net, m: Net, p: nat, k: nat)
    requires BusyInOrder(n, m, p, k) && k < |n.getlst| && NoneOf(m, p, n.getlst[..k])
    ensures BusyInOrder(n, m, p, k + 1)
  {
    TakeNext(n.getlst, k);
  }

  lemma BusyAsk(n: Net, m: Net, l: Net, p: nat, k: nat)
    requires BusyInOrder(n, m, p, k) && k < |n.getlst| && NoneOf(m, p, n.getlst[..k])
    requires Core(m) && !l.endgame && Assigned(m, l, n.getlst[k], p) && p in m.peers
    ensures BusyInOrder(n, l, p, k + 1)
  {
    NewAreOf(m, l, n.getlst[k], p);
    NewOfBoth(n, m, l, p, n.getlst[..k], n.getlst[k]);
    TakeNext(n.getlst, k);
    AssignedFrame(m, l, n.getlst[k], p);
    FewerWanted(m, l, p, n.getlst[..k]);
  }

  lemma FewerWanted(m: Net, l: Net, p: nat, lst: seq<nat>)
    requires NoneOf(m, p, lst) && WantSet(l) <= WantSet(m) && l.has == m.has
    ensures NoneOf(l, p, lst)
  {
  }

  lemma BusyOrdered(n: Net, m: Net, p: nat, k: nat)
    requires BusyInOrder(n, m, p, k) && NoDup(n.getlst)
    ensures InListOrder(n, m, p)
  {
    forall b, x | 0 <= b < |n.getlst| && x in m.peers[p].reqs && x !in n.peers[p].reqs && x.piece == n.getlst[b]
      ensures NoneOf(m, p, n.getlst[..b])
    {
      PlaceIn(n.getlst, b, k);
      Before(n.getlst, b, k - 1);
    }
  }

  /** When nothing is left of the whole list, or p is not asked for more of it, the order is kept. */
  lemma OrderStays(n: Net, m: Net, p: nat)
    requires p in n.peers && p in m.peers && NoneOf(m, p, n.getlst)
    ensures InListOrder(n, m, p)
  {
    forall b | 0 <= b < |n.getlst|
      ensures NoneOf(m, p, n.getlst[..b])
    {
      TakeAll(n.getlst);
      Before(n.getlst, b, |n.getlst|);
    }
  }

  // ---------- In end game ----------

  /** Where p has been asked for more of a piece, it has been asked for all that is missing of those before it. */
  ghost predicate InListOrderEg(n: Net, m: Net, p: nat) {
    && p in n.peers && p in m.peers
    && forall b, x :: 0 <= b < |n.getlst| && x in m.peers[p].reqs && x !in n.peers[p].reqs && x.piece == n.getlst[b] ==>
         AllExhausted(m, p, n.getlst[..b])
  }

  /** The first loop of dl_assign_requests_eg, c pieces on, k of which it has passed over. */
  ghost predicate TakenInOrder(n: Net, m: Net, p: nat, k: nat, c: nat) {
    && c <= |n.getlst| && k <= |m.getlst| && m.getlst[k..] == n.getlst[c..] && NewOf(n, m, p, n.getlst[..c])
    && (c > 0 ==> AllExhausted(m, p, n.getlst[..c - 1]))
    && (m.peers[p].Laden() || AllExhausted(m, p, n.getlst[..c]))
  }

  lemma TakenStart(n: Net, p: nat)
    requires p in n.peers
    ensures TakenInOrder(n, n, p, 0, 0)
  {
  }

  lemma NextIs(s: seq<nat>, k: nat, t: seq<nat>, c: nat)
    requires k < |s| && c <= |t| && s[k..] == t[c..]
    ensures c < |t| && t[c] == s[k] && s[k + 1..] == t[c + 1..]
    ensures (s[..k] + s[k + 1..])[k..] == t[c + 1..]
  {
    assert s[k..][0] == s[k] && s[k..][1..] == s[k + 1..] && t[c..][1..] == t[c + 1..];
  }

  lemma TakenSkip(n: Net, m: Net, p: nat, k: nat, c: nat)
    requires TakenInOrder(n, m, p, k, c) && k < |m.getlst| && !m.peers[p].Laden()
    requires AllExhausted(m, p, m.getlst[..k + 1])
    ensures TakenInOrder(n, m, p, k + 1, c + 1)
  {
    NextIs(m.getlst, k, n.getlst, c);
    TakeNext(n.getlst, c);
    TakeNext(m.getlst, k);
  }

  lemma TakenMove(n: Net, m: Net, l: Net, p: nat, k: nat, c: nat)
    requires TakenInOrder(n, m, p, k, c) && k < |m.getlst| && !m.peers[p].Laden()
    requires Core(m) && Core(l) && AskedMore(m, l, m.getlst[k], p)
    requires l.peers[p].Laden() || AllRequestedOf(l.peers, p, m.getlst[k], l.nblocks[m.getlst[k]], l.have[m.getlst[k]])
    ensures TakenInOrder(n, l.(getlst := l.getlst[..k] + l.getlst[k + 1..]), p, k, c + 1)
  {
    var i := m.getlst[k];
    NewAreOf(m, l, i, p);
    AskedMoreKeeps(m, l, i, p);
    ExhaustedStays(m, l, p, n.getlst[..c]);
    if !l.peers[p].Laden() {
      assert Exhausted(l, p, i);
    }
    TakenNext(n, m, l, p, k, c);
  }

  lemma TakenNext(n: Net, m: Net, l: Net, p: nat, k: nat, c: nat)
    requires TakenInOrder(n, m, p, k, c) && k < |m.getlst| && l.getlst == m.getlst
    requires NewOf(m, l, p, [m.getlst[k]]) && AllExhausted(l, p, n.getlst[..c])
    requires l.peers[p].Laden() || Exhausted(l, p, m.getlst[k])
    ensures TakenInOrder(n, l.(getlst := l.getlst[..k] + l.getlst[k + 1..]), p, k, c + 1)
  {
    var r := l.(getlst := l.getlst[..k] + l.getlst[k + 1..]);
    NextIs(m.getlst, k, n.getlst, c);
    NewOfBoth(n, m, l, p, n.getlst[..c], m.getlst[k]);
    TakeNext(n.getlst, c);
    SameExhausted(l, r, p, n.getlst[..c]);
    assert l.peers[p].Laden() || Exhausted(r, p, m.getlst[k]);
  }

  lemma SameExhausted(m: Net, l: Net, p: nat, lst: seq<nat>)
    requires AllExhausted(m, p, lst) && l == m.(getlst := l.getlst)
    ensures AllExhausted(l, p, lst)
  {
    forall j | j in lst
      ensures Exhausted(l, p, j)
    {
      assert Exhausted(m, p, j);
    }
  }

  lemma TakenOrdered(n: Net, m: Net, p: nat, k: nat, c: nat)
    requires TakenInOrder(n, m, p, k, c) && NoDup(n.getlst)
    ensures InListOrderEg(n, m, p)
  {
    forall b, x | 0 <= b < |n.getlst| && x in m.peers[p].reqs && x !in n.peers[p].reqs && x.piece == n.getlst[b]
      ensures AllExhausted(m, p, n.getlst[..b])
    {
      PlaceIn(n.getlst, b, c);
      Before(n.getlst, b, c - 1);
    }
  }

  lemma RelinkedInOrder(n: Net, m: Net, l: Net, p: nat)
    requires InListOrderEg(n, m, p) && l == m.(getlst := l.getlst)
    ensures InListOrderEg(n, l, p)
  {
    forall b | 0 <= b < |n.getlst| && AllExhausted(m, p, n.getlst[..b])
      ensures AllExhausted(l, p, n.getlst[..b])
    {
      SameExhausted(m, l, p, n.getlst[..b]);
    }
  }
}
