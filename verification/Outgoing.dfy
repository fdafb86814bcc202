/** A peer's output queue: what is put on it, withdrawn from it and written (btpd/peer.c, btpd/net.c). */
module Outgoing {
  import opened Lists
  import opened Wire
  import opened Buffers
  import opened Framer
  import opened Queues
  import Peers

  const MAXPIECEMSGS: nat := 128
  const IOV_MAX: nat := 1024

  // ---------- What changes behind the front leaves it alone ----------

  lemma FrontCut(tp: Torrent, q: seq<NetBuf>, off: nat, wire: seq<Byte>, gone: seq<Msg>, k: nat, d: nat)
    requires Paired(tp, q) && Front(q, off, wire, gone) && k < k + d <= |q| && !IsTail(q[k]) && !(k == 0 && off > 0)
    requires (d == 1 && !IsHead(q[k])) || (d == 2 && IsHead(q[k]))
    ensures var r := q[..k] + q[k + d..];
      Paired(tp, r) && Front(r, off, wire, gone) && Unsent(r, off) == Unsent(q, off)
  {
    var r := q[..k] + q[k + d..];
    CutKeepsPairs(nb => Good(tp, nb), (h, t) => Belongs(tp, h, t), q, k, d);
    if k == 0 {
      assert wire == EncodeAll(gone) + [] == EncodeAll(gone);
      if r != [] {
        assert PairedAt(nb => Good(tp, nb), (h, t) => Belongs(tp, h, t), q, d);
        assert PairedAt(nb => Good(tp, nb), (h, t) => Belongs(tp, h, t), q, 0);
        assert r[0] == q[d] && !IsTail(r[0]);
        GoodIsFull(tp, r[0]);
      }
    } else {
      assert r[0] == q[0];
    }
  }

  lemma GoodIsFull(tp: Torrent, nb: NetBuf)
    requires Good(tp, nb) && !IsTail(nb)
    ensures nb.buf != []
  {
  }

  lemma FrontAdd(tp: Torrent, q: seq<NetBuf>, off: nat, wire: seq<Byte>, gone: seq<Msg>, r: seq<NetBuf>)
    requires Paired(tp, q) && Front(q, off, wire, gone) && Paired(tp, r) && r != [] && !IsTail(r[0])
    ensures Paired(tp, q + r) && Front(q + r, off, wire, gone) && Unsent(q + r, off) == Unsent(q, off)
  {
    AddKeepsPairs(nb => Good(tp, nb), (h, t) => Belongs(tp, h, t), q, r);
    if q == [] {
      assert PairedAt(nb => Good(tp, nb), (h, t) => Belongs(tp, h, t), r, 0);
      GoodIsFull(tp, r[0]);
      assert EncodeAll(gone) + [] == EncodeAll(gone);
    }
  }

  lemma PairedOne(tp: Torrent, nb: NetBuf)
    requires Good(tp, nb) && !IsHead(nb) && !IsTail(nb)
    ensures Paired(tp, [nb])
  {
  }

  lemma PairedTwo(tp: Torrent, h: NetBuf, d: NetBuf)
    requires Good(tp, h) && Good(tp, d) && IsHead(h) && Belongs(tp, h, d)
    ensures Paired(tp, [h, d])
  {
  }

  /** A piece message and its block are withdrawn from behind the front. */
  lemma PairCut(tp: Torrent, q: seq<NetBuf>, k: nat)
    requires Paired(tp, q) && k < |q| && q[k].kind == PieceBuf
    ensures k + 1 < |q| && q[k + 1].kind == TorrentData && |Said(tp, q[k])| == 1
    ensures Queued(tp, q) == Queued(tp, q[..k]) + Said(tp, q[k]) + Queued(tp, q[k + 2..])
    ensures Queued(tp, q[..k] + q[k + 2..]) == Queued(tp, q[..k]) + Queued(tp, q[k + 2..])
    ensures DataCount(q) == DataCount(q[..k] + q[k + 2..]) + 1
  {
    assert PairedAt(nb => Good(tp, nb), (h, t) => Belongs(tp, h, t), q, k);
    SplitTwo(q, k);
    CutTwo(tp, q[..k], q[k], q[k + 1], q[k + 2..]);
  }

  lemma SplitTwo(q: seq<NetBuf>, k: nat)
    requires k + 1 < |q|
    ensures q == q[..k] + ([q[k]] + ([q[k + 1]] + q[k + 2..]))
  {
  }

  lemma CutTwo(tp: Torrent, a: seq<NetBuf>, h: NetBuf, d: NetBuf, b: seq<NetBuf>)
    requires h.kind == PieceBuf && d.kind == TorrentData
    ensures Queued(tp, a + ([h] + ([d] + b))) == Queued(tp, a) + Said(tp, h) + Queued(tp, b)
    ensures Queued(tp, a + b) == Queued(tp, a) + Queued(tp, b)
    ensures DataCount(a + ([h] + ([d] + b))) == DataCount(a + b) + 1
  {
    QueuedPlus(tp, a, [h] + ([d] + b));
    QueuedPlus(tp, [h], [d] + b);
    QueuedPlus(tp, [d], b);
    QueuedPlus(tp, a, b);
    QueuedOne(tp, h);
    QueuedOne(tp, d);
    TailSaysNothing(tp, d);
    DataCountPlus(a, [h] + ([d] + b));
    DataCountPlus([h], [d] + b);
    DataCountPlus([d], b);
    DataCountPlus(a, b);
    assert [] + Queued(tp, b) == Queued(tp, b);
  }

  // ---------- What choking withdraws ----------

  /** Piece messages and their blocks leave the queue, but for one that has begun. */
  function WithoutPieces(q: seq<NetBuf>, off: nat): seq<NetBuf> {
    if q == [] then []
    else if q[0].kind == PieceBuf && off == 0 && |q| > 1 then WithoutPieces(q[2..], 0)
    else [q[0]] + WithoutPieces(q[1..], 0)
  }

  function NoPiece(m: Msg): seq<Msg> {
    if m.Piece? then [] else [m]
  }

  function NoPieces(ms: seq<Msg>): seq<Msg> {
    Joined(NoPiece, ms)
  }

  lemma {:induction false} NoPiecesSame(ms: seq<Msg>)
    requires forall m :: m in ms ==> !m.Piece?
    ensures NoPieces(ms) == ms
  {
    if ms == [] {
    } else {
      NoPiecesSame(ms[1..]);
    }
  }

  /** In terms of messages: no piece message is left, every other message is, in the same order. */
  lemma {:induction false} WithoutPiecesSays(tp: Torrent, q: seq<NetBuf>)
    requires Paired(tp, q)
    ensures Queued(tp, WithoutPieces(q, 0)) == NoPieces(Queued(tp, q))
    decreases |q|
  {
    if q == [] {
    } else {
      DropKeepsPairs(nb => Good(tp, nb), (h, t) => Belongs(tp, h, t), q);
      QueuedTake(tp, q);
      JoinedPlus(NoPiece, Said(tp, q[0]), Queued(tp, q[1..]));
      if q[0].kind == PieceBuf {
        PairCut(tp, q, 0);
        DropKeepsPairs(nb => Good(tp, nb), (h, t) => Belongs(tp, h, t), q[1..]);
        assert q[1..][1..] == q[2..];
        WithoutPiecesSays(tp, q[2..]);
        QueuedTake(tp, q[1..]);
        TailSaysNothing(tp, q[1]);
        PieceIsDropped(Said(tp, q[0]));
      } else {
        WithoutPiecesSays(tp, q[1..]);
        OnlyPiecesHaveBlocks(tp, q[0]);
        NoPiecesSame(Said(tp, q[0]));
        QueuedPlus(tp, [q[0]], WithoutPieces(q[1..], 0));
        QueuedOne(tp, q[0]);
      }
    }
  }

  lemma PieceIsDropped(ms: seq<Msg>)
    requires |ms| == 1 && ms[0].Piece?
    ensures NoPieces(ms) == []
  {
    JoinedOne(NoPiece, ms[0]);
    assert ms == [ms[0]];
  }

  /** With a piece message that has begun at the front, only what is behind it is touched. */
  lemma BegunStays(tp: Torrent, q: seq<NetBuf>, off: nat)
    requires Paired(tp, q) && q != [] && (q[0].kind == PieceBuf ==> off > 0)
    ensures Queued(tp, WithoutPieces(q, off)) == Said(tp, q[0]) + NoPieces(Queued(tp, q[1..]))
  {
    DropKeepsPairs(nb => Good(tp, nb), (h, t) => Belongs(tp, h, t), q);
    WithoutPiecesSays(tp, q[1..]);
    QueuedPlus(tp, [q[0]], WithoutPieces(q[1..], 0));
    QueuedOne(tp, q[0]);
  }

  /** The queue as it will be after the scan, when the first k buffers have been passed. */
  function Scanned(q: seq<NetBuf>, off: nat, k: nat): seq<NetBuf>
    requires k <= |q|
  {
    q[..k] + WithoutPieces(q[k..], if k == 0 then off else 0)
  }

  lemma ScanPast(q: seq<NetBuf>, off: nat, k: nat)
    requires k < |q| && q[k].kind != PieceBuf
    ensures Scanned(q, off, k + 1) == Scanned(q, off, k)
  {
    assert q[k..][1..] == q[k + 1..] && q[..k + 1] == q[..k] + [q[k]];
  }

  lemma ScanPastBegun(q: seq<NetBuf>, off: nat)
    requires off > 0 && |q| > 1 && q[1].kind != PieceBuf
    ensures Scanned(q, off, 2) == Scanned(q, off, 0)
  {
    assert q[1..][1..] == q[2..] && q[..2] == [q[0]] + [q[1]];
    assert WithoutPieces(q[1..], 0) == [q[1]] + WithoutPieces(q[2..], 0);
    assert q[0..] == q;
  }

  lemma ScanCut(q: seq<NetBuf>, off: nat, k: nat)
    requires k + 1 < |q| && q[k].kind == PieceBuf && !(k == 0 && off > 0)
    ensures Scanned(q[..k] + q[k + 2..], off, k) == Scanned(q, off, k)
  {
    var r := q[..k] + q[k + 2..];
    assert r[..k] == q[..k] && r[k..] == q[k..][2..];
  }

  lemma PairSays(tp: Torrent, h: NetBuf, d: NetBuf)
    requires IsHead(h) && IsTail(d) && (h.kind == PieceBuf <==> d.kind == TorrentData)
    ensures Queued(tp, [h, d]) == Said(tp, h) && DataCount([h, d]) == if h.kind == PieceBuf then 1 else 0
  {
    assert [h] + [d] == [h, d];
    QueuedPlus(tp, [h], [d]);
    QueuedOne(tp, h);
    QueuedOne(tp, d);
    TailSaysNothing(tp, d);
    DataCountPlus([h], [d]);
  }

  // ---------- What a write takes ----------

  function Bytes(q: seq<NetBuf>): nat {
    if q == [] then 0 else |q[0].buf| + Bytes(q[1..])
  }

  lemma {:induction false} BytesNext(q: seq<NetBuf>, k: nat)
    requires k < |q|
    ensures Bytes(q[..k + 1]) == Bytes(q[..k]) + |q[k].buf|
  {
    if k == 0 {
      assert q[..1][1..] == [];
    } else {
      BytesNext(q[1..], k - 1);
      assert q[..k + 1][1..] == q[1..][..k] && q[..k][1..] == q[1..][..k - 1];
    }
  }

  /** The first m buffers can be written, and then what is next. */
  predicate Writable(q: seq<NetBuf>, m: nat) {
    && m <= |q|
    && (forall j :: 0 <= j < m ==> q[j].buf != [])
    && (0 < m < |q| && IsTail(q[m]) ==> q[m].buf != [])
  }

  /** nb_torrentdata_fill */
  function Filled(tp: Torrent, q: seq<NetBuf>, k: nat): seq<NetBuf>
    requires k + 1 < |q| && q[k].kind == PieceBuf && |q[k].buf| == 13 && GetLength(q[k]) >= 0
  {
    if q[k + 1].buf == [] then q[k + 1 := NetBuf(TorrentData, Block(tp, q[k]))] else q
  }

  lemma PieceAt(tp: Torrent, q: seq<NetBuf>, k: nat)
    requires Sound(tp) && Paired(tp, q) && k < |q| && q[k].kind == PieceBuf
    ensures k + 1 < |q| && q[k + 1].kind == TorrentData
    ensures |q[k].buf| == 13 && GetLength(q[k]) > 0 && Block(tp, q[k]) != []
    ensures Belongs(tp, q[k], NetBuf(TorrentData, Block(tp, q[k])))
  {
    assert PairedAt(nb => Good(tp, nb), (h, t) => Belongs(tp, h, t), q, k);
    assert |tp.content(GetIndex(q[k]), GetBegin(q[k]), GetLength(q[k]))| == GetLength(q[k]);
  }

  lemma FillKeepsPairs(tp: Torrent, q: seq<NetBuf>, k: nat)
    requires Sound(tp) && Paired(tp, q) && k + 1 < |q| && q[k].kind == PieceBuf
    requires |q[k].buf| == 13 && GetLength(q[k]) > 0
    ensures Paired(tp, Filled(tp, q, k))
  {
    PieceAt(tp, q, k);
    SwapKeepsPairs(nb => Good(tp, nb), (h, t) => Belongs(tp, h, t), q, k + 1, NetBuf(TorrentData, Block(tp, q[k])));
  }

  lemma FillKeepsFront(q: seq<NetBuf>, r: seq<NetBuf>, off: nat, wire: seq<Byte>, gone: seq<Msg>)
    requires Front(q, off, wire, gone) && q != [] && r != [] && r[0] == q[0]
    ensures Front(r, off, wire, gone) && Unsent(r, off) == Unsent(q, off)
  {
  }

  lemma FillSaysNothing(tp: Torrent, q: seq<NetBuf>, k: nat, x: NetBuf)
    requires 0 < k < |q| && q[k].kind == TorrentData && x.kind == TorrentData
    ensures Queued(tp, q[k := x]) == Queued(tp, q) && DataCount(q[k := x]) == DataCount(q)
  {
    assert q == q[..k] + [q[k]] + q[k + 1..] && q[k := x] == q[..k] + [x] + q[k + 1..];
    SwapSilent(tp, q[..k], q[k], x, q[k + 1..]);
  }

  lemma SwapSilent(tp: Torrent, a: seq<NetBuf>, x: NetBuf, y: NetBuf, b: seq<NetBuf>)
    requires IsTail(x) && IsTail(y) && x.kind == y.kind
    ensures Queued(tp, a + [x] + b) == Queued(tp, a + [y] + b)
    ensures DataCount(a + [x] + b) == DataCount(a + [y] + b)
  {
    forall z | z == x || z == y
      ensures Queued(tp, a + [z] + b) == Queued(tp, a) + Queued(tp, b)
      ensures DataCount(a + [z] + b) == DataCount(a) + DataCount([z]) + DataCount(b)
    {
      QueuedPlus(tp, a + [z], b);
      QueuedPlus(tp, a, [z]);
      QueuedOne(tp, z);
      TailSaysNothing(tp, z);
      DataCountPlus(a + [z], b);
      DataCountPlus(a, [z]);
    }
    assert DataCount([x]) == DataCount([y]);
  }

  lemma WritableNext(tp: Torrent, q: seq<NetBuf>, m: nat)
    requires Sound(tp) && Paired(tp, q) && Writable(q, m) && m < |q|
    requires m == 0 ==> q[0].buf != []
    requires q[m].kind == PieceBuf ==> m + 1 < |q| && q[m + 1].buf != []
    ensures Writable(q, m + 1)
  {
    assert PairedAt(nb => Good(tp, nb), (h, t) => Belongs(tp, h, t), q, m);
    assert m + 1 < |q| ==> PairedAt(nb => Good(tp, nb), (h, t) => Belongs(tp, h, t), q, m + 1);
    if !IsTail(q[m]) {
      GoodIsFull(tp, q[m]);
    }
  }

  lemma WritableDrop(tp: Torrent, q: seq<NetBuf>, m: nat)
    requires Sound(tp) && Paired(tp, q) && Writable(q, m) && 0 < m
    ensures |q| > 1 ==> q[1].buf != []
    ensures Writable(q[1..], m - 1)
  {
    assert |q| > 1 ==> PairedAt(nb => Good(tp, nb), (h, t) => Belongs(tp, h, t), q, 1);
    if |q| > 1 && !IsTail(q[1]) {
      GoodIsFull(tp, q[1]);
    }
  }

  // ---------- How much one write is offered ----------

  /** The bytes of a buffer, those of a block as well when it has not been read yet. */
  function Length(q: seq<NetBuf>, k: nat): nat
    requires k < |q|
  {
    if q[k].kind == TorrentData && q[k].buf == [] && k > 0 && q[k - 1].kind == PieceBuf && |q[k - 1].buf| == 13 &&
      GetLength(q[k - 1]) >= 0
    then GetLength(q[k - 1])
    else |q[k].buf|
  }

  function Size(q: seq<NetBuf>, m: nat): nat
    requires m <= |q|
  {
    if m == 0 then 0 else Size(q, m - 1) + Length(q, m - 1)
  }

  /** The blocks among the first m buffers, one of which only the rest is left included. */
  function Blocks(q: seq<NetBuf>, m: nat): (n: nat)
    requires m <= |q|
  {
    if m == 0 then (if q != [] && q[0].kind == TorrentData then 1 else 0)
    else Blocks(q, m - 1) + if q[m - 1].kind == PieceBuf then 1 else 0
  }

  /** The most buffers with one block at most, from k on. */
  function Most(q: seq<NetBuf>, k: nat): (m: nat)
    requires k <= |q| && k <= IOV_MAX && Blocks(q, k) <= 1
    ensures k <= m <= |q| && m <= 1024 && Blocks(q, m) <= 1
    ensures m == |q| || m == 1024 || Blocks(q, m + 1) > 1
    decreases |q| - k
  {
    if k == |q| || k == IOV_MAX || Blocks(q, k + 1) > 1 then k else Most(q, k + 1)
  }

  /** What a write is offered: one block at most, and no more than the limit if there is one. */
  function Offered(q: seq<NetBuf>, off: nat, wmax: nat): int {
    var size := Size(q, Most(q, 0)) - off;
    if wmax > 0 && wmax < size then wmax else size
  }

  /** The same buffers, but for blocks that have been read. */
  ghost predicate Alike(q: seq<NetBuf>, r: seq<NetBuf>) {
    |q| == |r| && forall k :: 0 <= k < |q| ==> r[k].kind == q[k].kind && Length(r, k) == Length(q, k)
  }

  lemma {:induction false} SizeAlike(q: seq<NetBuf>, r: seq<NetBuf>, m: nat)
    requires Alike(q, r) && m <= |q|
    ensures Size(r, m) == Size(q, m)
  {
    if m > 0 {
      SizeAlike(q, r, m - 1);
    }
  }

  lemma FillAlike(tp: Torrent, q: seq<NetBuf>, k: nat)
    requires Sound(tp) && Paired(tp, q) && k < |q| && q[k].kind == PieceBuf
    ensures k + 1 < |q| && |q[k].buf| == 13 && GetLength(q[k]) >= 0 && Alike(q, Filled(tp, q, k))
  {
    PieceAt(tp, q, k);
    assert |Block(tp, q[k])| == GetLength(q[k]);
  }

  /** What can be written has its length. */
  lemma {:induction false} WritableSize(q: seq<NetBuf>, m: nat)
    requires Writable(q, m)
    ensures Bytes(q[..m]) == Size(q, m)
  {
    if m > 0 {
      BytesNext(q, m - 1);
      assert Writable(q, m - 1);
      WritableSize(q, m - 1);
    }
  }

  lemma {:induction false} SizeGrows(q: seq<NetBuf>, k: nat, m: nat)
    requires k <= m <= |q|
    ensures Size(q, k) <= Size(q, m)
  {
    if k < m {
      SizeGrows(q, k, m - 1);
    }
  }

  /** Of the first niov buffers total bytes are offered, and one block at most is among them. */
  ghost predicate OfferedBelow(q: seq<NetBuf>, r: seq<NetBuf>, off: nat, wmax: nat, niov: nat, total: nat) {
    && Alike(q, r) && niov <= |q| && niov <= IOV_MAX && Blocks(q, niov) <= 1 && Most(q, niov) == Most(q, 0)
    && (niov == 0 ==> total == 0)
    && (niov > 0 ==> total == if wmax > 0 && wmax < Size(q, niov) - off then wmax else Size(q, niov) - off)
  }

  /** The first buffer is always taken. */
  lemma OneBlockFits(q: seq<NetBuf>, niov: nat)
    requires q != [] && niov <= |q| && (niov == |q| || niov > 0 || Blocks(q, niov + 1) > 1)
    ensures niov > 0
  {
    assert Blocks(q, 1) == Blocks(q, 0) + if q[0].kind == PieceBuf then 1 else 0;
  }

  lemma BlocksNext(q: seq<NetBuf>, r: seq<NetBuf>, k: nat)
    requires Alike(q, r) && k < |q|
    ensures Blocks(q, k + 1) == Blocks(q, k) + if r[k].kind == PieceBuf then 1 else 0
  {
  }

  lemma OfferedNext(q: seq<NetBuf>, r: seq<NetBuf>, off: nat, wmax: nat, niov: nat, total: nat, len: nat)
    requires Alike(q, r) && niov < |q| && niov < IOV_MAX && Blocks(q, niov + 1) <= 1
    requires exists r' :: OfferedBelow(q, r', off, wmax, niov, total)
    requires wmax > 0 ==> total < wmax
    requires var rest := Length(q, niov) - if niov > 0 then 0 else off;
      len == if wmax > 0 && wmax - total < rest then wmax - total else rest
    ensures OfferedBelow(q, r, off, wmax, niov + 1, total + len)
  {
  }

  /** The loop stops where no buffer more fits, or where the limit is used up. */
  lemma OfferedIs(q: seq<NetBuf>, r: seq<NetBuf>, off: nat, wmax: nat, niov: nat, total: nat)
    requires OfferedBelow(q, r, off, wmax, niov, total) && niov > 0
    requires niov == IOV_MAX || niov == |q| || (wmax > 0 && total == wmax) || Blocks(q, niov + 1) > 1
    ensures total == Offered(q, off, wmax)
  {
    SizeGrows(q, niov, Most(q, 0));
  }

  // ---------- The bits of the piece field ----------

  predicate ShowsBits(field: seq<Byte>, has: seq<bool>) {
    |field| == FieldLen(|has|) && forall i: nat :: i < |has| ==> (has[i] <==> HasBit(field, i))
  }

  /** f has all the bits that g has. */
  predicate Covers(f: seq<Byte>, g: seq<Byte>) {
    |f| == |g| && forall i: nat :: i < 8 * |g| && HasBit(g, i) ==> HasBit(f, i)
  }

  /** The field of which some bytes were written before it grew. */
  function Mixed(was: seq<Byte>, now: seq<Byte>, written: nat): seq<Byte>
    requires written <= |was| == |now|
  {
    was[..written] + now[written..]
  }

  /** It lies between the two. */
  lemma MixedBetween(was: seq<Byte>, now: seq<Byte>, written: nat)
    requires Covers(now, was) && written <= |was|
    ensures Covers(Mixed(was, now, written), was) && Covers(now, Mixed(was, now, written))
  {
    var mix := Mixed(was, now, written);
    forall i: nat | i < 8 * |was|
      ensures HasBit(was, i) ==> HasBit(mix, i)
      ensures HasBit(mix, i) ==> HasBit(now, i)
    {
      assert mix[i / 8] == if i / 8 < written then was[i / 8] else now[i / 8];
    }
  }

  /** Every bit field message shows a field between the first one and the present one. */
  ghost predicate Between(gone: seq<Msg>, first: seq<Byte>, field: seq<Byte>) {
    Covers(field, first) && forall f :: Bitfield(f) in gone ==> Covers(f, first) && Covers(field, f)
  }

  lemma BetweenMore(tp: Torrent, gone: seq<Msg>, first: seq<Byte>, nb: NetBuf)
    requires Between(gone, first, tp.field)
    ensures Between(gone + Said(tp, nb), first, tp.field)
  {
    HavesOnly(nb.buf);
    forall f | Bitfield(f) in gone + Said(tp, nb)
      ensures Covers(f, first) && Covers(tp.field, f)
    {
      assert Bitfield(f) in gone || f == tp.field;
    }
  }

  // ---------- The field grows ----------

  function Again(nb: NetBuf, field: seq<Byte>): NetBuf {
    if nb.kind == BitData then NetBuf(BitData, field) else nb
  }

  /** The queue when the field that its bit field message shows has changed. */
  function Reshown(q: seq<NetBuf>, field: seq<Byte>): (r: seq<NetBuf>)
    ensures |r| == |q| && forall k :: 0 <= k < |q| ==> r[k] == Again(q[k], field)
  {
    if q == [] then [] else [Again(q[0], field)] + Reshown(q[1..], field)
  }

  /** The same messages, but for the fields that bit field messages show. */
  ghost predicate SameTalk(a: seq<Msg>, b: seq<Msg>) {
    |a| == |b| && forall k :: 0 <= k < |a| ==> a[k] == b[k] || (a[k].Bitfield? && b[k].Bitfield?)
  }

  lemma GoodAgain(tp: Torrent, field: seq<Byte>, nb: NetBuf)
    requires Good(tp, nb) && |field| == |tp.field|
    ensures Good(tp.(field := field), Again(nb, field))
    ensures SameTalk(Said(tp, nb), Said(tp.(field := field), Again(nb, field)))
  {
    if nb.kind != BitfieldBuf && nb.kind != BitData {
      assert Said(tp.(field := field), nb) == Said(tp, nb);
    }
  }

  lemma PairedAgain(tp: Torrent, field: seq<Byte>, q: seq<NetBuf>)
    requires Paired(tp, q) && |field| == |tp.field|
    ensures Paired(tp.(field := field), Reshown(q, field))
  {
    var tp', r := tp.(field := field), Reshown(q, field);
    forall k | 0 <= k < |q|
      ensures r[k].kind == q[k].kind && (Good(tp, q[k]) ==> Good(tp', r[k]))
    {
      if Good(tp, q[k]) {
        GoodAgain(tp, field, q[k]);
      }
    }
    PairedAlike(nb => Good(tp, nb), (h, t) => Belongs(tp, h, t),
                nb => Good(tp', nb), (h, t) => Belongs(tp', h, t), q, r);
  }

  lemma PairedAlike(good: NetBuf -> bool, belongs: (NetBuf, NetBuf) -> bool,
                    good': NetBuf -> bool, belongs': (NetBuf, NetBuf) -> bool, q: seq<NetBuf>, r: seq<NetBuf>)
    requires PairedBy(good, belongs, q) && |r| == |q|
    requires forall k :: 0 <= k < |q| ==> r[k].kind == q[k].kind && (good(q[k]) ==> good'(r[k]))
    requires forall k :: 0 <= k < |q| - 1 ==> (belongs(q[k], q[k + 1]) ==> belongs'(r[k], r[k + 1]))
    ensures PairedBy(good', belongs', r)
  {
    forall k | 0 <= k < |r|
      ensures PairedAt(good', belongs', r, k)
    {
      assert PairedAt(good, belongs, q, k);
    }
  }

  lemma {:induction false} DataCountAgain(q: seq<NetBuf>, field: seq<Byte>)
    ensures DataCount(Reshown(q, field)) == DataCount(q)
  {
    if q == [] {
    } else {
      DataCountAgain(q[1..], field);
      assert Reshown(q, field)[1..] == Reshown(q[1..], field);
    }
  }

  lemma SameTalkPlus(a: seq<Msg>, a': seq<Msg>, b: seq<Msg>, b': seq<Msg>)
    requires SameTalk(a, a') && SameTalk(b, b')
    ensures SameTalk(a + b, a' + b')
  {
  }

  lemma {:induction false} QueuedAgain(tp: Torrent, field: seq<Byte>, q: seq<NetBuf>)
    requires (forall nb :: nb in q ==> Good(tp, nb)) && |field| == |tp.field|
    ensures SameTalk(Queued(tp, q), Queued(tp.(field := field), Reshown(q, field)))
  {
    if q == [] {
    } else {
      var tp', r := tp.(field := field), Reshown(q, field);
      GoodAgain(tp, field, q[0]);
      QueuedAgain(tp, field, q[1..]);
      assert r[1..] == Reshown(q[1..], field);
      QueuedTake(tp, q);
      QueuedTake(tp', r);
      SameTalkPlus(Said(tp, q[0]), Said(tp', r[0]), Queued(tp, q[1..]), Queued(tp', r[1..]));
    }
  }

  /** The messages gone, when the last is a bit field message that is being written. */
  function GoneAgain(q: seq<NetBuf>, gone: seq<Msg>, field: seq<Byte>): seq<Msg> {
    if q != [] && q[0].kind == BitData && gone != [] then gone[..|gone| - 1] + [Bitfield(field)] else gone
  }

  /** How much of the field has been written. */
  function FieldOff(q: seq<NetBuf>, off: nat): nat {
    if q != [] && q[0].kind == BitData then off else 0
  }

  lemma FrontAgain(tp: Torrent, q: seq<NetBuf>, off: nat, wire: seq<Byte>, gone: seq<Msg>, field: seq<Byte>)
    requires Sound(tp) && Paired(tp, q) && Front(q, off, wire, gone) && |field| == |tp.field|
    requires forall k :: 0 <= k < FieldOff(q, off) && k < |field| ==> field[k] == tp.field[k]
    ensures Front(Reshown(q, field), off, wire, GoneAgain(q, gone, field))
    ensures Unsent(Reshown(q, field), off) == Unsent(q, off)
  {
    if q != [] && q[0].kind == BitData {
      assert PairedAt(nb => Good(tp, nb), (h, t) => Belongs(tp, h, t), q, 0);
      var g := gone[..|gone| - 1];
      assert gone == g + [Bitfield(tp.field)];
      FieldWritten(g, tp.field, off, wire);
      FieldLeft(g, field, off, EncodeAll(g) + FieldHead(|field|) + tp.field[..off]);
      assert field[..off] == tp.field[..off];
    }
  }

  lemma FieldWritten(g: seq<Msg>, field: seq<Byte>, off: nat, wire: seq<Byte>)
    requires |field| < 0xffff_ffff && off <= |field| && wire + field[off..] == EncodeAll(g + [Bitfield(field)])
    ensures wire == EncodeAll(g) + FieldHead(|field|) + field[..off]
  {
    FieldEncoded(field);
    EncodeAllOne(Bitfield(field));
    EncodeAllPlus(g, [Bitfield(field)]);
    var all := EncodeAll(g) + FieldHead(|field|) + field[..off];
    FourParts(EncodeAll(g), FieldHead(|field|), field[..off], field[off..]);
    assert field[..off] + field[off..] == field;
    SameRest(wire, all, field[off..]);
  }

  lemma SameRest(a: seq<Byte>, b: seq<Byte>, rest: seq<Byte>)
    requires a + rest == b + rest
    ensures a == b
  {
    assert |a| == |b|;
    assert (a + rest)[..|a|] == a && (b + rest)[..|b|] == b;
  }

  lemma FieldLeft(g: seq<Msg>, field: seq<Byte>, off: nat, wire: seq<Byte>)
    requires |field| < 0xffff_ffff && off <= |field| && wire == EncodeAll(g) + FieldHead(|field|) + field[..off]
    ensures wire + field[off..] == EncodeAll(g + [Bitfield(field)])
  {
    FieldEncoded(field);
    EncodeAllOne(Bitfield(field));
    EncodeAllPlus(g, [Bitfield(field)]);
    FourParts(EncodeAll(g), FieldHead(|field|), field[..off], field[off..]);
    assert field[..off] + field[off..] == field;
  }

  lemma FourParts(a: seq<Byte>, b: seq<Byte>, c: seq<Byte>, d: seq<Byte>)
    ensures a + b + c + d == a + (b + (c + d))
  {
    Associative(a + b, c, d);
    Associative(a, b, c + d);
  }

  lemma BlockBytesAgain(q: seq<NetBuf>, gone: seq<Msg>, field: seq<Byte>)
    requires q != [] && q[0].kind == BitData ==> gone != [] && gone[|gone| - 1].Bitfield?
    ensures AllBlockBytes(GoneAgain(q, gone, field)) == AllBlockBytes(gone)
    ensures SameTalk(gone, GoneAgain(q, gone, field))
  {
    if q != [] && q[0].kind == BitData {
      LastOff(gone);
      LastFieldAgain(gone[..|gone| - 1], gone[|gone| - 1], field);
    }
  }

  lemma LastFieldAgain(g: seq<Msg>, last: Msg, field: seq<Byte>)
    requires last.Bitfield?
    ensures AllBlockBytes(g + [Bitfield(field)]) == AllBlockBytes(g + [last])
    ensures SameTalk(g + [last], g + [Bitfield(field)])
  {
    OneMoreMsg(g, Bitfield(field));
    OneMoreMsg(g, last);
  }

  // ---------- The state of a queue ----------

  /** Queue, wire, and the counts of blocks queued and of block bytes written fit together. */
  ghost predicate Consistent(tp: Torrent, q: seq<NetBuf>, off: nat, wire: seq<Byte>, gone: seq<Msg>, npieceMsgs: nat,
                             uploaded: nat) {
    && Sound(tp) && Paired(tp, q) && Front(q, off, wire, gone)
    && npieceMsgs == DataCount(q)
    && uploaded + Unsent(q, off) == AllBlockBytes(gone)
    && AllSendable(gone, tp.npieces)
  }

  lemma UnchokeSaid(tp: Torrent, nb: NetBuf)
    ensures Msg.Unchoke in Said(tp, nb) <==> nb.kind == UnchokeBuf
  {
    HavesOnly(nb.buf);
  }

  lemma GoneMore(gone: seq<Msg>, was: seq<Msg>, ms: seq<Msg>)
    requires was <= gone
    ensures was <= gone + ms && (gone + ms)[|was|..] == gone[|was|..] + ms
  {
  }

  /** Of so many bytes written of a buffer, those that are part of a block. */
  function BlockPart(nb: NetBuf, bytes: int): int {
    if nb.kind == TorrentData then bytes else 0
  }

  lemma FirstWritten(tp: Torrent, q: seq<NetBuf>, off: nat, wire: seq<Byte>, gone: seq<Msg>, npieceMsgs: nat,
                     uploaded: nat)
    requires Consistent(tp, q, off, wire, gone, npieceMsgs, uploaded) && q != [] && (|q| > 1 ==> q[1].buf != [])
    ensures off <= |q[0].buf| && BlockPart(q[0], 1) <= npieceMsgs
    ensures Consistent(tp, q[1..], 0, wire + q[0].buf[off..], gone + Said(tp, q[0]),
                       npieceMsgs - BlockPart(q[0], 1), uploaded + BlockPart(q[0], |q[0].buf| - off))
  {
    FrontStep(tp, q, off, wire, gone);
    UnsentStep(tp, q, off, gone, uploaded);
    PairedGood(tp, q);
    assert q[0] in q;
    SaidSendable(tp, q[0]);
    DropKeepsPairs(nb => Good(tp, nb), (h, t) => Belongs(tp, h, t), q);
  }

  lemma LogStays(tp: Torrent, q: seq<NetBuf>, gone: seq<Msg>)
    requires q != []
    ensures gone + Said(tp, q[0]) + Queued(tp, q[1..]) == gone + Queued(tp, q)
  {
    QueuedTake(tp, q);
    var a, b := Said(tp, q[0]), Queued(tp, q[1..]);
    assert gone + a + b == gone + (a + b);
  }

  lemma PartWritten(tp: Torrent, q: seq<NetBuf>, off: nat, wire: seq<Byte>, gone: seq<Msg>, npieceMsgs: nat,
                    uploaded: nat, k: nat)
    requires Consistent(tp, q, off, wire, gone, npieceMsgs, uploaded) && q != [] && off + k < |q[0].buf|
    ensures Consistent(tp, q, off + k, wire + q[0].buf[off..off + k], gone, npieceMsgs, uploaded + BlockPart(q[0], k))
  {
    PartOfBuffer(EncodeAll(gone), wire, q[0].buf, off, k);
  }

  lemma PartOfBuffer(all: seq<Byte>, wire: seq<Byte>, buf: seq<Byte>, off: nat, k: nat)
    requires off + k <= |buf|
    ensures wire == all + buf[..off] ==> wire + buf[off..off + k] == all + buf[..off + k]
    ensures wire + buf[off..] == all ==> wire + buf[off..off + k] + buf[off + k..] == all
  {
    assert buf[..off] + buf[off..off + k] == buf[..off + k];
    assert buf[off..] == buf[off..off + k] + buf[off + k..];
    assert all + buf[..off] + buf[off..off + k] == all + (buf[..off] + buf[off..off + k]);
    assert wire + buf[off..off + k] + buf[off + k..] == wire + (buf[off..off + k] + buf[off + k..]);
  }

  lemma Regrown(tp: Torrent, q: seq<NetBuf>, off: nat, wire: seq<Byte>, gone: seq<Msg>, npieceMsgs: nat, uploaded: nat,
                field: seq<Byte>)
    requires Consistent(tp, q, off, wire, gone, npieceMsgs, uploaded) && |field| == |tp.field|
    requires forall k :: 0 <= k < FieldOff(q, off) && k < |field| ==> field[k] == tp.field[k]
    ensures Consistent(tp.(field := field), Reshown(q, field), off, wire, GoneAgain(q, gone, field),
                       npieceMsgs, uploaded)
    ensures SameTalk(gone + Queued(tp, q), GoneAgain(q, gone, field) + Queued(tp.(field := field), Reshown(q, field)))
    ensures SameTalk(Queued(tp, q), Queued(tp.(field := field), Reshown(q, field)))
  {
    PairedAgain(tp, field, q);
    FrontAgain(tp, q, off, wire, gone, field);
    DataCountAgain(q, field);
    BlockBytesAgain(q, gone, field);
    PairedGood(tp, q);
    QueuedAgain(tp, field, q);
    var gone', tp' := GoneAgain(q, gone, field), tp.(field := field);
    SameTalkPlus(gone, gone', Queued(tp, q), Queued(tp', Reshown(q, field)));
  }

  lemma OffInField(tp: Torrent, q: seq<NetBuf>, off: nat, wire: seq<Byte>, gone: seq<Msg>)
    requires Paired(tp, q) && Front(q, off, wire, gone)
    ensures FieldOff(q, off) <= |tp.field|
  {
    if q != [] && q[0].kind == BitData {
      assert PairedAt(nb => Good(tp, nb), (h, t) => Belongs(tp, h, t), q, 0);
    }
  }

  lemma BetweenAgain(q: seq<NetBuf>, gone: seq<Msg>, first: seq<Byte>, was: seq<Byte>, now: seq<Byte>)
    requires Between(gone, first, was) && Covers(now, was)
    ensures Between(GoneAgain(q, gone, now), first, now)
  {
    forall f | Bitfield(f) in GoneAgain(q, gone, now)
      ensures Covers(f, first) && Covers(now, f)
    {
      if f != now {
        assert Bitfield(f) in gone;
      }
    }
  }

  // ---------- The queue ----------

  class OutQueue {
    var tp: Torrent
    ghost const first: seq<Byte>
    var outq: seq<NetBuf>
    var off: nat
    var npieceMsgs: nat
    var noRequests: bool
    var choking: bool
    var shown: bool
    var told: bool
    var uploaded: nat
    ghost var wire: seq<Byte>
    ghost var gone: seq<Msg>

    ghost predicate Valid()
      reads this
    {
      Consistent(tp, outq, off, wire, gone, npieceMsgs, uploaded) && Between(gone, first, tp.field)
    }

    /** All messages ever put on the queue and not withdrawn. */
    ghost function Log(): seq<Msg>
      reads this
    {
      gone + Queued(tp, outq)
    }

    constructor (tp: Torrent)
      requires Sound(tp)
      ensures Valid() && this.tp == tp && outq == [] && Log() == [] && wire == [] && uploaded == 0
      ensures choking && !noRequests
    {
      this.tp, first := tp, tp.field;
      outq, off, npieceMsgs, noRequests, choking, uploaded, wire, gone := [], 0, 0, false, true, 0, [], [];
      shown, told := false, false;
    }

    /** peer_send */
    method Send(nb: NetBuf)
      modifies this`outq
      ensures outq == old(outq) + [nb]
    {
      outq := outq + [nb];
    }

    /** peer_unsend: a buffer of which a part has been written stays. */
    method Unsend(k: nat) returns (removed: bool)
      requires k < |outq|
      requires outq[k].kind == TorrentData ==> npieceMsgs > 0
      modifies this`outq, this`npieceMsgs
      ensures removed <==> !(k == 0 && off > 0)
      ensures !removed ==> outq == old(outq) && npieceMsgs == old(npieceMsgs)
      ensures removed ==> outq == old(outq[..k] + outq[k + 1..])
      ensures removed ==> npieceMsgs == old(npieceMsgs) - if old(outq[k].kind) == TorrentData then 1 else 0
    {
      removed := !(k == 0 && off > 0);
      if removed {
        if outq[k].kind == TorrentData {
          npieceMsgs := npieceMsgs - 1;
        }
        outq := outq[..k] + outq[k + 1..];
      }
    }

    /** A buffer that is a message, or several, by itself. */
    method SendWhole(nb: NetBuf)
      requires Valid() && Good(tp, nb) && !IsHead(nb) && !IsTail(nb)
      modifies this`outq
      ensures Valid() && outq == old(outq) + [nb] && Queued(tp, outq) == old(Queued(tp, outq)) + Said(tp, nb)
    {
      PairedOne(tp, nb);
      FrontAdd(tp, outq, off, wire, gone, [nb]);
      QueuedPlus(tp, outq, [nb]);
      QueuedOne(tp, nb);
      DataCountPlus(outq, [nb]);
      Send(nb);
    }

    /** A message that has a buffer to itself is made by its encoder and queued. */
    method Say(m: Msg)
      requires Valid() && Whole(m)
      modifies this`outq
      ensures Valid() && Queued(tp, outq) == old(Queued(tp, outq)) + [m]
      ensures outq == old(outq) + [NetBuf(WholeKind(m), Encode(m))]
    {
      WholeIsGood(tp, m);
      var nb;
      if m.Shake? {
        nb := CreateShake(m.hash, m.id);
      } else if m.KeepAlive? {
        nb := CreateKeepAlive();
      } else if m.Have? {
        nb := CreateHave(m.index);
      } else if m.Request? || m.Cancel? {
        nb := CreateTriple(m);
      } else {
        nb := CreateOnesized(m, WholeKind(m));
      }
      SendWhole(nb);
    }

    method SendPair(h: NetBuf, d: NetBuf)
      requires Valid() && Good(tp, h) && Good(tp, d) && IsHead(h) && Belongs(tp, h, d)
      modifies this`outq, this`npieceMsgs
      ensures Valid() && outq == old(outq) + [h, d] && Queued(tp, outq) == old(Queued(tp, outq)) + Said(tp, h)
      ensures npieceMsgs == old(npieceMsgs) + if h.kind == PieceBuf then 1 else 0
    {
      PairedTwo(tp, h, d);
      FrontAdd(tp, outq, off, wire, gone, [h, d]);
      QueuedPlus(tp, outq, [h, d]);
      PairSays(tp, h, d);
      DataCountPlus(outq, [h, d]);
      Send(h);
      Send(d);
      assert outq == old(outq) + [h, d];
      if h.kind == PieceBuf {
        npieceMsgs := npieceMsgs + 1;
      }
    }

    /** Withdraws a piece message with its block, unless a part of it is already written. */
    method UnsendPiece(k: nat) returns (removed: bool)
      requires Valid() && k < |outq| && outq[k].kind == PieceBuf
      modifies this`outq, this`npieceMsgs
      ensures Valid() && k + 1 < |old(outq)| && old(outq)[k + 1].kind == TorrentData &&
        (removed <==> !(k == 0 && off > 0))
      ensures outq == if removed then old(outq[..k] + outq[k + 2..]) else old(outq)
    {
      PairCut(tp, outq, k);
      if !(k == 0 && off > 0) {
        FrontCut(tp, outq, off, wire, gone, k, 2);
      }
      removed := Unsend(k);
      if removed {
        assert outq[k] == old(outq[k + 1]);
        var both := Unsend(k);
        assert outq == old(outq[..k] + outq[k + 2..]);
      }
    }

    /** peer_unchoke */
    method Unchoke()
      requires Valid()
      modifies this`outq, this`choking
      ensures Valid() && !choking && Queued(tp, outq) == old(Queued(tp, outq)) + [Msg.Unchoke]
    {
      choking := false;
      Say(Msg.Unchoke);
    }

    /** The loop of peer_choke. */
    method WithdrawPieces()
      requires Valid()
      modifies this`outq, this`npieceMsgs
      ensures Valid() && outq == WithoutPieces(old(outq), off)
    {
      var k := 0;
      assert outq[0..] == outq;
      while k < |outq|
        invariant k <= |outq| && Valid()
        invariant Scanned(outq, off, k) == WithoutPieces(old(outq), off)
        decreases |outq| - k
      {
        if outq[k].kind == PieceBuf {
          ghost var q := outq;
          var removed := UnsendPiece(k);
          if removed {
            ScanCut(q, off, k);
          } else {
            ScanPastBegun(q, off);
            k := k + 2;
          }
        } else {
          ScanPast(outq, off, k);
          k := k + 1;
        }
      }
      assert outq[..k] == outq && outq[k..] == [];
    }

    /** All piece messages but one that has begun are gone from the queue, all else is there, and choke follows. */
    twostate predicate PiecesWithdrawn()
      reads this
    {
      if old(outq) == [] || (old(outq[0].kind) == PieceBuf && off == 0) then
        Queued(tp, outq) == NoPieces(old(Queued(tp, outq))) + [Msg.Choke]
      else
        Queued(tp, outq) == Said(tp, old(outq[0])) + NoPieces(old(Queued(tp, outq[1..]))) + [Msg.Choke]
    }

    /**
     peer_choke: the other side will ask again for what it still wants, so the blocks queued for
     it are withdrawn, except one whose message has begun.
     */
    method Choke()
      requires Valid()
      modifies this`outq, this`npieceMsgs, this`choking
      ensures Valid() && choking && PiecesWithdrawn()
    {
      if outq != [] && (outq[0].kind == PieceBuf ==> off > 0) {
        BegunStays(tp, outq, off);
      } else {
        WithoutPiecesSays(tp, outq);
      }
      WithdrawPieces();
      choking := true;
      Say(Msg.Choke);
    }

    /** The loop of net_write that gathers what may be written, and reads a block if it is its turn. */
    method Gather(wmax: nat) returns (niov: nat, total: nat)
      requires Valid() && outq != []
      modifies this`outq
      ensures Valid() && Queued(tp, outq) == old(Queued(tp, outq)) && Alike(old(outq), outq)
      ensures Writable(outq, niov) && 0 < niov && 0 < total <= Bytes(outq[..niov]) - off
      ensures total == Offered(old(outq), off, wmax)
    {
      var limited := wmax > 0;
      var left: nat := wmax;
      var blockCount := if outq[0].kind == TorrentData then 1 else 0;
      ghost var q, said := outq, Queued(tp, outq);
      niov, total := 0, 0;
      NothingGathered(wmax);
      while niov < IOV_MAX && niov < |outq| && (!limited || left > 0)
        invariant Gathering(q, said, wmax, niov, total, left, blockCount) == true  // not conjunct by conjunct
        decreases |q| - niov
      {
        if SecondBlock(niov, blockCount) {
          NoBlockFits(q, said, wmax, niov, total, left, blockCount);
          break;
        }
        niov, total, left, blockCount := GatherOne(q, said, wmax, niov, total, left, blockCount);
      }
      AllGathered(q, said, wmax, niov, total, left, blockCount);
    }

    /** The next message is a block, and there is one already. */
    predicate SecondBlock(niov: nat, blockCount: nat)
      requires niov < |outq|
      reads this
    {
      outq[niov].kind == PieceBuf && blockCount >= 1
    }

    lemma NoBlockFits(q: seq<NetBuf>, said: seq<Msg>, wmax: nat, niov: nat, total: nat, left: nat, blockCount: nat)
      requires Gathering(q, said, wmax, niov, total, left, blockCount) && niov < |outq|
      requires SecondBlock(niov, blockCount)
      ensures niov < |q| && Blocks(q, niov + 1) > 1
    {
      BlocksNext(q, outq, niov);
    }

    lemma NothingGathered(wmax: nat)
      requires Valid() && outq != []
      ensures Gathering(outq, Queued(tp, outq), wmax, 0, 0, wmax, if outq[0].kind == TorrentData then 1 else 0)
    {
    }

    lemma AllGathered(q: seq<NetBuf>, said: seq<Msg>, wmax: nat, niov: nat, total: nat, left: nat, blockCount: nat)
      requires Gathering(q, said, wmax, niov, total, left, blockCount) && q != []
      requires niov == IOV_MAX || niov >= |q| || (wmax > 0 && left == 0) || Blocks(q, niov + 1) > 1
      ensures Valid() && Queued(tp, outq) == said && Alike(q, outq) && Writable(outq, niov)
      ensures 0 < niov && 0 < total <= Bytes(outq[..niov]) - off && total == Offered(q, off, wmax)
    {
      OneBlockFits(q, niov);
      OfferedIs(q, outq, off, wmax, niov, total);
    }

    /** The first niov buffers can be written, and of them total bytes may be; the messages are as they were. */
    ghost predicate Gathering(q: seq<NetBuf>, said: seq<Msg>, wmax: nat, niov: nat, total: nat, left: nat,
                              blockCount: nat)
      reads this
    {
      && Valid() && Writable(outq, niov) && (niov == 0 <==> total == 0)
      && total <= Bytes(outq[..niov]) - (if niov > 0 then off else 0)
      && OfferedBelow(q, outq, off, wmax, niov, total) && Queued(tp, outq) == said
      && (wmax > 0 ==> total + left == wmax) && blockCount == Blocks(q, niov)
    }

    /** How much of the next buffer may be written. */
    method GatherOne(ghost q: seq<NetBuf>, ghost said: seq<Msg>, wmax: nat, niov: nat, total: nat, left: nat,
                     blockCount: nat) returns (niov': nat, total': nat, left': nat, blockCount': nat)
      requires Gathering(q, said, wmax, niov, total, left, blockCount) && niov < |outq| && niov < IOV_MAX
      requires !SecondBlock(niov, blockCount) && (wmax > 0 ==> left > 0)
      modifies this`outq
      ensures Gathering(q, said, wmax, niov', total', left', blockCount') == true && niov' == niov + 1
    {
      ghost var r := outq;
      BlocksNext(q, r, niov);
      blockCount' := blockCount + if outq[niov].kind == PieceBuf then 1 else 0;
      Prepare(niov);
      var len := |outq[niov].buf| - if niov > 0 then 0 else off;
      if wmax > 0 && len > left {
        len := left;
      }
      niov', total', left' := niov + 1, total + len, if wmax > 0 then left - len else left;
      OneMore(r, q, wmax, niov, total, len, said, left', blockCount');
    }

    lemma OneMore(r: seq<NetBuf>, q: seq<NetBuf>, wmax: nat, niov: nat, total: nat, len: nat, said: seq<Msg>,
                  left: nat, blockCount: nat)
      requires OfferedBelow(q, r, off, wmax, niov, total) && niov < |q| && niov < IOV_MAX && Blocks(q, niov + 1) <= 1
      requires Alike(r, outq) && Writable(outq, niov + 1) && (niov == 0 <==> total == 0)
      requires Bytes(outq[..niov + 1]) == Bytes(r[..niov]) + |outq[niov].buf|
      requires total <= Bytes(r[..niov]) - (if niov > 0 then off else 0) && (niov == 0 ==> |outq[0].buf| > off)
      requires wmax > 0 ==> total < wmax
      requires var rest := |outq[niov].buf| - if niov > 0 then 0 else off;
        len == if wmax > 0 && wmax - total < rest then wmax - total else rest
      requires Valid() && Queued(tp, outq) == said && (wmax > 0 ==> total + len + left == wmax)
      requires blockCount == Blocks(q, niov + 1)
      ensures Gathering(q, said, wmax, niov + 1, total + len, left, blockCount)
    {
      assert Length(outq, niov) == |outq[niov].buf|;
      OfferedNext(q, outq, off, wmax, niov, total, len);
    }

    /** The next buffer can be written when the block behind it has been read. */
    method Prepare(k: nat)
      requires Valid() && k < |outq| && Writable(outq, k)
      modifies this`outq
      ensures Valid() && Alike(old(outq), outq)
      ensures Queued(tp, outq) == old(Queued(tp, outq)) && Writable(outq, k + 1)
      ensures Bytes(outq[..k + 1]) == old(Bytes(outq[..k])) + |outq[k].buf|
      ensures k == 0 ==> |outq[k].buf| > off
    {
      if outq[k].kind == PieceBuf {
        Fill(k);
      }
      WritableNext(tp, outq, k);
      BytesNext(outq, k);
    }

    method Fill(k: nat)
      requires Valid() && k < |outq| && outq[k].kind == PieceBuf
      modifies this`outq
      ensures Valid() && Alike(old(outq), outq) && outq[..k + 1] == old(outq[..k + 1])
      ensures outq[0] == old(outq[0]) && Bytes(outq[..k]) == old(Bytes(outq[..k]))
      ensures forall j :: 0 <= j < k ==> outq[j] == old(outq[j])
      ensures k + 1 < |outq| && outq[k + 1].buf != [] && Queued(tp, outq) == old(Queued(tp, outq))
    {
      PieceAt(tp, outq, k);
      FillKeepsPairs(tp, outq, k);
      FillAlike(tp, outq, k);
      FillSaysNothing(tp, outq, k + 1, NetBuf(TorrentData, Block(tp, outq[k])));
      FillKeepsFront(outq, Filled(tp, outq, k), off, wire, gone);
      outq := Filled(tp, outq, k);
      assert outq[..k] == old(outq[..k]);
    }

    /** peer_sent */
    method Sent(nb: NetBuf)
      requires nb.kind == TorrentData ==> npieceMsgs > 0
      modifies this`npieceMsgs, this`noRequests
      ensures npieceMsgs == old(npieceMsgs) - if nb.kind == TorrentData then 1 else 0
      ensures noRequests == (old(noRequests) && nb.kind != UnchokeBuf)
    {
      if nb.kind == UnchokeBuf {
        noRequests := false;
      }
      if nb.kind == TorrentData {
        npieceMsgs := npieceMsgs - 1;
      }
    }

    /** The rest of the first buffer has been written. */
    method WroteFirst(ghost m: nat) returns (bufdelta: nat)
      requires Valid() && outq != [] && Writable(outq, m) && m > 0
      modifies this`outq, this`off, this`npieceMsgs, this`noRequests, this`uploaded, this`wire, this`gone
      ensures Valid() && outq == old(outq[1..]) && off == 0 && Writable(outq, m - 1)
      ensures bufdelta == |old(outq[0].buf)| - old(off)
      ensures wire == old(wire) + old(outq[0].buf[off..])
      ensures gone == old(gone) + Said(tp, old(outq[0]))
      ensures noRequests <==> old(noRequests) && Msg.Unchoke !in Said(tp, old(outq[0]))
    {
      UnchokeSaid(tp, outq[0]);
      WritableDrop(tp, outq, m);
      FirstWritten(tp, outq, off, wire, gone, npieceMsgs, uploaded);
      BetweenMore(tp, gone, first, outq[0]);
      bufdelta := |outq[0].buf| - off;
      PopFirst(bufdelta);
    }

    method PopFirst(bufdelta: nat)
      requires outq != [] && off <= |outq[0].buf| && (outq[0].kind == TorrentData ==> npieceMsgs > 0)
      modifies this`outq, this`off, this`npieceMsgs, this`noRequests, this`uploaded, this`wire, this`gone
      ensures outq == old(outq[1..]) && off == 0 && (noRequests <==> old(noRequests && outq[0].kind != UnchokeBuf))
      ensures npieceMsgs == old(npieceMsgs) - BlockPart(old(outq[0]), 1)
      ensures uploaded == old(uploaded) + BlockPart(old(outq[0]), bufdelta)
      ensures wire == old(wire + outq[0].buf[off..]) && gone == old(gone) + Said(tp, old(outq[0]))
    {
      Sent(outq[0]);
      if outq[0].kind == TorrentData {
        uploaded := uploaded + bufdelta;
      }
      wire, gone := wire + outq[0].buf[off..], gone + Said(tp, outq[0]);
      outq := outq[1..];
      off := 0;
    }

    /** A part of the first buffer has been written. */
    method WrotePart(bcount: nat)
      requires Valid() && outq != [] && off + bcount < |outq[0].buf|
      modifies this`off, this`uploaded, this`wire
      ensures Valid() && off == old(off) + bcount && wire == old(wire) + outq[0].buf[old(off)..off]
    {
      PartWritten(tp, outq, off, wire, gone, npieceMsgs, uploaded, bcount);
      if outq[0].kind == TorrentData {
        uploaded := uploaded + bcount;
      }
      wire := wire + outq[0].buf[off..off + bcount];
      off := off + bcount;
    }

    /** As many bytes as are offered, or written, are on the wire now, and the messages are as they were. */
    twostate predicate Wrote(wmax: nat, written: nat)
      reads this
    {
      var offered := Offered(old(outq), old(off), wmax);
      && Log() == old(Log()) && old(wire) <= wire && HeardUnchoke(old(noRequests), old(gone))
      && |wire| == |old(wire)| + if written < offered then written else offered
    }

    /**
     net_write, when writev takes written bytes of what was gathered: exactly that many bytes
     appear on the wire, and nothing but the place between wire and queue changes.
     */
    method NetWrite(wmax: nat, written: nat) returns (n: nat)
      requires Valid() && outq != []
      modifies this`outq, this`off, this`npieceMsgs, this`noRequests, this`uploaded, this`wire, this`gone
      ensures Valid() && Wrote(wmax, written) && (written > 0 ==> n > 0)
      ensures n == |wire| - |old(wire)|
    {
      var niov, total := Gather(wmax);
      n := if written < total then written else total;
      Account(n, niov);
    }

    /** More messages have been written, and if unchoke was one of them, requests are heard again. */
    ghost predicate HeardUnchoke(ignored: bool, was: seq<Msg>)
      reads this
    {
      was <= gone && (noRequests <==> ignored && Msg.Unchoke !in gone[|was|..])
    }

    /** The loop of net_write that takes what has been written off the queue. */
    method Account(n: nat, ghost niov: nat)
      requires Valid() && outq != [] && Writable(outq, niov) && n <= Bytes(outq[..niov]) - off
      modifies this`outq, this`off, this`npieceMsgs, this`noRequests, this`uploaded, this`wire, this`gone
      ensures Valid() && Log() == old(Log())
      ensures old(wire) <= wire && |wire| == |old(wire)| + n && HeardUnchoke(old(noRequests), old(gone))
    {
      var bcount: nat := n;
      ghost var m: nat := niov;
      while bcount > 0
        invariant Valid() && Log() == old(Log()) && Writable(outq, m)
        invariant bcount > 0 ==> m > 0 && bcount <= Bytes(outq[..m]) - off
        invariant old(wire) <= wire && |wire| + bcount == |old(wire)| + n && HeardUnchoke(old(noRequests), old(gone))
      {
        bcount, m := AccountOne(bcount, m, old(noRequests), old(gone));
      }
    }

    method AccountOne(bcount: nat, ghost m: nat, ghost ignored: bool, ghost was: seq<Msg>)
        returns (rest: nat, ghost m': nat)
      requires Valid() && Writable(outq, m) && 0 < bcount <= Bytes(outq[..m]) - off && m > 0
      requires HeardUnchoke(ignored, was)
      modifies this`outq, this`off, this`npieceMsgs, this`noRequests, this`uploaded, this`wire, this`gone
      ensures Valid() && Log() == old(Log()) && Writable(outq, m') && HeardUnchoke(ignored, was)
      ensures rest < bcount && (rest > 0 ==> m' > 0 && rest <= Bytes(outq[..m']) - off)
      ensures old(wire) <= wire && |wire| + rest == |old(wire)| + bcount
    {
      assert outq[..m][1..] == outq[1..][..m - 1];
      m' := m;
      if bcount >= |outq[0].buf| - off {
        LogStays(tp, outq, gone);
        GoneMore(gone, was, Said(tp, outq[0]));
        var bufdelta := WroteFirst(m);
        rest := bcount - bufdelta;
        m' := m - 1;
      } else {
        WrotePart(bcount);
        rest := 0;
      }
    }

    /** The block is queued, and behind the 128th choke and unchoke, and no more until that unchoke is sent. */
    twostate predicate Requested(index: Word, begin: Word, length: Word)
      reads this
    {
      var now := old(Queued(tp, outq)) + [Piece(index, begin, tp.content(index, begin, length))];
      if old(noRequests) then
        outq == old(outq) && noRequests
      else
        && (noRequests <==> old(npieceMsgs) + 1 >= 128)
        && Queued(tp, outq) == if noRequests then now + [Msg.Choke] + [Msg.Unchoke] else now
    }

    /** peer_on_request: the block asked for is queued, and choke and unchoke when there are too many. */
    method OnRequest(index: Word, begin: Word, length: Word)
      requires Valid() && 0 < length <= PIECE_BLOCKLEN
      modifies this`outq, this`npieceMsgs, this`noRequests
      ensures Valid() && Requested(index, begin, length)
    {
      if !noRequests {
        QueuePiece(index, begin, length);
        if npieceMsgs >= MAXPIECEMSGS {
          Say(Msg.Choke);
          Say(Msg.Unchoke);
          noRequests := true;
        }
      }
    }

    method QueuePiece(index: Word, begin: Word, length: Word)
      requires Valid() && 0 < length <= PIECE_BLOCKLEN
      modifies this`outq, this`npieceMsgs
      ensures Valid() && npieceMsgs == old(npieceMsgs) + 1
      ensures Queued(tp, outq) == old(Queued(tp, outq)) + [Piece(index, begin, tp.content(index, begin, length))]
    {
      var h := CreatePiece(index, begin, length);
      PieceHeadRead(index, begin, length);
      SendPair(h, NetBuf(TorrentData, []));
    }

    /**
     What peer_on_shake sends: the pieces we have, one by one when that takes fewer bytes than the
     field. has are the bits of the field.
     */
    method ShowPieces(has: seq<bool>, haveNpieces: nat)
      requires Valid() && |has| == tp.npieces <= 0x1_0000_0000 && haveNpieces == |Haves(has, |has|)|
      requires ShowsBits(tp.field, has)
      modifies this`outq, this`npieceMsgs
      ensures Valid() && Queued(tp, outq) == old(Queued(tp, outq)) + Showing(tp, has)
    {
      if haveNpieces > 0 {
        if haveNpieces * 9 < 5 + FieldLen(tp.npieces) {
          var nb := CreateMultiHave(has, haveNpieces);
          HavesRead(Haves(has, |has|));
          HavesLength(Haves(has, |has|));
          SendWhole(nb);
        } else {
          var h := CreateBitfield(tp.npieces);
          SendPair(h, NetBuf(BitData, tp.field));
        }
      }
    }

    method FindPiece(index: Word, begin: Word, length: Word) returns (k: nat)
      ensures k <= |outq| && forall j :: 0 <= j < k ==> !Matches(outq[j], index, begin, length)
      ensures k < |outq| ==> Matches(outq[k], index, begin, length)
    {
      k := 0;
      while k < |outq| && !Matches(outq[k], index, begin, length)
        invariant k <= |outq| && forall j :: 0 <= j < k ==> !Matches(outq[j], index, begin, length)
      {
        k := k + 1;
      }
    }

    /** Place k is that of the first block that matches; it goes with its message, unless that has begun. */
    twostate predicate BlockWithdrawn(k: nat, index: Word, begin: Word, length: Word)
      reads this
    {
      var block := [Piece(index, begin, tp.content(index, begin, length))];
      && k <= |old(outq)| && (forall j :: 0 <= j < k ==> Said(tp, old(outq)[j]) != block)
      && (k < |old(outq)| ==> Said(tp, old(outq)[k]) == block)
      && (k == |old(outq)| || (k == 0 && off > 0) ==> outq == old(outq))
      && (k < |old(outq)| && !(k == 0 && off > 0) ==>
           && k + 2 <= |old(outq)| && outq == old(outq[..k] + outq[k + 2..])
           && Queued(tp, outq) == Queued(tp, old(outq[..k])) + Queued(tp, old(outq[k + 2..]))
           && old(Queued(tp, outq)) == Queued(tp, old(outq[..k])) + block + Queued(tp, old(outq[k + 2..])))
    }

    /** peer_on_cancel: the first queued block that matches is withdrawn, unless its message has begun. */
    method OnCancel(index: Word, begin: Word, length: Word) returns (k: nat, removed: bool)
      requires Valid()
      modifies this`outq, this`npieceMsgs
      ensures Valid() && BlockWithdrawn(k, index, begin, length)
      ensures removed <==> k < |old(outq)| && !(k == 0 && off > 0)
    {
      removed := false;
      k := FindPiece(index, begin, length);
      MatchesSay(tp, outq, index, begin, length);
      if k < |outq| {
        PairCut(tp, outq, k);
        removed := UnsendPiece(k);
      }
    }

    /** peer_unsend of a message that is a buffer of its own, as peer_cancel, peer_want and peer_on_choke use it. */
    method UnsendWhole(k: nat) returns (removed: bool)
      requires Valid() && k < |outq| && !IsHead(outq[k]) && !IsTail(outq[k])
      modifies this`outq, this`npieceMsgs
      ensures Valid() && (removed <==> !(k == 0 && off > 0))
      ensures outq == if removed then old(outq[..k] + outq[k + 1..]) else old(outq)
      ensures removed ==>
        && Queued(tp, outq) == Queued(tp, old(outq[..k])) + Queued(tp, old(outq[k + 1..]))
        && old(Queued(tp, outq)) == Queued(tp, old(outq[..k])) + Said(tp, old(outq[k])) + Queued(tp, old(outq[k + 1..]))
    {
      if !(k == 0 && off > 0) {
        FrontCut(tp, outq, off, wire, gone, k, 1);
        WholeCut(tp, outq, k);
      }
      removed := Unsend(k);
    }

    /** The request at place k is gone from the queue, or a cancel follows what is queued. */
    twostate predicate TakenBack(k: nat, index: Word, begin: Word, length: Word)
      reads this
    {
      if k < |old(outq)| && !(k == 0 && off > 0) then
        && Queued(tp, outq) == Queued(tp, old(outq[..k])) + Queued(tp, old(outq[k + 1..]))
        && old(Queued(tp, outq)) == Queued(tp, old(outq[..k])) + [Request(index, begin, length)]
             + Queued(tp, old(outq[k + 1..]))
      else
        Queued(tp, outq) == old(Queued(tp, outq)) + [Msg.Cancel(index, begin, length)]
    }

    /**
     peer_cancel of a request whose buffer stands at place k, or no longer stands in the queue: it
     is withdrawn, or if that cannot be a cancel follows it.
     */
    method CancelRequest(k: nat, index: Word, begin: Word, length: Word)
      requires Valid() && (k < |outq| ==> outq[k] == NetBuf(RequestBuf, Encode(Request(index, begin, length))))
      modifies this`outq, this`npieceMsgs
      ensures Valid() && TakenBack(k, index, begin, length)
    {
      var removed := false;
      WholeIsGood(tp, Request(index, begin, length));
      if k < |outq| {
        removed := UnsendWhole(k);
      }
      if !removed {
        Say(Msg.Cancel(index, begin, length));
      }
    }

    /** Uninterest is withdrawn from the end of the queue, or interest is put there. */
    twostate predicate Wanted()
      reads this
    {
      if old(outq) != [] && old(outq)[|old(outq)| - 1].kind == UninterestBuf && !(|old(outq)| == 1 && off > 0) then
        old(Queued(tp, outq)) == Queued(tp, outq) + [Msg.Uninterest]
      else
        Queued(tp, outq) == old(Queued(tp, outq)) + [Msg.Interest]
    }

    /** What peer_want does to the queue: an uninterest at its end is withdrawn, or interest follows it. */
    method Want()
      requires Valid()
      modifies this`outq, this`npieceMsgs
      ensures Valid() && Wanted()
    {
      var unsent := false;
      if outq != [] && outq[|outq| - 1].kind == UninterestBuf {
        var k := |outq| - 1;
        ghost var q := outq;
        unsent := UnsendWhole(k);
        assert q[k + 1..] == [] && Queued(tp, q[..k]) + [] == Queued(tp, q[..k]);
      }
      if !unsent {
        Say(Msg.Interest);
      }
    }

    method SweepOne(k: nat) returns (k': nat)
      requires Valid() && k < |outq|
      modifies this`outq, this`npieceMsgs
      ensures Valid() && Keeps(old(Log()), Log()) && k' <= |outq| && |outq| - k' < |old(outq)| - k
      ensures Swept(outq, off, k') == Swept(old(outq), off, k)
    {
      SweepStep(outq, off, k);
      var removed := false;
      if outq[k].kind == RequestBuf {
        ghost var q := outq;
        removed := UnsendWhole(k);
        if removed {
          KeepsLess(gone, Queued(tp, q[..k]), Said(tp, q[k]), Queued(tp, q[k + 1..]));
        }
      }
      k' := if removed then k else k + 1;
    }

    /** All requests but one that has begun are gone from the queue, and all else is there. */
    twostate predicate RequestsWithdrawn()
      reads this
    {
      && outq == WithoutRequests(old(outq), off)
      && Queued(tp, outq) ==
           if old(outq) == [] || off == 0 then NoRequests(old(Queued(tp, outq)))
           else Said(tp, old(outq[0])) + NoRequests(old(Queued(tp, outq[1..])))
    }

    /** The loop of peer_on_choke: requests the peer will not answer are withdrawn. */
    method WithdrawRequests()
      requires Valid()
      modifies this`outq, this`npieceMsgs
      ensures Valid() && RequestsWithdrawn() && Keeps(old(Log()), Log())
    {
      SweepSays(tp, outq, off);
      SweepAll();
    }

    method SweepAll()
      requires Valid()
      modifies this`outq, this`npieceMsgs
      ensures Valid() && outq == WithoutRequests(old(outq), off) && Keeps(old(Log()), Log())
    {
      var k: nat := 0;
      assert outq[0..] == outq;
      while k < |outq|
        invariant k <= |outq| && Valid() && Keeps(old(Log()), Log())
        invariant Swept(outq, off, k) == WithoutRequests(old(outq), off)
        decreases |outq| - k
      {
        ghost var log := Log();
        k := SweepOne(k);
        KeepsTwice(old(Log()), log, Log());
      }
      TakeAll(outq);
      assert outq[k..] == [];
    }

    /** The field is the new one, but for bytes of it that have been written, and the messages are as they were. */
    twostate predicate Grown(now: seq<Byte>)
      reads this
    {
      && FieldOff(old(outq), off) <= |now| == |old(tp.field)|
      && tp == old(tp).(field := Mixed(old(tp.field), now, FieldOff(old(outq), off)))
      && SameTalk(old(Queued(tp, outq)), Queued(tp, outq))
    }

    /**
     cm_test_piece, or whatever else sets bits of the live piece field: a bit field message in the
     queue shows them, but for bytes of it that have been written.
     */
    method Grow(now: seq<Byte>)
      requires Valid() && Covers(now, tp.field)
      modifies this`tp, this`outq, this`gone
      ensures Valid() && SameTalk(old(Log()), Log()) && |outq| == |old(outq)| && Grown(now)
      ensures Covers(tp.field, old(tp.field)) && Covers(now, tp.field)
    {
      OffInField(tp, outq, off, wire, gone);
      var field := Mixed(tp.field, now, FieldOff(outq, off));
      MixedBetween(tp.field, now, FieldOff(outq, off));
      Regrown(tp, outq, off, wire, gone, npieceMsgs, uploaded, field);
      BetweenAgain(outq, gone, first, tp.field, field);
      gone := GoneAgain(outq, gone, field);
      outq := Reshown(outq, field);
      tp := tp.(field := field);
    }

    // ---------- Whole runs ----------

    /** peer_create_out, and net_state for a connection that came in: the hand shake comes first. */
    constructor Connected(tp: Torrent, hash: seq<Byte>, id: seq<Byte>)
      requires Sound(tp) && |hash| == 20 && |id| == 20
      ensures Valid() && this.tp == tp && first == tp.field && Log() == [Shake(hash, id)] && wire == [] && uploaded == 0
      ensures choking && !noRequests && !shown && !told
    {
      this.tp, first := tp, tp.field;
      outq, off, npieceMsgs, noRequests, choking, uploaded, wire, gone := [], 0, 0, false, true, 0, [], [];
      shown, told := false, false;
      new;
      Say(Shake(hash, id));
    }

    /** Before peer_on_shake has shown our pieces, the hand shake is all that was said. */
    ghost predicate InOrder()
      reads this
    {
      shown || |Log()| == 1
    }

    /** told is the last word about interest, and those words alternate. */
    ghost predicate TellsRight()
      reads this
    {
      Peers.Alternates(Interests(Log())) && (told <==> Peers.LastIsInterest(Interests(Log())))
    }

    /**
     What is done with the queue of a connected peer; what cannot be asked changes nothing. Interest
     is told anew only when the other was told last, which is what the download side keeps to.
     */
    method Do(op: Op)
      requires Valid() && InOrder()
      modifies this
      ensures Valid() && InOrder() && KeepsShake(old(Log()), Log()) && Later(old(tp), tp) && Did(op)
      ensures old(TellsRight()) ==> TellsRight()
    {
      if op.WriteOp? {
        DoWrite(op);
      } else if op.GrowOp? {
        DoGrow(op);
      } else if op.ShowOp? {
        DoShow(op);
      } else if shown {
        DoAttached(op);
      }
    }

    method DoWrite(op: Op)
      requires Valid() && op.WriteOp?
      modifies this`outq, this`off, this`npieceMsgs, this`noRequests, this`uploaded, this`wire, this`gone
      ensures Valid() && Log() == old(Log()) && Did(op)
    {
      if outq != [] {
        var n := NetWrite(op.wmax, op.written);
      }
    }

    method DoGrow(op: Op)
      requires Valid() && op.GrowOp?
      modifies this`tp, this`outq, this`gone
      ensures Valid() && Keeps(old(Log()), Log()) && |Log()| == |old(Log())| && Later(old(tp), tp) && Did(op)
    {
      if Covers(op.now, tp.field) {
        GrowKeeps(op.now);
      }
    }

    method DoShow(op: Op)
      requires Valid() && InOrder() && op.ShowOp?
      modifies this`outq, this`npieceMsgs, this`shown
      ensures Valid() && InOrder() && Keeps(old(Log()), Log()) && Did(op)
    {
      if CanShow(op.has, op.haveNpieces) {
        ShowKeeps(op.has, op.haveNpieces);
      }
    }

    /** What was not written, shown or told is as it was. */
    twostate predicate Silent()
      reads this
    {
      tp == old(tp) && off == old(off) && wire == old(wire) && gone == old(gone) && uploaded == old(uploaded)
    }

    twostate predicate SameFlags()
      reads this
    {
      noRequests == old(noRequests) && choking == old(choking) && told == old(told)
    }

    twostate predicate Nothing()
      reads this
    {
      outq == old(outq) && Silent() && SameFlags() && shown == old(shown)
    }

    /** The effect of an operation. */
    twostate predicate Did(op: Op)
      reads this
    {
      match op
      case WriteOp(wmax, written) =>
        if old(outq) == [] then
          Nothing()
        else
          && Wrote(wmax, written) && tp == old(tp)
          && choking == old(choking) && told == old(told) && shown == old(shown)
      case GrowOp(now) =>
        if Covers(now, old(tp.field)) then Grown(now) && SameFlags() && shown == old(shown) && wire == old(wire)
        else Nothing()
      case ShowOp(has, haveNpieces) =>
        if old(CanShow(has, haveNpieces)) then
          Silent() && SameFlags() && shown && Queued(tp, outq) == old(Queued(tp, outq)) + Showing(tp, has)
        else Nothing()
      case _ =>
        if old(shown) then Silent() && shown && DidAttached(op) else Nothing()
    }

    twostate predicate DidAttached(op: Op)
      reads this
    {
      match op
      case SayOp(m) =>
        && SameFlags()
        && if m.KeepAlive? || m.Choke? || m.Unchoke? || m.Have? || m.Request? || m.Cancel?
           then Queued(tp, outq) == old(Queued(tp, outq)) + [m] else outq == old(outq)
      case WantOp =>
        && noRequests == old(noRequests) && choking == old(choking) && told
        && if old(told) then outq == old(outq) else Wanted()
      case UnwantOp =>
        && noRequests == old(noRequests) && choking == old(choking) && !told
        && if old(told) then Queued(tp, outq) == old(Queued(tp, outq)) + [Msg.Uninterest] else outq == old(outq)
      case CancelOp(k, index, begin, length) =>
        && SameFlags()
        && if k < |old(outq)| && old(outq)[k] != NetBuf(RequestBuf, Encode(Request(index, begin, length)))
           then outq == old(outq) else TakenBack(k, index, begin, length)
      case SweepOp => SameFlags() && RequestsWithdrawn()
      case UnchokeOp =>
        && noRequests == old(noRequests) && told == old(told) && !choking
        && Queued(tp, outq) == old(Queued(tp, outq)) + [Msg.Unchoke]
      case ChokeOp =>
        noRequests == old(noRequests) && told == old(told) && choking && PiecesWithdrawn()
      case RequestedOp(index, begin, length) =>
        && choking == old(choking) && told == old(told)
        && if 0 < length <= PIECE_BLOCKLEN then Requested(index, begin, length)
           else outq == old(outq) && noRequests == old(noRequests)
      case CancelledOp(index, begin, length) =>
        SameFlags() && exists k: nat :: BlockWithdrawn(k, index, begin, length)
      case _ => true
    }

    /** Requests are ignored only while the unchoke that ends this waits in the queue. */
    ghost predicate HearsAgain()
      reads this
    {
      noRequests ==> Msg.Unchoke in Queued(tp, outq)
    }

    twostate lemma StillHears(op: Op)
      requires old(HearsAgain()) && Did(op)
      ensures HearsAgain()
    {
      var q := old(Queued(tp, outq));
      if op.WriteOp? && old(outq) != [] && noRequests {
        NotGoneYet(old(gone), q, gone, Queued(tp, outq), Msg.Unchoke);
      } else if (op.SweepOp? || op.ChokeOp?) && old(shown) {
        UnchokeStays(q);
        if old(outq) != [] {
          QueuedTake(tp, old(outq));
          UnchokeStays(old(Queued(tp, outq[1..])));
        }
      }
    }

    /** The hand shake has been received, and our pieces have not been shown; has are the pieces we have. */
    predicate CanShow(has: seq<bool>, haveNpieces: nat)
      reads this
    {
      !shown && |has| == tp.npieces <= 0x1_0000_0000 && haveNpieces == |Haves(has, |has|)| && ShowsBits(tp.field, has)
    }

    /** What is done once our pieces have been shown. */
    method DoAttached(op: Op)
      requires Valid() && shown && !op.ShowOp? && !op.WriteOp? && !op.GrowOp?
      modifies this`outq, this`npieceMsgs, this`choking, this`noRequests, this`told
      ensures Valid() && KeepsShake(old(Log()), Log()) && (old(TellsRight()) ==> TellsRight()) && DidAttached(op)
    {
      if op.WantOp? {
        if !told {
          WantKeeps();
        }
      } else if op.UnwantOp? {
        if told {
          UnwantKeeps();
        }
      } else {
        DoQuietly(op);
      }
    }

    /** What says nothing about interest. */
    method DoQuietly(op: Op)
      requires Valid() && !op.ShowOp? && !op.WriteOp? && !op.GrowOp? && !op.WantOp? && !op.UnwantOp?
      modifies this`outq, this`npieceMsgs, this`choking, this`noRequests
      ensures Valid() && Keeps(old(Log()), Log()) && DidAttached(op)
    {
      match op
      case SayOp(m) =>
        if Whole(m) && Plain(m) {
          KeepsMore(gone, Queued(tp, outq), [m]);
          Say(m);
        }
      case CancelOp(k, index, begin, length) =>
        if k < |outq| ==> outq[k] == NetBuf(RequestBuf, Encode(Request(index, begin, length))) {
          CancelKeeps(k, index, begin, length);
        }
      case SweepOp => WithdrawRequests();
      case UnchokeOp =>
        KeepsMore(gone, Queued(tp, outq), [Msg.Unchoke]);
        Unchoke();
      case ChokeOp => ChokeKeeps();
      case RequestedOp(index, begin, length) =>
        if 0 < length <= PIECE_BLOCKLEN {
          RequestedKeeps(index, begin, length);
        }
      case CancelledOp(index, begin, length) =>
        var k := CancelledKeeps(index, begin, length);
    }

    method GrowKeeps(now: seq<Byte>)
      requires Valid() && Covers(now, tp.field)
      modifies this`tp, this`outq, this`gone
      ensures Valid() && Keeps(old(Log()), Log()) && |Log()| == |old(Log())| && Later(old(tp), tp) && Grown(now)
    {
      ghost var log := Log();
      Grow(now);
      SameTalkKeeps(log, Log());
    }

    method WantKeeps()
      requires Valid() && !told
      modifies this`outq, this`npieceMsgs, this`told
      ensures Valid() && KeepsShake(old(Log()), Log()) && (old(TellsRight()) ==> TellsRight()) && Wanted() && told
    {
      ghost var q := Queued(tp, outq);
      OpensMore(gone, q, [Msg.Interest]);
      InterestMore(gone, q, Msg.Interest);
      Want();
      told := true;
      ghost var r := Queued(tp, outq);
      OpensLess(gone, r, [Msg.Uninterest], []);
      NothingBehind(r, [Msg.Uninterest]);
      InterestMore(gone, r, Msg.Uninterest);
    }

    /** What peer_unwant and peer_on_no_reqs do to the queue. */
    method UnwantKeeps()
      requires Valid() && told
      modifies this`outq, this`told
      ensures Valid() && KeepsShake(old(Log()), Log()) && (old(TellsRight()) ==> TellsRight())
      ensures Queued(tp, outq) == old(Queued(tp, outq)) + [Msg.Uninterest] && !told
    {
      OpensMore(gone, Queued(tp, outq), [Msg.Uninterest]);
      InterestMore(gone, Queued(tp, outq), Msg.Uninterest);
      Say(Msg.Uninterest);
      told := false;
    }

    method CancelKeeps(k: nat, index: Word, begin: Word, length: Word)
      requires Valid() && (k < |outq| ==> outq[k] == NetBuf(RequestBuf, Encode(Request(index, begin, length))))
      modifies this`outq, this`npieceMsgs
      ensures Valid() && Keeps(old(Log()), Log()) && TakenBack(k, index, begin, length)
    {
      KeepsMore(gone, Queued(tp, outq), [Msg.Cancel(index, begin, length)]);
      if k < |outq| {
        KeepsLess(gone, Queued(tp, outq[..k]), [Request(index, begin, length)], Queued(tp, outq[k + 1..]));
      }
      CancelRequest(k, index, begin, length);
    }

    method ChokeKeeps()
      requires Valid()
      modifies this`outq, this`npieceMsgs, this`choking
      ensures Valid() && Keeps(old(Log()), Log()) && choking && PiecesWithdrawn()
    {
      ghost var q := Queued(tp, outq);
      KeepsChoke(gone, [], q);
      assert [] + q == q && [] + NoPieces(q) == NoPieces(q);
      if outq != [] {
        QueuedTake(tp, outq);
        KeepsChoke(gone, Said(tp, outq[0]), Queued(tp, outq[1..]));
      }
      Choke();
    }

    method RequestedKeeps(index: Word, begin: Word, length: Word)
      requires Valid() && 0 < length <= PIECE_BLOCKLEN
      modifies this`outq, this`npieceMsgs, this`noRequests
      ensures Valid() && Keeps(old(Log()), Log()) && Requested(index, begin, length)
    {
      ghost var block := [Piece(index, begin, tp.content(index, begin, length))];
      ghost var q := Queued(tp, outq);
      KeepsMore(gone, q, block);
      KeepsMore(gone, q + block, [Msg.Choke]);
      KeepsMore(gone, q + block + [Msg.Choke], [Msg.Unchoke]);
      OnRequest(index, begin, length);
    }

    method CancelledKeeps(index: Word, begin: Word, length: Word) returns (k: nat)
      requires Valid()
      modifies this`outq, this`npieceMsgs
      ensures Valid() && Keeps(old(Log()), Log()) && BlockWithdrawn(k, index, begin, length)
    {
      ghost var q := outq;
      var removed;
      k, removed := OnCancel(index, begin, length);
      if removed {
        ghost var block := [Piece(index, begin, tp.content(index, begin, length))];
        KeepsLess(gone, Queued(tp, q[..k]), block, Queued(tp, q[k + 2..]));
      }
    }

    method ShowKeeps(has: seq<bool>, haveNpieces: nat)
      requires Valid() && InOrder() && CanShow(has, haveNpieces)
      modifies this`outq, this`npieceMsgs, this`shown
      ensures Valid() && shown && Keeps(old(Log()), Log())
      ensures Queued(tp, outq) == old(Queued(tp, outq)) + Showing(tp, has)
    {
      ghost var log := Log();
      KeepsShowing(tp, has, log);
      Associative(gone, Queued(tp, outq), Showing(tp, has));
      ShowPieces(has, haveNpieces);
      shown := true;
    }

    /** Any interleaving of what can be done with the queue. */
    method Run(ops: seq<Op>)
      requires Valid() && InOrder()
      modifies this
      ensures Valid() && InOrder() && KeepsShake(old(Log()), Log()) && Later(old(tp), tp)
      ensures (old(TellsRight()) ==> TellsRight()) && (old(HearsAgain()) ==> HearsAgain())
    {
      for i := 0 to |ops|
        invariant Valid() && InOrder() && KeepsShake(old(Log()), Log()) && Later(old(tp), tp)
        invariant (old(TellsRight()) ==> TellsRight()) && (old(HearsAgain()) ==> HearsAgain())
      {
        label Before:
        Do(ops[i]);
        if old@Before(HearsAgain()) {
          StillHears@Before(ops[i]);
        }
      }
    }
  }

  datatype Op =
    | SayOp(m: Msg)
    | WantOp
    | UnwantOp
    | CancelOp(k: nat, index: Word, begin: Word, length: Word)
    | SweepOp
    | UnchokeOp
    | ChokeOp
    | RequestedOp(index: Word, begin: Word, length: Word)
    | CancelledOp(index: Word, begin: Word, length: Word)
    | ShowOp(has: seq<bool>, haveNpieces: nat)
    | WriteOp(wmax: nat, written: nat)
    | GrowOp(now: seq<Byte>)

  /** What was queued and is not among what has gone since is still queued. */
  lemma NotGoneYet(gone: seq<Msg>, q: seq<Msg>, gone': seq<Msg>, q': seq<Msg>, m: Msg)
    requires gone + q == gone' + q' && gone <= gone' && m in q && m !in gone'[|gone|..]
    ensures m in q'
  {
    var mid := gone'[|gone|..];
    assert gone' + q' == gone + (mid + q');
    assert q == (gone + q)[|gone|..] && mid + q' == (gone + (mid + q'))[|gone|..];
  }

  lemma {:induction false} UnchokeStays(ms: seq<Msg>)
    ensures Msg.Unchoke in ms ==> Msg.Unchoke in NoPieces(ms) && Msg.Unchoke in NoRequests(ms)
  {
    if ms != [] {
      UnchokeStays(ms[1..]);
    }
  }

  // ---------- What opens the talk ----------

  ghost predicate NoShakes(ms: seq<Msg>) {
    forall m :: m in ms ==> !m.Shake?
  }

  /** The hand shake comes first and only then, and a bit field comes right after it or not at all. */
  ghost predicate Shaken(log: seq<Msg>, shake: Msg) {
    && log != [] && log[0] == shake && shake.Shake?
    && (forall k :: 1 <= k < |log| ==> !log[k].Shake?)
    && (forall k :: 2 <= k < |log| ==> !log[k].Bitfield?)
  }

  ghost predicate KeepsShake(a: seq<Msg>, b: seq<Msg>) {
    forall shake :: Shaken(a, shake) ==> Shaken(b, shake)
  }

  /** The words about interest, true for interest and false for uninterest. */
  function InterestOf(m: Msg): seq<bool> {
    if m.Interest? then [true] else if m.Uninterest? then [false] else []
  }

  function Interests(ms: seq<Msg>): seq<bool> {
    Joined(InterestOf, ms)
  }

  /** The opening stays, and nothing is said about interest. */
  ghost predicate Keeps(a: seq<Msg>, b: seq<Msg>) {
    KeepsShake(a, b) && Interests(b) == Interests(a)
  }

  /** A message that neither opens the talk nor is about interest. */
  predicate Plain(m: Msg) {
    !m.Shake? && !m.Bitfield? && !m.Interest? && !m.Uninterest?
  }

  ghost predicate AllPlain(ms: seq<Msg>) {
    forall m :: m in ms ==> Plain(m)
  }

  lemma {:induction false} PlainSaysNothing(ms: seq<Msg>)
    requires AllPlain(ms)
    ensures Interests(ms) == []
  {
    if ms == [] {
    } else {
      assert Plain(ms[0]);
      PlainSaysNothing(ms[1..]);
    }
  }

  /** The same torrent, of which no fewer pieces are had. */
  ghost predicate Later(tp: Torrent, tp': Torrent) {
    tp' == tp.(field := tp'.field) && Covers(tp'.field, tp.field)
  }

  lemma SameTalkKeeps(a: seq<Msg>, b: seq<Msg>)
    requires SameTalk(a, b)
    ensures Keeps(a, b)
  {
    SameTalkInterests(a, b);
  }

  lemma {:induction false} SameTalkInterests(a: seq<Msg>, b: seq<Msg>)
    requires SameTalk(a, b)
    ensures Interests(a) == Interests(b)
  {
    if a == [] {
    } else {
      SameTalkInterests(a[1..], b[1..]);
    }
  }

  lemma OpensMore(gone: seq<Msg>, q: seq<Msg>, ms: seq<Msg>)
    requires NoShakes(ms) && forall m :: m in ms ==> !m.Bitfield?
    ensures KeepsShake(gone + q, gone + (q + ms))
  {
    assert gone + (q + ms) == gone + q + ms;
  }

  lemma KeepsMore(gone: seq<Msg>, q: seq<Msg>, ms: seq<Msg>)
    requires AllPlain(ms)
    ensures Keeps(gone + q, gone + (q + ms))
  {
    OpensMore(gone, q, ms);
    Associative(gone, q, ms);
    JoinedPlus(InterestOf, gone + q, ms);
    PlainSaysNothing(ms);
  }

  /** One word about interest more. */
  lemma InterestMore(gone: seq<Msg>, q: seq<Msg>, m: Msg)
    requires m.Interest? || m.Uninterest?
    ensures Interests(gone + (q + [m])) == Interests(gone + q) + [m.Interest?]
    ensures var s := Interests(gone + q);
      && (Peers.Alternates(s + [m.Interest?]) <==> Peers.Alternates(s) && m.Interest? == !Peers.LastIsInterest(s))
      && Peers.LastIsInterest(s + [m.Interest?]) == m.Interest?
  {
    Associative(gone, q, [m]);
    JoinedPlus(InterestOf, gone + q, [m]);
    JoinedOne(InterestOf, m);
    var s := Interests(gone + q);
    assert (s + [m.Interest?])[..|s|] == s;
  }

  lemma OpensLess(gone: seq<Msg>, a: seq<Msg>, ms: seq<Msg>, b: seq<Msg>)
    requires NoShakes(ms)
    ensures KeepsShake(gone + (a + ms + b), gone + (a + b))
  {
    var c := gone + a;
    var x, y := gone + (a + ms + b), gone + (a + b);
    assert x == c + ms + b && y == c + b;
    assert forall k :: 0 <= k < |c| ==> x[k] == y[k];
    assert forall k :: |c| <= k < |y| ==> y[k] == x[k + |ms|];
    assert c == [] && ms != [] ==> x[0] == ms[0];
  }

  lemma KeepsLess(gone: seq<Msg>, a: seq<Msg>, ms: seq<Msg>, b: seq<Msg>)
    requires AllPlain(ms)
    ensures Keeps(gone + (a + ms + b), gone + (a + b))
  {
    OpensLess(gone, a, ms, b);
    var c := gone + a;
    assert gone + (a + ms + b) == c + ms + b && gone + (a + b) == c + b;
    JoinedPlus(InterestOf, c + ms, b);
    JoinedPlus(InterestOf, c, ms);
    JoinedPlus(InterestOf, c, b);
    PlainSaysNothing(ms);
  }

  /** What is left stands where it stood or further to the front. */
  lemma {:induction false} NoPiecesAt(ms: seq<Msg>, k: nat) returns (j: nat)
    requires k < |NoPieces(ms)|
    ensures k <= j < |ms| && NoPieces(ms)[k] == ms[j]
  {
    if !ms[0].Piece? && k == 0 {
      j := 0;
    } else {
      j := NoPiecesAt(ms[1..], if ms[0].Piece? then k else k - 1);
      j := j + 1;
    }
  }

  lemma {:induction false} NoPiecesInterests(ms: seq<Msg>)
    ensures Interests(NoPieces(ms)) == Interests(ms)
  {
    if ms == [] {
    } else {
      NoPiecesInterests(ms[1..]);
      JoinedPlus(InterestOf, NoPiece(ms[0]), NoPieces(ms[1..]));
      if !ms[0].Piece? {
        JoinedOne(InterestOf, ms[0]);
      }
    }
  }

  lemma OpensNoPieces(c: seq<Msg>, b: seq<Msg>)
    ensures KeepsShake(c + b, c + NoPieces(b))
  {
    forall shake | Shaken(c + b, shake)
      ensures Shaken(c + NoPieces(b), shake)
    {
      if c == [] {
        assert NoPieces(b) == [shake] + NoPieces(b[1..]);
      }
      forall k | 1 <= k < |c + NoPieces(b)|
        ensures !(c + NoPieces(b))[k].Shake? && (k >= 2 ==> !(c + NoPieces(b))[k].Bitfield?)
      {
        if k < |c| {
          assert (c + NoPieces(b))[k] == (c + b)[k];
        } else {
          var j := NoPiecesAt(b, k - |c|);
          assert (c + NoPieces(b))[k] == (c + b)[|c| + j];
        }
      }
    }
  }

  lemma KeepsNoPieces(gone: seq<Msg>, a: seq<Msg>, b: seq<Msg>)
    ensures Keeps(gone + (a + b), gone + (a + NoPieces(b)))
  {
    Associative(gone, a, b);
    Associative(gone, a, NoPieces(b));
    OpensNoPieces(gone + a, b);
    JoinedPlus(InterestOf, gone + a, b);
    JoinedPlus(InterestOf, gone + a, NoPieces(b));
    NoPiecesInterests(b);
  }

  lemma KeepsChoke(gone: seq<Msg>, a: seq<Msg>, b: seq<Msg>)
    ensures Keeps(gone + (a + b), gone + (a + NoPieces(b) + [Msg.Choke]))
  {
    KeepsNoPieces(gone, a, b);
    KeepsMore(gone, a + NoPieces(b), [Msg.Choke]);
  }

  lemma KeepsTwice(a: seq<Msg>, b: seq<Msg>, c: seq<Msg>)
    requires Keeps(a, b) && Keeps(b, c)
    ensures Keeps(a, c)
  {
  }

  lemma NothingBehind(a: seq<Msg>, ms: seq<Msg>)
    ensures a + ms + [] == a + ms && a + [] == a
  {
  }

  /** After the hand shake our pieces are shown, in one message or in several. */
  lemma KeepsShowing(tp: Torrent, has: seq<bool>, log: seq<Msg>)
    requires |has| == tp.npieces <= 0x1_0000_0000 && |log| == 1
    ensures Keeps(log, log + Showing(tp, has))
  {
    var ms := Showing(tp, has);
    JoinedPlus(InterestOf, log, ms);
    if ms == Haves(has, |has|) {
      assert AllPlain(ms);
      PlainSaysNothing(ms);
    } else {
      JoinedOne(InterestOf, Bitfield(tp.field));
    }
    assert Interests(ms) == [] && Interests(log) + [] == Interests(log);
    forall k | 1 <= k < |log + ms|
      ensures !(log + ms)[k].Shake? && (k >= 2 ==> !(log + ms)[k].Bitfield?)
    {
      assert (log + ms)[k] == ms[k - 1] && ms[k - 1] in ms;
    }
    assert (log + ms)[0] == log[0];
  }

  // ---------- What a choke by the other side withdraws ----------

  /** Requests leave the queue, but for one that has begun. */
  function WithoutRequests(q: seq<NetBuf>, off: nat): seq<NetBuf> {
    if q == [] then []
    else if q[0].kind == RequestBuf && off == 0 then WithoutRequests(q[1..], 0)
    else [q[0]] + WithoutRequests(q[1..], 0)
  }

  function NoRequest(m: Msg): seq<Msg> {
    if m.Request? then [] else [m]
  }

  function NoRequests(ms: seq<Msg>): seq<Msg> {
    Joined(NoRequest, ms)
  }

  /** In terms of messages: no request is left, every other message is, in the same order. */
  lemma {:induction false} WithoutRequestsSays(tp: Torrent, q: seq<NetBuf>)
    ensures Queued(tp, WithoutRequests(q, 0)) == NoRequests(Queued(tp, q))
    decreases |q|
  {
    if q == [] {
    } else {
      QueuedTake(tp, q);
      JoinedPlus(NoRequest, Said(tp, q[0]), Queued(tp, q[1..]));
      WithoutRequestsSays(tp, q[1..]);
      if q[0].kind == RequestBuf {
        RequestIsDropped(Said(tp, q[0]));
      } else {
        HavesOnly(q[0].buf);
        NoRequestsSame(Said(tp, q[0]));
        QueuedPlus(tp, [q[0]], WithoutRequests(q[1..], 0));
        QueuedOne(tp, q[0]);
      }
    }
  }

  lemma RequestIsDropped(ms: seq<Msg>)
    requires |ms| <= 1 && forall m :: m in ms ==> m.Request?
    ensures NoRequests(ms) == []
  {
    if ms != [] {
      JoinedOne(NoRequest, ms[0]);
      assert ms == [ms[0]];
    }
  }

  lemma {:induction false} NoRequestsSame(ms: seq<Msg>)
    requires forall m :: m in ms ==> !m.Request?
    ensures NoRequests(ms) == ms
  {
    if ms == [] {
    } else {
      NoRequestsSame(ms[1..]);
    }
  }

  /** A buffer that has begun stays, and only what is behind it is touched. */
  lemma SweepSays(tp: Torrent, q: seq<NetBuf>, off: nat)
    ensures q == [] || off == 0 ==> Queued(tp, WithoutRequests(q, off)) == NoRequests(Queued(tp, q))
    ensures q != [] && off > 0 ==>
      Queued(tp, WithoutRequests(q, off)) == Said(tp, q[0]) + NoRequests(Queued(tp, q[1..]))
  {
    if q == [] || off == 0 {
      WithoutRequestsSays(tp, q);
    } else {
      WithoutRequestsSays(tp, q[1..]);
      QueuedPlus(tp, [q[0]], WithoutRequests(q[1..], 0));
      QueuedOne(tp, q[0]);
    }
  }

  /** The queue as it will be after the sweep, when the first k buffers have been passed. */
  function Swept(q: seq<NetBuf>, off: nat, k: nat): seq<NetBuf>
    requires k <= |q|
  {
    q[..k] + WithoutRequests(q[k..], if k == 0 then off else 0)
  }

  lemma SweepStep(q: seq<NetBuf>, off: nat, k: nat)
    requires k < |q|
    ensures if q[k].kind == RequestBuf && !(k == 0 && off > 0)
      then Swept(q[..k] + q[k + 1..], off, k) == Swept(q, off, k)
      else Swept(q, off, k + 1) == Swept(q, off, k)
  {
    var r := q[..k] + q[k + 1..];
    assert r[..k] == q[..k] && r[k..] == q[k + 1..] && q[k..][1..] == q[k + 1..] && q[..k + 1] == q[..k] + [q[k]];
  }

  /** The messages that show the pieces of the field. */
  function Showing(tp: Torrent, has: seq<bool>): (ms: seq<Msg>)
    requires |has| == tp.npieces <= 0x1_0000_0000
    ensures NoShakes(ms)
  {
    var haves := Haves(has, |has|);
    if haves == [] || |haves| * 9 < 5 + FieldLen(tp.npieces) then haves else [Bitfield(tp.field)]
  }

  /** The message tells that the sender has piece j. */
  predicate Tells(m: Msg, j: Word) {
    match m
    case Have(index) => index == j
    case Bitfield(field) => j / 8 < |field| && HasBit(field, j)
    case _ => false
  }

  /** In either form exactly the pieces of the field are shown. */
  lemma ShowsExactly(tp: Torrent, has: seq<bool>, j: Word)
    requires |has| == tp.npieces <= 0x1_0000_0000 && ShowsBits(tp.field, has) && j < |has|
    ensures (exists m :: m in Showing(tp, has) && Tells(m, j)) <==> has[j]
  {
    HavesExact(has, |has|, j);
    var ms := Showing(tp, has);
    if ms == Haves(has, |has|) {
      if m :| m in ms && Tells(m, j) {
        assert m == Have(j);
      }
      assert Have(j) in ms ==> Tells(Have(j), j);
    } else {
      assert Bitfield(tp.field) in ms;
    }
  }

  predicate Matches(nb: NetBuf, index: Word, begin: Word, length: Word) {
    nb.kind == PieceBuf && |nb.buf| >= 13 && GetBegin(nb) == begin && GetIndex(nb) == index && GetLength(nb) == length
  }

  /** A queued buffer matches exactly when it is the message of that block. */
  lemma MatchesSay(tp: Torrent, q: seq<NetBuf>, index: Word, begin: Word, length: Word)
    requires Sound(tp) && Paired(tp, q)
    ensures forall k :: 0 <= k < |q| ==>
      (Matches(q[k], index, begin, length) <==>
       Said(tp, q[k]) == [Piece(index, begin, tp.content(index, begin, length))])
  {
    PairedGood(tp, q);
    forall k | 0 <= k < |q|
      ensures Matches(q[k], index, begin, length) <==>
              Said(tp, q[k]) == [Piece(index, begin, tp.content(index, begin, length))]
    {
      assert q[k] in q;
      MatchSays(tp, q[k], index, begin, length);
    }
  }

  lemma MatchSays(tp: Torrent, nb: NetBuf, index: Word, begin: Word, length: Word)
    requires Sound(tp) && Good(tp, nb)
    ensures Matches(nb, index, begin, length) <==>
            Said(tp, nb) == [Piece(index, begin, tp.content(index, begin, length))]
  {
    HavesOnly(nb.buf);
    if nb.kind == PieceBuf {
      assert |tp.content(index, begin, length)| == length && |Block(tp, nb)| == GetLength(nb);
    }
  }

  lemma WholeCut(tp: Torrent, q: seq<NetBuf>, k: nat)
    requires k < |q| && q[k].kind != TorrentData
    ensures Queued(tp, q) == Queued(tp, q[..k]) + Said(tp, q[k]) + Queued(tp, q[k + 1..])
    ensures Queued(tp, q[..k] + q[k + 1..]) == Queued(tp, q[..k]) + Queued(tp, q[k + 1..])
    ensures DataCount(q) == DataCount(q[..k] + q[k + 1..])
  {
    SplitAt(q, k);
    QueuedPlus(tp, q[..k], q[k..]);
    QueuedTake(tp, q[k..]);
    QueuedPlus(tp, q[..k], q[k + 1..]);
    DataCountAt(q, k);
  }

  // ---------- What the other side makes of the wire ----------

  lemma WholeStream(env: Env, hash: seq<Byte>, hash': seq<Byte>, id: seq<Byte>, ms: seq<Msg>)
    requires |hash| == 20 && |id| == 20 && !env.taken(id)
    requires if env.incoming then env.known(hash) else hash' == hash
    requires Framer.AllFit(ms, env.npieces(hash)) && AllAccepted(env, hash, [Shake(hash, id)], ms)
    ensures var t := Consume(env, Opened(hash'), EncodeAll([Shake(hash, id)] + ms));
      t.alive && t.log == [Shake(hash, id)] + ms && Counted(t) && PartBytes(t) == 0
  {
    var first := Encode(Shake(hash, id));
    var s := Opened(hash');
    RecoversShake(env, hash, hash', id);
    var t := Consume(env, s, first);
    RecoversAll(env, t, ms);
    Chunked(env, s, first, EncodeAll(ms));
    EncodeAllPlus([Shake(hash, id)], ms);
    EncodeAllOne(Shake(hash, id));
    assert AllBlockBytes([]) == 0;
    CountsBlockBytes(env, s, first + EncodeAll(ms));
  }

  /** Of the stream of these messages, some has been written, the first messages whole. */
  lemma PartOfStream(env: Env, hash: seq<Byte>, hash': seq<Byte>, id: seq<Byte>, ms: seq<Msg>, first: seq<Msg>,
                     wire: seq<Byte>)
    requires |hash| == 20 && |id| == 20 && !env.taken(id)
    requires if env.incoming then env.known(hash) else hash' == hash
    requires Framer.AllFit(ms, env.npieces(hash)) && AllAccepted(env, hash, [Shake(hash, id)], ms)
    requires first <= [Shake(hash, id)] + ms && EncodeAll(first) <= wire <= EncodeAll([Shake(hash, id)] + ms)
    ensures var t := Consume(env, Opened(hash'), wire);
      && t.alive && first <= t.log <= [Shake(hash, id)] + ms
      && (wire == EncodeAll([Shake(hash, id)] + ms) ==>
            t.log == [Shake(hash, id)] + ms && t.downloaded == AllBlockBytes(t.log))
  {
    var s := Opened(hash');
    WholeStream(env, hash, hash', id, ms);
    PartBetween(env, s, EncodeAll(first), wire, EncodeAll([Shake(hash, id)] + ms));
    if first != [] {
      FirstAccepted(env, hash, [Shake(hash, id)], ms, first);
      WholeStream(env, hash, hash', id, first[1..]);
      assert first == [Shake(hash, id)] + first[1..];
    }
  }

  lemma FirstAccepted(env: Env, hash: seq<Byte>, log: seq<Msg>, ms: seq<Msg>, first: seq<Msg>)
    requires |log| == 1 && first != [] && first <= log + ms && AllAccepted(env, hash, log, ms)
    ensures first[0] == log[0] && AllAccepted(env, hash, log, first[1..]) && first[1..] <= ms
  {
    assert first[1..] == ms[..|first| - 1];
    AcceptedTake(env, hash, log, ms, |first| - 1);
  }

  lemma SentFits(tp: Torrent, q: seq<NetBuf>, gone: seq<Msg>, shake: Msg, ms: seq<Msg>)
    requires Sound(tp) && Paired(tp, q) && AllSendable(gone, tp.npieces)
    requires gone + Queued(tp, q) == [shake] + ms && forall m :: m in ms ==> !m.Shake?
    ensures Framer.AllFit(ms, tp.npieces)
  {
    PairedGood(tp, q);
    QueuedSendable(tp, q);
    assert forall m :: m in ms ==> m in [shake] + ms;
  }

  /**
   End to end: whatever was sent, withdrawn and written, and however the bytes arrive, the other
   side's parser sees no bad data. It has handled a first part of the messages that were queued
   and not withdrawn, all of them once the queue is empty, and has then counted as many block
   bytes as were counted here.
   */
  lemma WireIsUnderstood(env: Env, hash': seq<Byte>, hash: seq<Byte>, id: seq<Byte>, ms: seq<Msg>, tp: Torrent,
                         q: seq<NetBuf>, off: nat, wire: seq<Byte>, gone: seq<Msg>, npieceMsgs: nat,
                         uploaded: nat, chunks: seq<seq<Byte>>)
    requires Consistent(tp, q, off, wire, gone, npieceMsgs, uploaded) && Flat(chunks) == wire
    requires gone + Queued(tp, q) == [Shake(hash, id)] + ms && forall m :: m in ms ==> !m.Shake?
    requires |hash| == 20 && |id| == 20 && !env.taken(id) && env.npieces(hash) == tp.npieces
    requires if env.incoming then env.known(hash) else hash' == hash
    requires AllAccepted(env, hash, [Shake(hash, id)], ms)
    ensures var t := ConsumeEach(env, Opened(hash'), chunks);
      && t.alive && t.log <= gone + Queued(tp, q)
      && (q == [] ==> t.log == gone && t.downloaded == uploaded)
      && (q != [] && !IsTail(q[0]) ==> gone <= t.log)
  {
    var log := [Shake(hash, id)] + ms;
    SentFits(tp, q, gone, Shake(hash, id), ms);
    WireIsPrefix(tp, q, off, wire, gone);
    FramingIgnoresChunks(env, Opened(hash'), chunks);
    if q == [] {
      assert gone + [] == gone;
      PartOfStream(env, hash, hash', id, ms, [], wire);
    } else if IsTail(q[0]) {
      PartOfStream(env, hash, hash', id, ms, [], wire);
    } else {
      assert gone <= log;
      PartOfStream(env, hash, hash', id, ms, gone, wire);
    }
  }

  // ---------- End to end ----------

  /** Requests are ignored by the other side, or are for pieces that it has. */
  ghost predicate RequestsServed(env: Env, hash: seq<Byte>, log: seq<Msg>) {
    forall k :: 0 <= k < |log| && log[k].Request? ==> Accepts(env, hash, log[..k], log[k])
  }

  /** The other side: it expects or knows this torrent, takes this peer, and could serve what it is asked for. */
  ghost predicate Listens(env: Env, hash': seq<Byte>, npieces: nat, log: seq<Msg>) {
    && log != [] && log[0].Shake? && |log[0].hash| == 20 && |log[0].id| == 20
    && !env.taken(log[0].id) && env.npieces(log[0].hash) == npieces
    && (if env.incoming then env.known(log[0].hash) else hash' == log[0].hash)
    && RequestsServed(env, log[0].hash, log)
  }

  /** What is said in this order is accepted: a bit field is the first word about pieces. */
  lemma TalkIsAccepted(env: Env, hash: seq<Byte>, log: seq<Msg>, shake: Msg)
    requires Shaken(log, shake) && RequestsServed(env, hash, log)
    ensures AllAccepted(env, hash, [log[0]], log[1..])
  {
    forall k | 0 <= k < |log| - 1
      ensures Accepts(env, hash, [log[0]] + log[1..][..k], log[1..][k])
    {
      assert [log[0]] + log[1..][..k] == log[..k + 1];
      assert log[1..][k] == log[k + 1];
    }
  }

  /** What the other side's parser has made of the chunks it read. */
  ghost predicate Understood(env: Env, hash': seq<Byte>, chunks: seq<seq<Byte>>, q: OutQueue)
    reads q
  {
    var t := ConsumeEach(env, Opened(hash'), chunks);
    && t.alive && t.log <= q.Log() && (q.TellsRight() ==> Peers.Alternates(Interests(t.log)))
    && (q.outq == [] ==> t.log == q.Log() && t.downloaded == q.uploaded)
    && (q.outq != [] && !IsTail(q.outq[0]) ==> q.gone <= t.log)
  }

  lemma QueueIsUnderstood(env: Env, hash': seq<Byte>, chunks: seq<seq<Byte>>, q: OutQueue, shake: Msg)
    requires q.Valid() && Shaken(q.Log(), shake) && Listens(env, hash', q.tp.npieces, q.Log()) && Flat(chunks) == q.wire
    ensures Understood(env, hash', chunks, q)
  {
    var log := q.Log();
    assert log == [log[0]] + log[1..];
    TalkIsAccepted(env, log[0].hash, log, shake);
    assert q.outq == [] ==> q.gone == q.Log();
    WireIsUnderstood(env, hash', log[0].hash, log[0].id, log[1..], q.tp, q.outq, q.off, q.wire, q.gone,
                     q.npieceMsgs, q.uploaded, chunks);
    if q.TellsRight() {
      PartAlternates(ConsumeEach(env, Opened(hash'), chunks).log, log);
    }
  }

  lemma {:induction false} QueuedFields(tp: Torrent, q: seq<NetBuf>)
    ensures forall f :: Bitfield(f) in Queued(tp, q) ==> f == tp.field
  {
    if q == [] {
    } else {
      QueuedFields(tp, q[1..]);
      QueuedTake(tp, q);
      HavesOnly(q[0].buf);
    }
  }

  lemma {:induction false} AlternatesBefore(s: seq<bool>, t: seq<bool>)
    requires Peers.Alternates(t) && s <= t
    ensures Peers.Alternates(s)
    decreases |t|
  {
    if |s| == |t| {
      assert s == t;
    } else {
      AlternatesBefore(s, t[..|t| - 1]);
    }
  }

  lemma PartAlternates(a: seq<Msg>, b: seq<Msg>)
    requires a <= b && Peers.Alternates(Interests(b))
    ensures Peers.Alternates(Interests(a))
  {
    assert b == a + b[|a|..];
    JoinedPlus(InterestOf, a, b[|a|..]);
    AlternatesBefore(Interests(a), Interests(b));
  }

  /**
   A connection from its hand shake on. After any interleaving of sends, withdrawals, chokes,
   cancels and partial writes, and however the bytes that were written arrive, a listening peer
   has understood a first part of what was said and not withdrawn, and all of it once the queue
   is empty. What it has heard about interest alternates, beginning with interest. The piece field
   may grow meanwhile: a bit field that is said lies between the field at the start and the
   present one.
   */
  method Session(tp: Torrent, hash: seq<Byte>, id: seq<Byte>, ops: seq<Op>) returns (q: OutQueue)
    requires Sound(tp) && |hash| == 20 && |id| == 20
    ensures fresh(q) && Later(tp, q.tp) && q.Valid() && Shaken(q.Log(), Shake(hash, id)) && q.TellsRight()
    ensures forall f :: Bitfield(f) in q.Log() ==> Covers(f, tp.field) && Covers(q.tp.field, f)
    ensures forall env: Env, hash': seq<Byte>, chunks: seq<seq<Byte>> ::
              Listens(env, hash', tp.npieces, q.Log()) && Flat(chunks) == q.wire ==> Understood(env, hash', chunks, q)
  {
    q := new OutQueue.Connected(tp, hash, id);
    assert Shaken(q.Log(), Shake(hash, id));
    JoinedOne(InterestOf, Shake(hash, id));
    q.Run(ops);
    QueuedFields(q.tp, q.outq);
    forall env: Env, hash': seq<Byte>, chunks: seq<seq<Byte>>
      | Listens(env, hash', tp.npieces, q.Log()) && Flat(chunks) == q.wire
      ensures Understood(env, hash', chunks, q)
    {
      QueueIsUnderstood(env, hash', chunks, q, Shake(hash, id));
    }
  }
}
