/**
 The messages an output queue stands for (struct peer's outq, btpd/peer.c). A piece message and a
 bit field message take two buffers each, a head and a tail; every other buffer is whole.
 */
module Queues {
  import opened Lists
  import opened Wire
  import opened Buffers
  import opened Framer

  /**
   What buffers are filled from: the content, and the piece field that a bit field message shows.
   Bytes of the field that have been written are as they were then, all others are as they are now.
   */
  datatype Torrent = Torrent(npieces: nat, field: seq<Byte>, content: (Word, Word, Word) -> seq<Byte>)

  ghost predicate Sound(tp: Torrent) {
    |tp.field| == FieldLen(tp.npieces) && 0 < |tp.field| < 0xffff_ffff
    && forall i, b, l :: |tp.content(i, b, l)| == l
  }

  predicate IsHead(nb: NetBuf) {
    nb.kind == PieceBuf || nb.kind == BitfieldBuf
  }

  predicate IsTail(nb: NetBuf) {
    nb.kind == TorrentData || nb.kind == BitData
  }

  // ---------- Heads next to their tails ----------

  /** A good buffer, with its tail behind it if it is a head, and with its head before it if it is a tail. */
  ghost predicate PairedAt(good: NetBuf -> bool, belongs: (NetBuf, NetBuf) -> bool, q: seq<NetBuf>, k: nat)
    requires k < |q|
  {
    && good(q[k])
    && (IsHead(q[k]) ==> k + 1 < |q| && IsTail(q[k + 1]) && belongs(q[k], q[k + 1]))
    && (IsTail(q[k]) && k > 0 ==> IsHead(q[k - 1]))
  }

  /** Only at the front may a tail be without its head. */
  ghost predicate PairedBy(good: NetBuf -> bool, belongs: (NetBuf, NetBuf) -> bool, q: seq<NetBuf>) {
    forall k :: 0 <= k < |q| ==> PairedAt(good, belongs, q, k)
  }

  /** Leaving out a whole buffer, or a head with its tail. */
  lemma CutKeepsPairs(good: NetBuf -> bool, belongs: (NetBuf, NetBuf) -> bool, q: seq<NetBuf>, k: nat, d: nat)
    requires PairedBy(good, belongs, q) && k < k + d <= |q| && !IsTail(q[k])
    requires (d == 1 && !IsHead(q[k])) || (d == 2 && IsHead(q[k]))
    ensures PairedBy(good, belongs, q[..k] + q[k + d..])
  {
    var r := q[..k] + q[k + d..];
    assert PairedAt(good, belongs, q, k);
    assert d == 2 ==> IsTail(q[k + 1]);
    assert k + d < |q| ==> PairedAt(good, belongs, q, k + d);
    forall j | 0 <= j < |r|
      ensures PairedAt(good, belongs, r, j)
    {
      var i := if j < k then j else j + d;
      assert r[j] == q[i] && PairedAt(good, belongs, q, i);
      assert i + 1 < |q| && j + 1 != k ==> r[j + 1] == q[i + 1];
      assert j > k ==> r[j - 1] == q[i - 1];
    }
  }

  lemma AddKeepsPairs(good: NetBuf -> bool, belongs: (NetBuf, NetBuf) -> bool, q: seq<NetBuf>, r: seq<NetBuf>)
    requires PairedBy(good, belongs, q) && PairedBy(good, belongs, r) && r != [] && !IsTail(r[0])
    ensures PairedBy(good, belongs, q + r)
  {
    forall j | 0 <= j < |q + r|
      ensures PairedAt(good, belongs, q + r, j)
    {
      if j < |q| {
        assert PairedAt(good, belongs, q, j);
      } else {
        assert PairedAt(good, belongs, r, j - |q|);
      }
    }
  }

  /** A tail may be exchanged for one that belongs to its head as well. */
  lemma SwapKeepsPairs(good: NetBuf -> bool, belongs: (NetBuf, NetBuf) -> bool, q: seq<NetBuf>, k: nat, x: NetBuf)
    requires PairedBy(good, belongs, q) && 0 < k < |q| && IsTail(q[k]) && IsTail(x) && good(x) && belongs(q[k - 1], x)
    ensures PairedBy(good, belongs, q[k := x])
  {
    var r := q[k := x];
    forall j | 0 <= j < |r|
      ensures PairedAt(good, belongs, r, j)
    {
      assert PairedAt(good, belongs, q, j);
    }
  }

  lemma DropKeepsPairs(good: NetBuf -> bool, belongs: (NetBuf, NetBuf) -> bool, q: seq<NetBuf>)
    requires PairedBy(good, belongs, q) && q != []
    ensures PairedBy(good, belongs, q[1..])
    ensures |q| > 1 ==> (IsTail(q[1]) <==> IsHead(q[0]))
  {
    assert PairedAt(good, belongs, q, 0);
    assert |q| > 1 ==> PairedAt(good, belongs, q, 1);
    forall j | 0 <= j < |q[1..]|
      ensures PairedAt(good, belongs, q[1..], j)
    {
      assert PairedAt(good, belongs, q, j + 1);
    }
  }

  // ---------- Messages ----------

  function HavesIn(s: seq<Byte>): seq<Msg> {
    if |s| < 9 then [] else [Have(Dec32(s[5..]))] + HavesIn(s[9..])
  }

  /** The messages that begin in a buffer. */
  function Said(tp: Torrent, nb: NetBuf): seq<Msg> {
    match nb.kind
    case ChokeBuf => [Choke]
    case UnchokeBuf => [Unchoke]
    case InterestBuf => [Interest]
    case UninterestBuf => [Uninterest]
    case KeepAliveBuf => [KeepAlive]
    case HaveBuf => if |nb.buf| == 9 then [Have(GetIndex(nb))] else []
    case RequestBuf => if |nb.buf| == 17 then [Request(GetIndex(nb), GetBegin(nb), GetLength(nb))] else []
    case CancelBuf => if |nb.buf| == 17 then [Cancel(GetIndex(nb), GetBegin(nb), GetLength(nb))] else []
    case MultiHaveBuf => HavesIn(nb.buf)
    case ShakeBuf => if |nb.buf| == 68 then [Shake(nb.buf[28..48], nb.buf[48..])] else []
    case PieceBuf =>
      if |nb.buf| == 13 && GetLength(nb) >= 0 then [Piece(GetIndex(nb), GetBegin(nb), Block(tp, nb))] else []
    case BitfieldBuf => [Bitfield(tp.field)]
    case _ => []
  }

  /** The block of a piece message. */
  function Block(tp: Torrent, h: NetBuf): seq<Byte>
    requires h.kind == PieceBuf && |h.buf| == 13 && GetLength(h) >= 0
  {
    tp.content(GetIndex(h), GetBegin(h), GetLength(h))
  }

  /** A buffer as its encoder makes it; a block is empty until it has been read. */
  predicate Good(tp: Torrent, nb: NetBuf) {
    match nb.kind
    case PieceBuf =>
      |nb.buf| == 13 && 0 < GetLength(nb) <= PIECE_BLOCKLEN
      && nb.buf == PieceHead(GetIndex(nb), GetBegin(nb), GetLength(nb))
    case BitfieldBuf => |tp.field| < 0xffff_ffff && nb.buf == FieldHead(|tp.field|)
    case TorrentData => true
    case BitData => nb.buf == tp.field
    case _ => nb.buf == EncodeAll(Said(tp, nb)) && nb.buf != [] && AllSendable(Said(tp, nb), tp.npieces)
  }

  /** The messages are those of the protocol after the hand shake, or the hand shake itself. */
  predicate AllSendable(ms: seq<Msg>, npieces: nat) {
    forall m :: m in ms ==> m.Shake? || Fits(m, npieces)
  }

  /** d is the tail of h. */
  predicate Belongs(tp: Torrent, h: NetBuf, d: NetBuf) {
    if h.kind == PieceBuf then
      d.kind == TorrentData && |h.buf| == 13 && GetLength(h) > 0 && (d.buf == [] || d.buf == Block(tp, h))
    else d.kind == BitData
  }

  ghost predicate Paired(tp: Torrent, q: seq<NetBuf>) {
    PairedBy(nb => Good(tp, nb), (h, d) => Belongs(tp, h, d), q)
  }

  /** The messages of which nothing has been written, or no more than a part of the first buffer. */
  function Queued(tp: Torrent, q: seq<NetBuf>): seq<Msg> {
    Joined(nb => Said(tp, nb), q)
  }

  lemma QueuedPlus(tp: Torrent, a: seq<NetBuf>, b: seq<NetBuf>)
    ensures Queued(tp, a + b) == Queued(tp, a) + Queued(tp, b)
  {
    JoinedPlus(nb => Said(tp, nb), a, b);
  }

  lemma QueuedOne(tp: Torrent, nb: NetBuf)
    ensures Queued(tp, [nb]) == Said(tp, nb)
  {
    JoinedOne(x => Said(tp, x), nb);
  }

  lemma QueuedTake(tp: Torrent, q: seq<NetBuf>)
    requires q != []
    ensures Queued(tp, q) == Said(tp, q[0]) + Queued(tp, q[1..])
  {
  }

  lemma TailSaysNothing(tp: Torrent, nb: NetBuf)
    requires IsTail(nb)
    ensures Said(tp, nb) == []
  {
  }

  /** The type of the buffer that holds this message by itself. */
  function WholeKind(m: Msg): (kind: BufType)
    requires Whole(m)
    ensures kind !in {PieceBuf, BitfieldBuf, TorrentData, BitData, MultiHaveBuf}
  {
    match m
    case Shake(_, _) => ShakeBuf
    case KeepAlive => KeepAliveBuf
    case Choke => ChokeBuf
    case Unchoke => UnchokeBuf
    case Interest => InterestBuf
    case Uninterest => UninterestBuf
    case Have(_) => HaveBuf
    case Request(_, _, _) => RequestBuf
    case _ => CancelBuf
  }

  /** The messages that have a buffer to themselves. */
  predicate Whole(m: Msg) {
    match m
    case Shake(hash, id) => |hash| == 20 && |id| == 20
    case Bitfield(_) => false
    case Piece(_, _, _) => false
    case NoPiece(_, _) => false
    case _ => true
  }

  /** A buffer that an encoder made of such a message says that message. */
  lemma WholeIsGood(tp: Torrent, m: Msg)
    requires Whole(m)
    ensures var nb := NetBuf(WholeKind(m), Encode(m));
      Good(tp, nb) && Said(tp, nb) == [m] && !IsHead(nb) && !IsTail(nb)
  {
    EncodeAllOne(m);
    match m
    case Shake(hash, id) => ShakeRead(hash, id);
    case Have(index) => HaveAlone(index);
    case Request(index, begin, length) => TripleRead(m);
    case Cancel(index, begin, length) => TripleRead(m);
    case _ =>
  }

  lemma ShakeRead(hash: seq<Byte>, id: seq<Byte>)
    requires |hash| == 20 && |id| == 20
    ensures var buf := Encode(Shake(hash, id)); |buf| == 68 && buf[28..48] == hash && buf[48..] == id
  {
  }

  lemma HaveAlone(index: Word)
    ensures |Encode(Have(index))| == 9 && Dec32(Encode(Have(index))[5..]) == index
  {
    HaveEncoded(index);
    assert Encode(Have(index)) == (Be32(5) + [4]) + Be32(index) + [];
    ReadsNumber(Be32(5) + [4], index, []);
  }

  lemma TripleRead(m: Msg)
    requires m.Request? || m.Cancel?
    ensures |Encode(m)| == 17
    ensures Dec32(Encode(m)[5..]) == m.index && Dec32(Encode(m)[9..]) == m.begin && Dec32(Encode(m)[13..]) == m.length
  {
    var a, i, b, l := Be32(13) + [Number(m)], Be32(m.index), Be32(m.begin), Be32(m.length);
    var buf := Encode(m);
    assert buf == a + i + (b + l) == a + i + b + l == a + i + b + l + [];
    ReadsNumber(a, m.index, b + l);
    ReadsNumber(a + i, m.begin, l);
    ReadsNumber(a + i + b, m.length, []);
  }

  // ---------- The front of the queue ----------

  /**
   gone are the messages whose first buffer has been written. What is on the wire is all of them,
   but for what is left of a tail at the front, and of a buffer that begins a message what off says.
   A bit field at the front belongs to the last message gone.
   */
  ghost predicate Front(q: seq<NetBuf>, off: nat, wire: seq<Byte>, gone: seq<Msg>) {
    if q == [] then off == 0 && wire == EncodeAll(gone)
    else
      && off < |q[0].buf|
      && (q[0].kind == BitData ==> gone != [] && gone[|gone| - 1] == Bitfield(q[0].buf))
      && if IsTail(q[0]) then wire + q[0].buf[off..] == EncodeAll(gone)
         else wire == EncodeAll(gone) + q[0].buf[..off]
  }

  lemma EncodeAllOne(m: Msg)
    ensures EncodeAll([m]) == Encode(m)
  {
    JoinedOne(Encode, m);
  }

  lemma EncodeAllPlus(a: seq<Msg>, b: seq<Msg>)
    ensures EncodeAll(a + b) == EncodeAll(a) + EncodeAll(b)
  {
    JoinedPlus(Encode, a, b);
  }

  /** A head and its tail, once it has been read, are the encoded message. */
  lemma PairEncoded(tp: Torrent, h: NetBuf, d: NetBuf)
    requires Sound(tp) && IsHead(h) && Good(tp, h) && Good(tp, d) && Belongs(tp, h, d) && d.buf != []
    ensures h.buf + d.buf == EncodeAll(Said(tp, h)) && h.buf != []
  {
    if h.kind == PieceBuf {
      PieceEncoded(GetIndex(h), GetBegin(h), d.buf);
    } else {
      FieldEncoded(tp.field);
    }
    EncodeAllOne(Said(tp, h)[0]);
  }

  /** On byte strings: what is written when the rest of a buffer is written. */
  lemma BytesAdd(all: seq<Byte>, wire: seq<Byte>, buf: seq<Byte>, off: nat)
    requires off <= |buf|
    ensures wire == all + buf[..off] ==> wire + buf[off..] == all + buf
  {
    if wire == all + buf[..off] {
      assert buf[..off] + buf[off..] == buf;
      assert wire + buf[off..] == all + (buf[..off] + buf[off..]);
    }
  }

  /** The rest of the first buffer is written, and the next buffer comes to the front. */
  lemma FrontStep(tp: Torrent, q: seq<NetBuf>, off: nat, wire: seq<Byte>, gone: seq<Msg>)
    requires Sound(tp) && Paired(tp, q) && Front(q, off, wire, gone) && q != []
    requires |q| > 1 ==> q[1].buf != []
    ensures Front(q[1..], 0, wire + q[0].buf[off..], gone + Said(tp, q[0]))
  {
    DropKeepsPairs(nb => Good(tp, nb), (h, d) => Belongs(tp, h, d), q);
    assert PairedAt(nb => Good(tp, nb), (h, d) => Belongs(tp, h, d), q, 0);
    if IsTail(q[0]) {
      TailSaysNothing(tp, q[0]);
      AfterTail(q, off, wire, gone);
    } else if IsHead(q[0]) {
      assert PairedAt(nb => Good(tp, nb), (h, d) => Belongs(tp, h, d), q, 1);
      PairEncoded(tp, q[0], q[1]);
      AfterHead(q, off, wire, gone, Said(tp, q[0]));
    } else {
      AfterWhole(q, off, wire, gone, Said(tp, q[0]));
    }
  }

  lemma AfterTail(q: seq<NetBuf>, off: nat, wire: seq<Byte>, gone: seq<Msg>)
    requires Front(q, off, wire, gone) && q != [] && IsTail(q[0])
    requires |q| > 1 ==> q[1].buf != [] && !IsTail(q[1])
    ensures Front(q[1..], 0, wire + q[0].buf[off..], gone + [])
  {
    assert gone + [] == gone;
  }

  lemma AfterHead(q: seq<NetBuf>, off: nat, wire: seq<Byte>, gone: seq<Msg>, ms: seq<Msg>)
    requires Front(q, off, wire, gone) && |q| > 1 && !IsTail(q[0]) && IsTail(q[1]) && q[1].buf != []
    requires q[0].buf + q[1].buf == EncodeAll(ms)
    requires q[1].kind == BitData ==> ms != [] && ms[|ms| - 1] == Bitfield(q[1].buf)
    ensures Front(q[1..], 0, wire + q[0].buf[off..], gone + ms)
  {
    var all := EncodeAll(gone);
    EncodeAllPlus(gone, ms);
    BytesAdd(all, wire, q[0].buf, off);
    assert all + q[0].buf + q[1].buf == all + (q[0].buf + q[1].buf);
    assert q[1].buf[0..] == q[1].buf;
  }

  lemma AfterWhole(q: seq<NetBuf>, off: nat, wire: seq<Byte>, gone: seq<Msg>, ms: seq<Msg>)
    requires Front(q, off, wire, gone) && q != [] && !IsTail(q[0])
    requires |q| > 1 ==> q[1].buf != [] && !IsTail(q[1])
    requires q[0].buf == EncodeAll(ms)
    ensures Front(q[1..], 0, wire + q[0].buf[off..], gone + ms)
  {
    EncodeAllPlus(gone, ms);
    BytesAdd(EncodeAll(gone), wire, q[0].buf, off);
    assert EncodeAll(gone + ms) + [] == EncodeAll(gone + ms);
  }

  /** The wire is always the beginning of whole messages: those gone and those still queued. */
  lemma WireIsPrefix(tp: Torrent, q: seq<NetBuf>, off: nat, wire: seq<Byte>, gone: seq<Msg>)
    requires Sound(tp) && Paired(tp, q) && Front(q, off, wire, gone)
    ensures wire <= EncodeAll(gone + Queued(tp, q))
    ensures q == [] ==> wire == EncodeAll(gone + Queued(tp, q))
  {
    EncodeAllPlus(gone, Queued(tp, q));
    if q == [] {
      assert EncodeAll(gone) + [] == EncodeAll(gone);
    } else if !IsTail(q[0]) {
      QueuedTake(tp, q);
      EncodeAllPlus(Said(tp, q[0]), Queued(tp, q[1..]));
      FirstEncoded(tp, q);
      PrefixOfMore(EncodeAll(gone), q[0].buf, off, EncodeAll(Said(tp, q[0])), EncodeAll(Queued(tp, q[1..])));
    } else {
      assert wire <= EncodeAll(gone) <= EncodeAll(gone) + EncodeAll(Queued(tp, q));
    }
  }

  lemma PrefixOfMore(all: seq<Byte>, buf: seq<Byte>, off: nat, first: seq<Byte>, rest: seq<Byte>)
    requires off <= |buf| && buf <= first
    ensures all + buf[..off] <= all + (first + rest)
  {
    assert first[..off] == buf[..off];
    assert all + (first + rest) == all + buf[..off] + (first[off..] + rest);
  }

  lemma FirstEncoded(tp: Torrent, q: seq<NetBuf>)
    requires Sound(tp) && Paired(tp, q) && q != [] && !IsTail(q[0])
    ensures q[0].buf <= EncodeAll(Said(tp, q[0]))
  {
    assert PairedAt(nb => Good(tp, nb), (h, d) => Belongs(tp, h, d), q, 0);
    if IsHead(q[0]) {
      var d := if q[0].kind == PieceBuf then NetBuf(TorrentData, Block(tp, q[0])) else NetBuf(BitData, tp.field);
      PairEncoded(tp, q[0], d);
    }
  }

  // ---------- Counters ----------

  /** The blocks in the queue. */
  function DataCount(q: seq<NetBuf>): nat {
    if q == [] then 0 else (if q[0].kind == TorrentData then 1 else 0) + DataCount(q[1..])
  }

  lemma {:induction false} DataCountPlus(a: seq<NetBuf>, b: seq<NetBuf>)
    ensures DataCount(a + b) == DataCount(a) + DataCount(b)
  {
    if a == [] {
      assert a + b == b;
    } else {
      DataCountPlus(a[1..], b);
      assert (a + b)[1..] == a[1..] + b;
    }
  }

  lemma DataCountAt(q: seq<NetBuf>, k: nat)
    requires k < |q|
    ensures DataCount(q) == DataCount(q[..k] + q[k + 1..]) + if q[k].kind == TorrentData then 1 else 0
  {
    SplitAt(q, k);
    DataCountPlus(q[..k], q[k..]);
    DataCountPlus(q[..k], q[k + 1..]);
  }

  lemma {:induction false} AllBlockBytesPlus(a: seq<Msg>, b: seq<Msg>)
    ensures AllBlockBytes(a + b) == AllBlockBytes(a) + AllBlockBytes(b)
    decreases |b|
  {
    if b == [] {
      assert a + b == a;
    } else {
      var c := b[..|b| - 1];
      AllBlockBytesPlus(a, c);
      assert a + b == (a + c) + [b[|b| - 1]];
      OneMoreMsg(a + c, b[|b| - 1]);
    }
  }

  lemma {:induction false} NoBlocks(ms: seq<Msg>)
    requires forall m :: m in ms ==> !m.Piece?
    ensures AllBlockBytes(ms) == 0
  {
    if ms == [] {
    } else {
      NoBlocks(ms[..|ms| - 1]);
      assert ms[|ms| - 1] in ms;
    }
  }

  lemma {:induction false} HavesOnly(s: seq<Byte>)
    ensures forall m :: m in HavesIn(s) ==> m.Have?
  {
    if |s| >= 9 {
      HavesOnly(s[9..]);
    }
  }

  lemma OnlyPiecesHaveBlocks(tp: Torrent, nb: NetBuf)
    requires nb.kind != PieceBuf
    ensures forall m :: m in Said(tp, nb) ==> !m.Piece?
    ensures AllBlockBytes(Said(tp, nb)) == 0
  {
    HavesOnly(nb.buf);
    NoBlocks(Said(tp, nb));
  }

  /** What is left to write of a block at the front. */
  function Unsent(q: seq<NetBuf>, off: nat): int {
    if q != [] && q[0].kind == TorrentData then |q[0].buf| - off else 0
  }

  /** Blocks are counted as they are written. */
  lemma UnsentStep(tp: Torrent, q: seq<NetBuf>, off: nat, gone: seq<Msg>, uploaded: int)
    requires Paired(tp, q) && q != [] && uploaded + Unsent(q, off) == AllBlockBytes(gone)
    requires |q| > 1 ==> q[1].buf != []
    ensures uploaded + Unsent(q, off) + Unsent(q[1..], 0) == AllBlockBytes(gone + Said(tp, q[0]))
  {
    AllBlockBytesPlus(gone, Said(tp, q[0]));
    SecondUnsent(tp, q);
  }

  /** The block of a piece message is left to write when its head has been written. */
  lemma SecondUnsent(tp: Torrent, q: seq<NetBuf>)
    requires Paired(tp, q) && q != [] && (|q| > 1 ==> q[1].buf != [])
    ensures Unsent(q[1..], 0) == AllBlockBytes(Said(tp, q[0]))
  {
    DropKeepsPairs(nb => Good(tp, nb), (h, d) => Belongs(tp, h, d), q);
    assert PairedAt(nb => Good(tp, nb), (h, d) => Belongs(tp, h, d), q, 0);
    if q[0].kind == PieceBuf {
      var m := Piece(GetIndex(q[0]), GetBegin(q[0]), Block(tp, q[0]));
      assert Said(tp, q[0]) == [] + [m];
      OneMoreMsg([], m);
    } else {
      OnlyPiecesHaveBlocks(tp, q[0]);
    }
  }

  // ---------- Sendable ----------

  lemma SaidSendable(tp: Torrent, nb: NetBuf)
    requires Sound(tp) && Good(tp, nb)
    ensures AllSendable(Said(tp, nb), tp.npieces)
  {
  }

  lemma {:induction false} QueuedSendable(tp: Torrent, q: seq<NetBuf>)
    requires Sound(tp) && forall nb :: nb in q ==> Good(tp, nb)
    ensures AllSendable(Queued(tp, q), tp.npieces)
  {
    if q == [] {
    } else {
      SaidSendable(tp, q[0]);
      QueuedSendable(tp, q[1..]);
      QueuedTake(tp, q);
    }
  }

  lemma PairedGood(tp: Torrent, q: seq<NetBuf>)
    requires Paired(tp, q)
    ensures forall nb :: nb in q ==> Good(tp, nb)
  {
    forall nb | nb in q
      ensures Good(tp, nb)
    {
      var k :| 0 <= k < |q| && q[k] == nb;
      assert PairedAt(x => Good(tp, x), (h, d) => Belongs(tp, h, d), q, k);
    }
  }

  /** Have messages in one buffer are read back one by one. */
  lemma {:induction false} HavesRead(ms: seq<Msg>)
    requires forall m :: m in ms ==> m.Have?
    ensures HavesIn(EncodeAll(ms)) == ms
  {
    if ms == [] {
    } else {
      HavesRead(ms[1..]);
      HaveRead(ms[0].index, EncodeAll(ms[1..]));
    }
  }

  lemma HaveRead(index: Word, rest: seq<Byte>)
    ensures HavesIn(Encode(Have(index)) + rest) == [Have(index)] + HavesIn(rest)
  {
    var s := Encode(Have(index)) + rest;
    assert s == (Be32(5) + [4]) + Be32(index) + rest;
    ReadsNumber(Be32(5) + [4], index, rest);
    assert s[9..] == rest;
  }
}
