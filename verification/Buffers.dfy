/** Network buffers, how they are filled and how their fields are read (btpd/net_buf.c). */
module Buffers {
  import opened Lists
  import opened Wire

  datatype BufType =
    | ChokeBuf | UnchokeBuf | InterestBuf | UninterestBuf | HaveBuf | BitfieldBuf | RequestBuf | PieceBuf
    | CancelBuf | TorrentData | MultiHaveBuf | BitData | ShakeBuf | KeepAliveBuf

  /** struct net_buf; the block of a piece message has no bytes before it is read from disk. */
  datatype NetBuf = NetBuf(kind: BufType, buf: seq<Byte>)

  // ---------- Readers ----------

  function GetIndex(nb: NetBuf): Word
    requires nb.kind in {CancelBuf, HaveBuf, PieceBuf, RequestBuf} && |nb.buf| >= 9
  {
    Dec32(nb.buf[5..])
  }

  function GetBegin(nb: NetBuf): Word
    requires nb.kind in {CancelBuf, PieceBuf, RequestBuf} && |nb.buf| >= 13
  {
    Dec32(nb.buf[9..])
  }

  function GetLength(nb: NetBuf): int
    requires nb.kind in {CancelBuf, RequestBuf, PieceBuf}
    requires |nb.buf| >= if nb.kind == PieceBuf then 13 else 17
  {
    if nb.kind == PieceBuf then Dec32(nb.buf) - 9 else Dec32(nb.buf[13..])
  }

  // ---------- Encoders ----------

  method CreateOnesized(m: Msg, kind: BufType) returns (nb: NetBuf)
    requires m.Choke? || m.Unchoke? || m.Interest? || m.Uninterest?
    ensures nb == NetBuf(kind, Encode(m))
  {
    var out := new Byte[5](_ => 0);
    EncBe32(out, 0, 1);
    out[4] := Number(m);
    nb := NetBuf(kind, out[..]);
    assert nb.buf == Be32(1) + [Number(m)] + [];
  }

  method CreateKeepAlive() returns (nb: NetBuf)
    ensures nb == NetBuf(KeepAliveBuf, Encode(KeepAlive))
  {
    var out := new Byte[4](_ => 0);
    EncBe32(out, 0, 0);
    nb := NetBuf(KeepAliveBuf, out[..]);
    assert nb.buf == Be32(0);
  }

  /** bcopy */
  method Copy(out: array<Byte>, at: nat, s: seq<Byte>)
    requires at + |s| <= out.Length
    modifies out
    ensures out[..] == old(out[..at]) + s + old(out[at + |s|..])
  {
    forall k | 0 <= k < |s| {
      out[at + k] := s[k];
    }
  }

  /** nb_create_shake */
  method CreateShake(hash: seq<Byte>, id: seq<Byte>) returns (nb: NetBuf)
    requires |hash| == 20 && |id| == 20
    ensures nb == NetBuf(ShakeBuf, Encode(Shake(hash, id)))
  {
    var out := new Byte[68](_ => 0);
    var first := PROTOCOL + [0, 0, 0, 0, 0, 0, 0, 0];
    Copy(out, 0, first);
    Copy(out, 28, hash);
    Copy(out, 48, id);
    nb := NetBuf(ShakeBuf, out[..]);
    assert nb.buf == first + hash + id;
  }

  /** The head of a piece message: all but the block. */
  function PieceHead(index: Word, begin: Word, blen: nat): seq<Byte>
    requires blen <= PIECE_BLOCKLEN
  {
    Be32(9 + blen) + [7] + Be32(index) + Be32(begin)
  }

  lemma PieceHeadRead(index: Word, begin: Word, blen: nat)
    requires blen <= PIECE_BLOCKLEN
    ensures var nb := NetBuf(PieceBuf, PieceHead(index, begin, blen));
      |nb.buf| == 13 && GetIndex(nb) == index && GetBegin(nb) == begin && GetLength(nb) == blen
  {
    var h := PieceHead(index, begin, blen);
    assert h == [] + Be32(9 + blen) + ([7] + Be32(index) + Be32(begin));
    ReadsNumber([], 9 + blen, [7] + Be32(index) + Be32(begin));
    ReadsNumber(Be32(9 + blen) + [7], index, Be32(begin));
    assert h == Be32(9 + blen) + [7] + Be32(index) + Be32(begin) + [];
    ReadsNumber(Be32(9 + blen) + [7] + Be32(index), begin, []);
  }

  /** Head and block together are the message. */
  lemma PieceEncoded(index: Word, begin: Word, data: seq<Byte>)
    requires |data| <= PIECE_BLOCKLEN
    ensures PieceHead(index, begin, |data|) + data == Encode(Piece(index, begin, data))
  {
    var m := Piece(index, begin, data);
    assert Be32(9 + |data|) + [7] + Be32(index) + Be32(begin) + data
        == Be32(1 + |Payload(m)|) + [Number(m)] + Payload(m);
  }

  method CreatePiece(index: Word, begin: Word, blen: nat) returns (nb: NetBuf)
    requires blen <= PIECE_BLOCKLEN
    ensures nb == NetBuf(PieceBuf, PieceHead(index, begin, blen))
    ensures GetIndex(nb) == index && GetBegin(nb) == begin && GetLength(nb) == blen
  {
    var out := new Byte[13](_ => 0);
    EncBe32(out, 0, 9 + blen);
    out[4] := 7;
    EncBe32(out, 5, index);
    EncBe32(out, 9, begin);
    nb := NetBuf(PieceBuf, out[..]);
    assert nb.buf == PieceHead(index, begin, blen);
    PieceHeadRead(index, begin, blen);
  }

  /** Requests and cancels differ in their number only. */
  method CreateTriple(m: Msg) returns (nb: NetBuf)
    requires m.Request? || m.Cancel?
    ensures nb == NetBuf(if m.Request? then RequestBuf else CancelBuf, Encode(m))
  {
    var out := new Byte[17](_ => 0);
    EncBe32(out, 0, 13);
    out[4] := Number(m);
    EncBe32(out, 5, m.index);
    EncBe32(out, 9, m.begin);
    EncBe32(out, 13, m.length);
    nb := NetBuf(if m.Request? then RequestBuf else CancelBuf, out[..]);
    assert nb.buf == Be32(13) + [Number(m)] + (Be32(m.index) + Be32(m.begin) + Be32(m.length));
  }

  lemma HaveEncoded(index: Word)
    ensures Encode(Have(index)) == Be32(5) + [4] + Be32(index)
  {
    assert |Payload(Have(index))| == 4;
  }

  method CreateHave(index: Word) returns (nb: NetBuf)
    ensures nb == NetBuf(HaveBuf, Encode(Have(index)))
  {
    var out := new Byte[9](_ => 0);
    EncBe32(out, 0, 5);
    out[4] := 4;
    EncBe32(out, 5, index);
    nb := NetBuf(HaveBuf, out[..]);
    HaveEncoded(index);
    assert nb.buf == Be32(5) + [4] + Be32(index);
  }

  /** Have messages for the pieces below i that has holds. */
  function Haves(has: seq<bool>, i: nat): (ms: seq<Msg>)
    requires i <= |has| <= 0x1_0000_0000
    ensures |ms| <= i
    ensures forall m :: m in ms ==> m.Have?
  {
    if i == 0 then [] else if has[i - 1] then Haves(has, i - 1) + [Have(i - 1)] else Haves(has, i - 1)
  }

  lemma {:induction false} HavesGrow(has: seq<bool>, i: nat, j: nat)
    requires i <= j <= |has| <= 0x1_0000_0000
    ensures Haves(has, i) <= Haves(has, j)
  {
    if i < j {
      HavesGrow(has, i, j - 1);
    }
  }

  /** A piece is announced exactly when it is had. */
  lemma {:induction false} HavesExact(has: seq<bool>, i: nat, j: Word)
    requires i <= |has| <= 0x1_0000_0000
    ensures Have(j) in Haves(has, i) <==> j < i && has[j]
  {
    if i == 0 {
    } else {
      HavesExact(has, i - 1, j);
      if has[i - 1] {
        assert Haves(has, i) == Haves(has, i - 1) + [Have(i - 1)];
      }
    }
  }

  lemma {:induction false} HavesLength(ms: seq<Msg>)
    requires forall m :: m in ms ==> m.Have?
    ensures |EncodeAll(ms)| == 9 * |ms|
  {
    if ms == [] {
    } else {
      HavesLength(ms[1..]);
      HaveLength(ms[0]);
    }
  }

  lemma HaveLength(m: Msg)
    requires m.Have?
    ensures |Encode(m)| == 9
  {
  }

  /** The have messages of all pieces in one buffer. */
  method CreateMultiHave(has: seq<bool>, haveNpieces: nat) returns (nb: NetBuf)
    requires |has| <= 0x1_0000_0000 && haveNpieces == |Haves(has, |has|)|
    ensures nb == NetBuf(MultiHaveBuf, EncodeAll(Haves(has, |has|)))
  {
    var buf := [];
    var i, count := 0, 0;
    while count < haveNpieces
      invariant i <= |has| && count == |Haves(has, i)| <= haveNpieces
      invariant buf == EncodeAll(Haves(has, i))
      decreases |has| - i
    {
      HavesGrow(has, i, |has|);
      assert i == |has| ==> count == haveNpieces;
      if has[i] {
        var one := CreateHave(i);
        JoinedPlus(Encode, Haves(has, i), [Have(i)]);
        HavesGrow(has, i + 1, |has|);
        assert Haves(has, i + 1) == Haves(has, i) + [Have(i)];
        buf := buf + one.buf;
        count := count + 1;
      }
      i := i + 1;
    }
    HavesGrow(has, i, |has|);
    assert Haves(has, i) == Haves(has, |has|);
    nb := NetBuf(MultiHaveBuf, buf);
  }

  /** The head of a bit field message; the field follows in a buffer of its own. */
  function FieldHead(plen: nat): seq<Byte>
    requires plen < 0xffff_ffff
  {
    Be32(plen + 1) + [5]
  }

  lemma FieldEncoded(field: seq<Byte>)
    requires |field| < 0xffff_ffff
    ensures FieldHead(|field|) + field == Encode(Bitfield(field))
  {
  }

  method CreateBitfield(npieces: nat) returns (nb: NetBuf)
    requires FieldLen(npieces) < 0xffff_ffff
    ensures nb == NetBuf(BitfieldBuf, FieldHead(FieldLen(npieces)))
  {
    var out := new Byte[5](_ => 0);
    EncBe32(out, 0, FieldLen(npieces) + 1);
    out[4] := 5;
    nb := NetBuf(BitfieldBuf, out[..]);
    assert nb.buf == FieldHead(FieldLen(npieces));
  }
}
