/** How a torrent is cut into pieces and blocks (btpd/torrent.c). */
module Sizes {
  import opened Wire

  datatype Layout = Layout(npieces: nat, pieceLength: nat, totalLength: nat)

  /** The last piece is not empty and not longer than the others. */
  predicate Proper(t: Layout) {
    t.npieces > 0 && t.pieceLength > 0
    && t.pieceLength * (t.npieces - 1) < t.totalLength <= t.pieceLength * t.npieces
  }

  /** torrent_piece_size */
  function PieceSize(t: Layout, i: nat): (size: nat)
    requires Proper(t) && i < t.npieces
    ensures 0 < size <= t.pieceLength
  {
    LastPiece(t);
    if i < t.npieces - 1 then t.pieceLength else t.totalLength - t.pieceLength * (t.npieces - 1)
  }

  lemma LastPiece(t: Layout)
    requires Proper(t)
    ensures t.pieceLength * (t.npieces - 1) + t.pieceLength == t.pieceLength * t.npieces
  {
  }

  /** torrent_piece_blocks: size / PIECE_BLOCKLEN, rounded up. */
  function PieceBlocks(t: Layout, i: nat): (n: nat)
    requires Proper(t) && i < t.npieces
    ensures n > 0 && PIECE_BLOCKLEN * (n - 1) < PieceSize(t, i) <= PIECE_BLOCKLEN * n
  {
    (PieceSize(t, i) + PIECE_BLOCKLEN - 1) / PIECE_BLOCKLEN
  }

  /** torrent_block_size */
  function BlockSize(t: Layout, i: nat, nblocks: nat, b: nat): (size: nat)
    requires Proper(t) && i < t.npieces && nblocks == PieceBlocks(t, i) && b < nblocks
    ensures 0 < size <= PIECE_BLOCKLEN && b * PIECE_BLOCKLEN + size <= PieceSize(t, i)
  {
    if b < nblocks - 1 then PIECE_BLOCKLEN else PieceSize(t, i) - PIECE_BLOCKLEN * (nblocks - 1)
  }

  /** Where a piece begins in the content. */
  function PieceStart(t: Layout, i: nat): nat {
    i * t.pieceLength
  }

  // ---------- Pieces tile the content ----------

  /** The piece a byte of the content is in. */
  function PieceOf(t: Layout, pos: nat): nat
    requires Proper(t)
  {
    pos / t.pieceLength
  }

  predicate InPiece(t: Layout, i: nat, pos: nat)
    requires Proper(t)
  {
    i < t.npieces && PieceStart(t, i) <= pos < PieceStart(t, i) + PieceSize(t, i)
  }

  lemma Ordered(a: nat, b: nat, m: nat)
    requires a < b
    ensures a * m + m <= b * m
  {
    assert b * m == (a + 1) * m + (b - a - 1) * m;
  }

  lemma Divided(pos: nat, m: nat)
    requires m > 0
    ensures pos / m * m <= pos < pos / m * m + m
  {
  }

  /** Every byte of the content is in one piece, the one found by division. */
  lemma PiecesTile(t: Layout, pos: nat)
    requires Proper(t)
    ensures forall i: nat :: InPiece(t, i, pos) <==> pos < t.totalLength && i == PieceOf(t, pos)
  {
    forall i: nat
      ensures InPiece(t, i, pos) <==> pos < t.totalLength && i == PieceOf(t, pos)
    {
      PieceTiles(t, pos, i);
    }
  }

  lemma PieceTiles(t: Layout, pos: nat, i: nat)
    requires Proper(t)
    ensures InPiece(t, i, pos) <==> pos < t.totalLength && i == PieceOf(t, pos)
  {
    Divided(pos, t.pieceLength);
    LastPiece(t);
    var d := pos / t.pieceLength;
    if i < d {
      Ordered(i, d, t.pieceLength);
    } else if d < i {
      Ordered(d, i, t.pieceLength);
    }
    if d >= t.npieces {
      EndOfContent(t, d);
    } else if d < t.npieces - 1 {
      Ordered(d, t.npieces - 1, t.pieceLength);
    }
  }

  lemma EndOfContent(t: Layout, d: nat)
    requires Proper(t) && d >= t.npieces
    ensures t.totalLength <= d * t.pieceLength
  {
    if d > t.npieces {
      Ordered(t.npieces, d, t.pieceLength);
    }
  }

  lemma DividedBetween(a: nat, b: nat, m: nat)
    requires a <= b && m > 0
    ensures a / m <= b / m
  {
    Divided(a, m);
    Divided(b, m);
    if b / m < a / m {
      Ordered(b / m, a / m, m);
    }
  }

  lemma DividedIs(q: nat, p: nat, m: nat)
    requires m > 0 && p * m <= q < p * m + m
    ensures q / m == p
  {
    Divided(q, m);
    if q / m < p {
      Ordered(q / m, p, m);
    } else if p < q / m {
      Ordered(p, q / m, m);
    }
  }

  ghost predicate Meets(t: Layout, p: nat, a: nat, b: nat)
    requires Proper(t)
  {
    exists q: nat :: a <= q <= b && InPiece(t, p, q)
  }

  /** The pieces with a byte between a and b are those between the pieces of a and b. */
  lemma PiecesOfRange(t: Layout, a: nat, b: nat, p: nat)
    requires Proper(t) && a <= b < t.totalLength
    ensures Meets(t, p, a, b) <==> PieceOf(t, a) <= p <= PieceOf(t, b)
  {
    var m := t.pieceLength;
    if Meets(t, p, a, b) {
      var q: nat :| a <= q <= b && InPiece(t, p, q);
      PiecesTile(t, q);
      DividedBetween(a, q, m);
      DividedBetween(q, b, m);
    }
    if PieceOf(t, a) <= p <= PieceOf(t, b) {
      var q := Within(a, b, p, m);
      PiecesTile(t, q);
      assert InPiece(t, p, q);
    }
  }

  lemma Within(a: nat, b: nat, p: nat, m: nat) returns (q: nat)
    requires m > 0 && a <= b && a / m <= p <= b / m
    ensures a <= q <= b && q / m == p
  {
    q := a;
    if a / m < p {
      Divided(a, m);
      Divided(b, m);
      Ordered(a / m, p, m);
      if p < b / m {
        Ordered(p, b / m, m);
      }
      q := p * m;
      DividedIs(q, p, m);
    }
  }

  lemma PieceInside(t: Layout, i: nat)
    requires Proper(t) && i < t.npieces
    ensures PieceStart(t, i) + PieceSize(t, i) <= t.totalLength
  {
    if i < t.npieces - 1 {
      Ordered(i, t.npieces - 1, t.pieceLength);
    }
  }

  // ---------- Sums ----------

  /** The sizes of the blocks below k that are in got. */
  function BlockBytesBelow(t: Layout, i: nat, got: set<nat>, k: nat): nat
    requires Proper(t) && i < t.npieces && k <= PieceBlocks(t, i)
  {
    if k == 0 then 0
    else BlockBytesBelow(t, i, got, k - 1) + if k - 1 in got then BlockSize(t, i, PieceBlocks(t, i), k - 1) else 0
  }

  function GotBytes(t: Layout, i: nat, got: set<nat>): nat
    requires Proper(t) && i < t.npieces
  {
    BlockBytesBelow(t, i, got, PieceBlocks(t, i))
  }

  lemma {:induction false} BlocksBelow(t: Layout, i: nat, got: set<nat>, k: nat)
    requires Proper(t) && i < t.npieces && k <= PieceBlocks(t, i) && forall b: nat :: b < k ==> b in got
    ensures BlockBytesBelow(t, i, got, k) == if k < PieceBlocks(t, i) then k * PIECE_BLOCKLEN else PieceSize(t, i)
  {
    if k == 0 {
    } else {
      BlocksBelow(t, i, got, k - 1);
    }
  }

  /** The sizes of a piece's blocks add up to the size of the piece. */
  lemma BlocksSum(t: Layout, i: nat, got: set<nat>)
    requires Proper(t) && i < t.npieces && forall b: nat :: b < PieceBlocks(t, i) ==> b in got
    ensures GotBytes(t, i, got) == PieceSize(t, i)
  {
    BlocksBelow(t, i, got, PieceBlocks(t, i));
  }

  lemma {:induction false} OneMoreBlock(t: Layout, i: nat, got: set<nat>, b: nat, k: nat)
    requires Proper(t) && i < t.npieces && k <= PieceBlocks(t, i) && b !in got && b < PieceBlocks(t, i)
    ensures BlockBytesBelow(t, i, got + {b}, k)
         == BlockBytesBelow(t, i, got, k) + if b < k then BlockSize(t, i, PieceBlocks(t, i), b) else 0
  {
    if k == 0 {
    } else {
      OneMoreBlock(t, i, got, b, k - 1);
    }
  }

  lemma {:induction false} NoBlockBytes(t: Layout, i: nat, k: nat)
    requires Proper(t) && i < t.npieces && k <= PieceBlocks(t, i)
    ensures BlockBytesBelow(t, i, {}, k) == 0
  {
    if k == 0 {
    } else {
      NoBlockBytes(t, i, k - 1);
    }
  }

  /** The sizes of the pieces below k add up to where piece k begins, and all of them to the content. */
  function PieceBytesBelow(t: Layout, k: nat): nat
    requires Proper(t) && k <= t.npieces
  {
    if k == 0 then 0 else PieceBytesBelow(t, k - 1) + PieceSize(t, k - 1)
  }

  lemma {:induction false} PiecesSum(t: Layout, k: nat)
    requires Proper(t) && k <= t.npieces
    ensures PieceBytesBelow(t, k) == if k < t.npieces then PieceStart(t, k) else t.totalLength
  {
    if k == 0 {
    } else {
      PiecesSum(t, k - 1);
    }
  }
}
