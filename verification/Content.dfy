/** The content of a torrent on disk: which blocks and pieces are there (btpd/content.c). */
module Contents {
  import opened Wire
  import opened Lists
  import opened Sizes
  import opened Streams

  const ZEROBUFLEN: nat := 16384
  const SHAFILEBUF: nat := 32768

  type Hash = seq<Byte>

  /** struct file_time_size */
  datatype Stat = Stat(mtime: int, size: nat)

  // ---------- Accounting ----------

  /** What a piece adds to the content we have: all of it when it is verified, else its blocks. */
  function Share(t: Layout, verified: set<nat>, blocks: seq<set<nat>>, i: nat): nat
    requires Proper(t) && i < t.npieces == |blocks|
  {
    if i in verified then PieceSize(t, i) else GotBytes(t, i, blocks[i])
  }

  function SharesBelow(t: Layout, verified: set<nat>, blocks: seq<set<nat>>, k: nat): nat
    requires Proper(t) && k <= t.npieces == |blocks|
  {
    if k == 0 then 0 else SharesBelow(t, verified, blocks, k - 1) + Share(t, verified, blocks, k - 1)
  }

  /** Only piece i differs. */
  ghost predicate OnlyAt(t: Layout, v: set<nat>, blocks: seq<set<nat>>, v': set<nat>, blocks': seq<set<nat>>, i: nat) {
    |blocks| == |blocks'| == t.npieces
    && forall j: nat :: j < t.npieces && j != i ==> (j in v' <==> j in v) && blocks'[j] == blocks[j]
  }

  lemma {:induction false} OneShare(t: Layout, v: set<nat>, blocks: seq<set<nat>>, v': set<nat>,
                                    blocks': seq<set<nat>>, i: nat, k: nat)
    requires Proper(t) && OnlyAt(t, v, blocks, v', blocks', i) && i < t.npieces && k <= t.npieces
    ensures SharesBelow(t, v', blocks', k) - SharesBelow(t, v, blocks, k)
         == if i < k then Share(t, v', blocks', i) - Share(t, v, blocks, i) else 0
  {
    if k == 0 {
    } else {
      OneShare(t, v, blocks, v', blocks', i, k - 1);
    }
  }

  // ---------- What must not be overwritten ----------

  /** The byte is part of a verified piece, or of a block that was stored. */
  ghost predicate Protected(t: Layout, verified: set<nat>, blocks: seq<set<nat>>, pos: nat) {
    Proper(t) && |blocks| == t.npieces
    && exists i: nat :: InPiece(t, i, pos) && (i in verified || (pos - PieceStart(t, i)) / PIECE_BLOCKLEN in blocks[i])
  }

  /** Protected bytes are as they were. */
  ghost predicate Untouched(t: Layout, verified: set<nat>, blocks: seq<set<nat>>, lens: seq<nat>,
                            files: seq<seq<Byte>>, files': seq<seq<Byte>>) {
    |files| == |files'| == |lens|
    && forall pos: nat :: Protected(t, verified, blocks, pos) ==> Kept(Cell(files, lens, pos), Cell(files', lens, pos))
  }

  /** Blocks are numbered within their piece; pieces that are verified or have blocks are positioned. */
  ghost predicate FieldsOk(t: Layout, verified: set<nat>, blocks: seq<set<nat>>, pos: set<nat>) {
    && Proper(t) && |blocks| == t.npieces && verified <= pos && Bounded(pos, t.npieces)
    && forall i: nat :: i < t.npieces ==> Bounded(blocks[i], PieceBlocks(t, i)) && (blocks[i] != {} ==> i in pos)
  }

  /** The bytes of a piece are all there and have the piece's hash. */
  ghost predicate Genuine(t: Layout, lens: seq<nat>, files: seq<seq<Byte>>, sha: seq<Byte> -> Hash,
                          hashes: seq<Hash>, i: nat)
    requires Proper(t) && i < t.npieces == |hashes|
  {
    exists bytes :: |bytes| == PieceSize(t, i) && Holds(files, lens, PieceStart(t, i), bytes) && sha(bytes) == hashes[i]
  }

  ghost predicate AllGenuine(t: Layout, lens: seq<nat>, files: seq<seq<Byte>>, sha: seq<Byte> -> Hash,
                             hashes: seq<Hash>, verified: set<nat>) {
    Proper(t) && |hashes| == t.npieces
    && forall i :: i in verified ==> i < t.npieces && Genuine(t, lens, files, sha, hashes, i)
  }

  /** The bytes of every stored block are in their files. */
  ghost predicate BlocksPresent(t: Layout, lens: seq<nat>, files: seq<seq<Byte>>, blocks: seq<set<nat>>) {
    Proper(t) && |blocks| == t.npieces && |files| == |lens|
    && forall pos: nat :: Protected(t, {}, blocks, pos) ==> Cell(files, lens, pos).Some?
  }

  /** A piece without blocks that is not verified may be written as a whole. */
  lemma PieceIsFree(t: Layout, verified: set<nat>, blocks: seq<set<nat>>, i: nat, pos: nat)
    requires Proper(t) && |blocks| == t.npieces && i !in verified && i < t.npieces && blocks[i] == {}
    requires Protected(t, verified, blocks, pos)
    ensures !InPiece(t, i, pos)
  {
    PiecesTile(t, pos);
  }

  /** So may a block that is not stored. */
  lemma BlockIsFree(t: Layout, verified: set<nat>, blocks: seq<set<nat>>, i: nat, b: nat, pos: nat)
    requires Proper(t) && |blocks| == t.npieces && i !in verified && i < t.npieces && b < PieceBlocks(t, i) &&
      b !in blocks[i]
    requires Protected(t, verified, blocks, pos)
    ensures !(PieceStart(t, i) + b * PIECE_BLOCKLEN <= pos
              < PieceStart(t, i) + b * PIECE_BLOCKLEN + BlockSize(t, i, PieceBlocks(t, i), b))
  {
    PiecesTile(t, pos);
    var j: nat :| InPiece(t, j, pos) && (j in verified || (pos - PieceStart(t, j)) / PIECE_BLOCKLEN in blocks[j]);
    var start := PieceStart(t, i) + b * PIECE_BLOCKLEN;
    if start <= pos < start + BlockSize(t, i, PieceBlocks(t, i), b) {
      assert InPiece(t, i, pos);
    }
  }

  lemma GenuineStays(t: Layout, lens: seq<nat>, files: seq<seq<Byte>>, files': seq<seq<Byte>>,
                     sha: seq<Byte> -> Hash, hashes: seq<Hash>,
                     verified: set<nat>, blocks: seq<set<nat>>)
    requires AllGenuine(t, lens, files, sha, hashes, verified) && Untouched(t, verified, blocks, lens, files, files')
    requires |blocks| == t.npieces
    ensures AllGenuine(t, lens, files', sha, hashes, verified)
  {
    forall i | i in verified
      ensures Genuine(t, lens, files', sha, hashes, i)
    {
      var bytes :| |bytes| == PieceSize(t, i) && Holds(files, lens, PieceStart(t, i), bytes) && sha(bytes) == hashes[i];
      forall k: nat | k < |bytes|
        ensures Cell(files', lens, PieceStart(t, i) + k) == Some(bytes[k])
      {
        assert InPiece(t, i, PieceStart(t, i) + k);
        assert Protected(t, verified, blocks, PieceStart(t, i) + k);
        assert Cell(files, lens, PieceStart(t, i) + k) == Some(bytes[k]);
      }
      assert Holds(files', lens, PieceStart(t, i), bytes);
    }
  }

  // ---------- Writes ----------

  lemma KeptTwice(lens: seq<nat>, a: seq<seq<Byte>>, b: seq<seq<Byte>>, c: seq<seq<Byte>>, t: Layout, v: set<nat>,
                  blocks: seq<set<nat>>)
    requires Untouched(t, v, blocks, lens, a, b) && Untouched(t, v, blocks, lens, b, c)
    ensures Untouched(t, v, blocks, lens, a, c)
  {
    forall pos: nat | Protected(t, v, blocks, pos)
      ensures Kept(Cell(a, lens, pos), Cell(c, lens, pos))
    {
      assert Kept(Cell(a, lens, pos), Cell(b, lens, pos)) && Kept(Cell(b, lens, pos), Cell(c, lens, pos));
    }
  }

  /** A put over bytes that are not protected. */
  lemma PutFree(t: Layout, v: set<nat>, blocks: seq<set<nat>>, lens: seq<nat>, a: seq<seq<Byte>>, b: seq<seq<Byte>>,
                off: nat, bytes: seq<Byte>)
    requires Put(a, b, lens, off, bytes)
    requires forall pos: nat :: Protected(t, v, blocks, pos) ==> pos < off || off + |bytes| <= pos
    ensures Untouched(t, v, blocks, lens, a, b)
  {
    forall pos: nat | Protected(t, v, blocks, pos)
      ensures Kept(Cell(a, lens, pos), Cell(b, lens, pos))
    {
    }
  }

  lemma PutAppend(lens: seq<nat>, a: seq<seq<Byte>>, b: seq<seq<Byte>>, c: seq<seq<Byte>>, off: nat, x: seq<Byte>,
                  y: seq<Byte>)
    requires Put(a, b, lens, off, x) && Put(b, c, lens, off + |x|, y)
    ensures Put(a, c, lens, off, x + y)
  {
    forall pos: nat
      ensures if off <= pos < off + |x + y| then Cell(c, lens, pos) == Some((x + y)[pos - off])
              else Kept(Cell(a, lens, pos), Cell(c, lens, pos))
    {
      assert if off <= pos < off + |x| then Cell(b, lens, pos) == Some(x[pos - off])
             else Kept(Cell(a, lens, pos), Cell(b, lens, pos));
      assert if off + |x| <= pos < off + |x| + |y| then Cell(c, lens, pos) == Some(y[pos - off - |x|])
             else Kept(Cell(b, lens, pos), Cell(c, lens, pos));
    }
  }

  lemma PresentStays(t: Layout, lens: seq<nat>, files: seq<seq<Byte>>, files': seq<seq<Byte>>, v: set<nat>,
                     blocks: seq<set<nat>>)
    requires BlocksPresent(t, lens, files, blocks) && Untouched(t, v, blocks, lens, files, files')
    ensures BlocksPresent(t, lens, files', blocks)
  {
    forall pos: nat | Protected(t, {}, blocks, pos)
      ensures Cell(files', lens, pos).Some?
    {
      assert Protected(t, v, blocks, pos);
      assert Kept(Cell(files, lens, pos), Cell(files', lens, pos));
    }
  }

  lemma NewlyProtected(t: Layout, blocks: seq<set<nat>>, i: nat, k: nat, pos: nat)
    requires Proper(t) && i < t.npieces == |blocks| && k < PieceBlocks(t, i)
    requires Protected(t, {}, blocks[i := blocks[i] + {k}], pos)
    ensures Protected(t, {}, blocks, pos) || PieceStart(t, i) + k * PIECE_BLOCKLEN <= pos
              < PieceStart(t, i) + k * PIECE_BLOCKLEN + BlockSize(t, i, PieceBlocks(t, i), k)
  {
    var j: nat :| InPiece(t, j, pos) && (pos - PieceStart(t, j)) / PIECE_BLOCKLEN in blocks[i := blocks[i] + {k}][j];
    if j == i {
      BlockRange(t, i, k, pos);
    }
  }

  lemma NewBlockPresent(t: Layout, lens: seq<nat>, a: seq<seq<Byte>>, b: seq<seq<Byte>>, blocks: seq<set<nat>>,
                        i: nat, k: nat, buf: seq<Byte>)
    requires BlocksPresent(t, lens, a, blocks) && i < t.npieces && k < PieceBlocks(t, i)
    requires |buf| == BlockSize(t, i, PieceBlocks(t, i), k)
    requires Put(a, b, lens, PieceStart(t, i) + k * PIECE_BLOCKLEN, buf)
    ensures BlocksPresent(t, lens, b, blocks[i := blocks[i] + {k}])
  {
    var off := PieceStart(t, i) + k * PIECE_BLOCKLEN;
    forall pos: nat | Protected(t, {}, blocks[i := blocks[i] + {k}], pos)
      ensures Cell(b, lens, pos).Some?
    {
      NewlyProtected(t, blocks, i, k, pos);
      assert if off <= pos < off + |buf| then Cell(b, lens, pos) == Some(buf[pos - off])
             else Kept(Cell(a, lens, pos), Cell(b, lens, pos));
    }
  }

  /** The bytes of a block are those whose place in the piece, divided by the block length, is its number. */
  lemma BlockRange(t: Layout, i: nat, k: nat, pos: nat)
    requires Proper(t) && i < t.npieces && k < PieceBlocks(t, i) && InPiece(t, i, pos)
    ensures (pos - PieceStart(t, i)) / PIECE_BLOCKLEN == k <==>
            PieceStart(t, i) + k * PIECE_BLOCKLEN <= pos
              < PieceStart(t, i) + k * PIECE_BLOCKLEN + BlockSize(t, i, PieceBlocks(t, i), k)
  {
  }

  /** What putting one block does to the rest. */
  lemma BlockPut(t: Layout, lens: seq<nat>, a: seq<seq<Byte>>, b: seq<seq<Byte>>, sha: seq<Byte> -> Hash,
                 hashes: seq<Hash>,
                 v: set<nat>, blocks: seq<set<nat>>, i: nat, k: nat, buf: seq<Byte>)
    requires BlocksPresent(t, lens, a, blocks) && AllGenuine(t, lens, a, sha, hashes, v)
    requires i < t.npieces && i !in v && k < PieceBlocks(t, i) && k !in blocks[i]
    requires |buf| == BlockSize(t, i, PieceBlocks(t, i), k)
    requires Put(a, b, lens, PieceStart(t, i) + k * PIECE_BLOCKLEN, buf)
    ensures Untouched(t, v, blocks, lens, a, b) && AllGenuine(t, lens, b, sha, hashes, v)
    ensures BlocksPresent(t, lens, b, blocks[i := blocks[i] + {k}])
  {
    var off := PieceStart(t, i) + k * PIECE_BLOCKLEN;
    forall pos: nat | Protected(t, v, blocks, pos)
      ensures pos < off || off + |buf| <= pos
    {
      BlockIsFree(t, v, blocks, i, k, pos);
    }
    PutFree(t, v, blocks, lens, a, b, off, buf);
    GenuineStays(t, lens, a, b, sha, hashes, v, blocks);
    NewBlockPresent(t, lens, a, b, blocks, i, k, buf);
  }

  /** One block more, in the fields and in the count. */
  lemma StoreCounts(t: Layout, v: set<nat>, blocks: seq<set<nat>>, i: nat, k: nat)
    requires Proper(t) && i < t.npieces == |blocks| && i !in v && k < PieceBlocks(t, i) && k !in blocks[i]
    ensures SharesBelow(t, v, blocks[i := blocks[i] + {k}], t.npieces)
         == SharesBelow(t, v, blocks, t.npieces) + BlockSize(t, i, PieceBlocks(t, i), k)
  {
    OneShare(t, v, blocks, v, blocks[i := blocks[i] + {k}], i, t.npieces);
    OneMoreBlock(t, i, blocks[i], k, PieceBlocks(t, i));
  }

  /** A piece with all its blocks counts the same when it is verified. */
  lemma VerifyCounts(t: Layout, v: set<nat>, blocks: seq<set<nat>>, i: nat)
    requires Proper(t) && i < t.npieces == |blocks| && i !in v && forall b: nat :: b < PieceBlocks(t, i) ==>
      b in blocks[i]
    ensures SharesBelow(t, v + {i}, blocks, t.npieces) == SharesBelow(t, v, blocks, t.npieces)
  {
    OneShare(t, v, blocks, v + {i}, blocks, i, t.npieces);
    BlocksSum(t, i, blocks[i]);
  }

  /** A piece that fails its test takes all its bytes with it. */
  lemma RejectCounts(t: Layout, v: set<nat>, blocks: seq<set<nat>>, i: nat)
    requires Proper(t) && i < t.npieces == |blocks| && i !in v && forall b: nat :: b < PieceBlocks(t, i) ==>
      b in blocks[i]
    ensures SharesBelow(t, v, blocks[i := {}], t.npieces) == SharesBelow(t, v, blocks, t.npieces) - PieceSize(t, i)
  {
    OneShare(t, v, blocks, v, blocks[i := {}], i, t.npieces);
    BlocksSum(t, i, blocks[i]);
    NoBlockBytes(t, i, PieceBlocks(t, i));
  }

  lemma FewerPresent(t: Layout, lens: seq<nat>, files: seq<seq<Byte>>, blocks: seq<set<nat>>, i: nat)
    requires BlocksPresent(t, lens, files, blocks) && i < t.npieces
    ensures BlocksPresent(t, lens, files, blocks[i := {}])
  {
    forall pos: nat | Protected(t, {}, blocks[i := {}], pos)
      ensures Cell(files, lens, pos).Some?
    {
      var j: nat :| InPiece(t, j, pos) && (pos - PieceStart(t, j)) / PIECE_BLOCKLEN in blocks[i := {}][j];
      assert j != i;
      assert Protected(t, {}, blocks, pos);
    }
  }

  /** The blocks of a piece cover it. */
  lemma CompletePresent(t: Layout, lens: seq<nat>, files: seq<seq<Byte>>, blocks: seq<set<nat>>, i: nat)
    requires BlocksPresent(t, lens, files, blocks) && i < t.npieces && forall b: nat :: b < PieceBlocks(t, i) ==>
      b in blocks[i]
    ensures !Lacking(files, lens, PieceStart(t, i), PieceSize(t, i))
  {
    forall pos: nat | PieceStart(t, i) <= pos < PieceStart(t, i) + PieceSize(t, i)
      ensures Cell(files, lens, pos).Some?
    {
      assert InPiece(t, i, pos);
      assert (pos - PieceStart(t, i)) / PIECE_BLOCKLEN < PieceBlocks(t, i);
      assert Protected(t, {}, blocks, pos);
    }
  }

  /** Fields and counts fit together. */
  ghost predicate Tallied(t: Layout, v: set<nat>, blocks: seq<set<nat>>, pos: set<nat>, npiecesGot: nat,
                          ncontentBytes: int) {
    FieldsOk(t, v, blocks, pos) && npiecesGot == |v| && ncontentBytes == SharesBelow(t, v, blocks, t.npieces)
  }

  /** Fields, counts and files fit together. */
  ghost predicate Consistent(t: Layout, lens: seq<nat>, files: seq<seq<Byte>>, sha: seq<Byte> -> Hash,
                             hashes: seq<Hash>,
                             v: set<nat>, blocks: seq<set<nat>>, pos: set<nat>, npiecesGot: nat, ncontentBytes: int) {
    && Tallied(t, v, blocks, pos, npiecesGot, ncontentBytes)
    && AllGenuine(t, lens, files, sha, hashes, v)
    && BlocksPresent(t, lens, files, blocks)
  }

  /** A block that we lack, with as many bytes as it has. */
  predicate Acceptable(t: Layout, v: set<nat>, blocks: seq<set<nat>>, piece: nat, b: nat, buf: seq<Byte>) {
    Proper(t) && piece < t.npieces == |blocks| && b < PieceBlocks(t, piece) && piece !in v && b !in blocks[piece]
    && |buf| == BlockSize(t, piece, PieceBlocks(t, piece), b)
  }

  predicate AllBlocks(t: Layout, blocks: seq<set<nat>>, i: nat) {
    Proper(t) && i < t.npieces == |blocks| && forall b: nat :: b < PieceBlocks(t, i) ==> b in blocks[i]
  }

  lemma Store(t: Layout, lens: seq<nat>, a: seq<seq<Byte>>, b: seq<seq<Byte>>, sha: seq<Byte> -> Hash,
              hashes: seq<Hash>,
              v: set<nat>, blocks: seq<set<nat>>, pos: set<nat>, npiecesGot: nat, ncontentBytes: int, i: nat,
              k: nat, buf: seq<Byte>)
    requires Consistent(t, lens, a, sha, hashes, v, blocks, pos, npiecesGot, ncontentBytes)
    requires i < t.npieces && i !in v && i in pos && k < PieceBlocks(t, i) && k !in blocks[i]
    requires |buf| == BlockSize(t, i, PieceBlocks(t, i), k)
    requires Put(a, b, lens, PieceStart(t, i) + k * PIECE_BLOCKLEN, buf)
    ensures Consistent(t, lens, b, sha, hashes, v, blocks[i := blocks[i] + {k}], pos, npiecesGot, ncontentBytes + |buf|)
    ensures Untouched(t, v, blocks, lens, a, b) && Holds(b, lens, PieceStart(t, i) + k * PIECE_BLOCKLEN, buf)
  {
    BlockPut(t, lens, a, b, sha, hashes, v, blocks, i, k, buf);
    StoreCounts(t, v, blocks, i, k);
    PutThenGet(a, b, lens, PieceStart(t, i) + k * PIECE_BLOCKLEN, buf, 0, []);
  }

  lemma Verify(t: Layout, lens: seq<nat>, files: seq<seq<Byte>>, sha: seq<Byte> -> Hash, hashes: seq<Hash>,
               v: set<nat>, blocks: seq<set<nat>>, pos: set<nat>, npiecesGot: nat, ncontentBytes: int, i: nat)
    requires Consistent(t, lens, files, sha, hashes, v, blocks, pos, npiecesGot, ncontentBytes)
    requires AllBlocks(t, blocks, i) && i !in v && Genuine(t, lens, files, sha, hashes, i)
    ensures Consistent(t, lens, files, sha, hashes, v + {i}, blocks, pos, npiecesGot + 1, ncontentBytes)
    ensures npiecesGot < t.npieces
  {
    VerifyCounts(t, v, blocks, i);
    assert 0 in blocks[i];
    assert v + {i} <= Range(t.npieces);
    SubsetCard(v + {i}, Range(t.npieces));
  }

  lemma Reject(t: Layout, lens: seq<nat>, files: seq<seq<Byte>>, sha: seq<Byte> -> Hash, hashes: seq<Hash>,
               v: set<nat>, blocks: seq<set<nat>>, pos: set<nat>, npiecesGot: nat, ncontentBytes: int, i: nat)
    requires Consistent(t, lens, files, sha, hashes, v, blocks, pos, npiecesGot, ncontentBytes)
    requires AllBlocks(t, blocks, i) && i !in v
    ensures Consistent(t, lens, files, sha, hashes, v, blocks[i := {}], pos, npiecesGot,
      ncontentBytes - PieceSize(t, i))
  {
    RejectCounts(t, v, blocks, i);
    FewerPresent(t, lens, files, blocks, i);
  }

  /** The pieces that are positioned together: cm_alloc_size / piece_length, rounded up. */
  function GroupSize(t: Layout, allocSize: int): (n: nat)
    requires Proper(t) && allocSize > 0
    ensures n > 0 && (n - 1) * t.pieceLength < allocSize <= n * t.pieceLength
  {
    RoundedUp(allocSize, t.pieceLength);
    (allocSize + t.pieceLength - 1) / t.pieceLength
  }

  lemma RoundedUp(a: nat, m: nat)
    requires a > 0 && m > 0
    ensures var n := (a + m - 1) / m; n > 0 && (n - 1) * m < a <= n * m
  {
    var n := (a + m - 1) / m;
    Divided(a + m - 1, m);
    assert n == 0 ==> n * m == 0;
    assert (n - 1) * m == n * m - m;
  }

  function GroupStart(piece: nat, group: nat): (start: nat)
    requires group > 0
    ensures start <= piece < start + group
  {
    Divided(piece, group);
    piece - piece % group
  }

  /** The pieces that are positioned along with one, g at a time. */
  ghost function Group(t: Layout, piece: nat, g: nat): set<nat>
    requires g > 0
  {
    set j: nat | j < t.npieces && j / g == piece / g
  }

  function From(a: nat, b: nat): set<nat> {
    Range(b) - Range(a)
  }

  lemma GroupIsFrom(t: Layout, piece: nat, g: nat)
    requires g > 0 && piece < t.npieces
    ensures var start := GroupStart(piece, g);
      Group(t, piece, g) == From(start, if start + g < t.npieces then start + g else t.npieces)
  {
    var start := GroupStart(piece, g);
    Divided(piece, g);
    forall j: nat
      ensures start <= j < start + g <==> j / g == piece / g
    {
      Divided(j, g);
      if start <= j < start + g {
        DividedIs(j, piece / g, g);
      }
    }
  }

  lemma AlreadyIn(s: set<nat>, i: nat)
    requires i in s
    ensures s + {i} == s
  {
  }

  lemma OneMoreNew(s: set<nat>, was: set<nat>, i: nat)
    requires i !in s && was <= s
    ensures s + {i} - was == s - was + {i}
  {
  }

  lemma FromNext(pos: set<nat>, a: nat, b: nat)
    requires a <= b
    ensures pos + From(a, b + 1) == pos + From(a, b) + {b}
  {
  }

  /** No other number of whole pieces is the least that makes up the allocation size. */
  lemma OneGroupSize(t: Layout, allocSize: int, n: nat)
    requires n > 0 && (n - 1) * t.pieceLength < allocSize <= n * t.pieceLength
    ensures forall g: nat :: g > 0 && (g - 1) * t.pieceLength < allocSize <= g * t.pieceLength ==> g == n
  {
    forall g: nat | g > 0 && (g - 1) * t.pieceLength < allocSize <= g * t.pieceLength
      ensures g == n
    {
      if g < n {
        Ordered(g - 1, n - 1, t.pieceLength);
      } else if n < g {
        Ordered(n - 1, g - 1, t.pieceLength);
      }
    }
  }

  ghost predicate Covers(t: Layout, pieces: set<nat>, pos: nat)
    requires Proper(t)
  {
    exists i: nat :: i in pieces && InPiece(t, i, pos)
  }

  /** Zeros were written over these pieces, and over nothing else. */
  ghost predicate ZeroFilled(t: Layout, lens: seq<nat>, before: seq<seq<Byte>>, now: seq<seq<Byte>>, pieces: set<nat>) {
    Proper(t) && |before| == |now| == |lens|
    && forall pos: nat :: if Covers(t, pieces, pos) then Cell(now, lens, pos) == Some(0)
         else Kept(Cell(before, lens, pos), Cell(now, lens, pos))
  }

  lemma FilledOne(t: Layout, lens: seq<nat>, a: seq<seq<Byte>>, b: seq<seq<Byte>>, i: nat)
    requires Proper(t) && i < t.npieces && Put(a, b, lens, PieceStart(t, i), Zeros(PieceSize(t, i)))
    ensures ZeroFilled(t, lens, a, b, {i})
  {
    forall pos: nat
      ensures if Covers(t, {i}, pos) then Cell(b, lens, pos) == Some(0)
              else Kept(Cell(a, lens, pos), Cell(b, lens, pos))
    {
      assert Covers(t, {i}, pos) <==> InPiece(t, i, pos);
    }
  }

  lemma FilledMore(t: Layout, lens: seq<nat>, a: seq<seq<Byte>>, b: seq<seq<Byte>>, c: seq<seq<Byte>>, more: set<nat>,
                   i: nat)
    requires ZeroFilled(t, lens, a, b, more) && ZeroFilled(t, lens, b, c, {i})
    ensures ZeroFilled(t, lens, a, c, more + {i})
  {
    forall pos: nat
      ensures if Covers(t, more + {i}, pos) then Cell(c, lens, pos) == Some(0)
              else Kept(Cell(a, lens, pos), Cell(c, lens, pos))
    {
      assert Covers(t, more + {i}, pos) <==> Covers(t, more, pos) || Covers(t, {i}, pos);
    }
  }

  /** All bytes of these pieces are in their files. */
  ghost predicate Allocated(t: Layout, lens: seq<nat>, files: seq<seq<Byte>>, pieces: set<nat>)
    requires Proper(t)
  {
    Bounded(pieces, t.npieces) && forall i :: i in pieces ==> !Lacking(files, lens, PieceStart(t, i), PieceSize(t, i))
  }

  /** No byte that is in its file gets lost. */
  ghost predicate NoneLost(lens: seq<nat>, before: seq<seq<Byte>>, now: seq<seq<Byte>>) {
    |before| == |now| == |lens|
    && forall pos: nat :: Cell(before, lens, pos).Some? ==> Cell(now, lens, pos).Some?
  }

  /** Bytes were put at off and zeros over the rest of these pieces, and nothing else was written. */
  ghost predicate Written(t: Layout, lens: seq<nat>, before: seq<seq<Byte>>, now: seq<seq<Byte>>, pieces: set<nat>,
                          off: nat, bytes: seq<Byte>) {
    Proper(t) && |before| == |now| == |lens|
    && forall pos: nat ::
         if off <= pos < off + |bytes| then Cell(now, lens, pos) == Some(bytes[pos - off])
         else if Covers(t, pieces, pos) then Cell(now, lens, pos) == Some(0)
         else Kept(Cell(before, lens, pos), Cell(now, lens, pos))
  }

  lemma FilledThenPut(t: Layout, lens: seq<nat>, a: seq<seq<Byte>>, b: seq<seq<Byte>>, c: seq<seq<Byte>>,
                      pieces: set<nat>, off: nat, bytes: seq<Byte>)
    requires ZeroFilled(t, lens, a, b, pieces) && Put(b, c, lens, off, bytes)
    ensures Written(t, lens, a, c, pieces, off, bytes) && NoneLost(lens, b, c)
  {
    forall pos: nat
      ensures if off <= pos < off + |bytes| then Cell(c, lens, pos) == Some(bytes[pos - off])
              else if Covers(t, pieces, pos) then Cell(c, lens, pos) == Some(0)
              else Kept(Cell(a, lens, pos), Cell(c, lens, pos))
    {
      assert if Covers(t, pieces, pos) then Cell(b, lens, pos) == Some(0)
             else Kept(Cell(a, lens, pos), Cell(b, lens, pos));
    }
  }

  /** What was put is there, and nothing that was there is lost. */
  lemma WrittenIsThere(t: Layout, lens: seq<nat>, a: seq<seq<Byte>>, b: seq<seq<Byte>>, pieces: set<nat>, off: nat,
                       bytes: seq<Byte>)
    requires Written(t, lens, a, b, pieces, off, bytes)
    ensures Holds(b, lens, off, bytes) && NoneLost(lens, a, b)
    ensures Bounded(pieces, t.npieces) ==> Allocated(t, lens, b, pieces)
  {
    forall i, pos: nat | i in pieces && i < t.npieces && PieceStart(t, i) <= pos < PieceStart(t, i) + PieceSize(t, i)
      ensures Cell(b, lens, pos).Some?
    {
      assert InPiece(t, i, pos) && Covers(t, pieces, pos);
    }
  }

  lemma FilledIsAllocated(t: Layout, lens: seq<nat>, a: seq<seq<Byte>>, b: seq<seq<Byte>>, pieces: set<nat>)
    requires ZeroFilled(t, lens, a, b, pieces) && Bounded(pieces, t.npieces)
    ensures Allocated(t, lens, b, pieces) && NoneLost(lens, a, b)
  {
    forall i, pos: nat | i in pieces && PieceStart(t, i) <= pos < PieceStart(t, i) + PieceSize(t, i)
      ensures Cell(b, lens, pos) == Some(0)
    {
      assert InPiece(t, i, pos) && Covers(t, pieces, pos);
    }
  }

  lemma StaysAllocated(t: Layout, lens: seq<nat>, a: seq<seq<Byte>>, b: seq<seq<Byte>>, pieces: set<nat>)
    requires Proper(t) && Allocated(t, lens, a, pieces) && NoneLost(lens, a, b)
    ensures Allocated(t, lens, b, pieces)
  {
    forall i, pos: nat | i in pieces && PieceStart(t, i) <= pos < PieceStart(t, i) + PieceSize(t, i)
      ensures Cell(b, lens, pos).Some?
    {
      assert Cell(a, lens, pos) != None;
    }
  }

  // ---------- The content manager ----------

  class Content {
    const t: Layout
    const lens: seq<nat>
    const disk: Disk
    const rds: Stream
    const wrs: Stream
    const sha: seq<Byte> -> Hash
    const hashes: seq<Hash>
    const allocSize: int
    var pieceField: set<nat>
    var blockField: seq<set<nat>>
    var posField: set<nat>
    var npiecesGot: nat
    var ncontentBytes: int

    /** Two streams over the same files, of the torrent's length. */
    ghost predicate Wired()
      reads this, disk, rds, wrs
    {
      && Proper(t) && Total(lens) == t.totalLength && |hashes| == t.npieces
      && rds.lens == lens && wrs.lens == lens && rds.disk == disk && wrs.disk == disk && rds != wrs
      && rds.Valid() && wrs.Valid()
    }

    ghost predicate Valid()
      reads this, disk, rds, wrs
    {
      Wired() && Consistent(t, lens, disk.files, sha, hashes, pieceField, blockField, posField, npiecesGot,
        ncontentBytes)
    }

    /** cm_create, with the fields as the resume data has them, and the streams of cm_start. */
    constructor (t: Layout, lens: seq<nat>, disk: Disk, sha: seq<Byte> -> Hash, hashes: seq<Hash>, allocSize: int,
                 pieceField: set<nat>, blockField: seq<set<nat>>)
      requires Proper(t) && Total(lens) == t.totalLength && |hashes| == t.npieces && InBounds(disk.files, lens)
      ensures Wired() && this.t == t && this.lens == lens && this.disk == disk && this.sha == sha &&
        this.hashes == hashes
      ensures this.pieceField == pieceField && this.blockField == blockField
      ensures posField == {} && npiecesGot == 0 && ncontentBytes == 0 && fresh(rds) && fresh(wrs)
    {
      this.t, this.lens, this.disk, this.sha, this.hashes, this.allocSize := t, lens, disk, sha, hashes, allocSize;
      this.pieceField, this.blockField := pieceField, blockField;
      posField, npiecesGot, ncontentBytes := {}, 0, 0;
      rds := new Stream(lens, disk);
      wrs := new Stream(lens, disk);
    }

    /** The zero bytes of the preallocation, for one piece. */
    method ZeroFill(i: nat)
      requires Wired() && i < t.npieces
      modifies wrs, disk
      ensures Wired() && Put(old(disk.files), disk.files, lens, PieceStart(t, i), Zeros(PieceSize(t, i)))
    {
      var len: nat := PieceSize(t, i);
      var off := PieceStart(t, i);
      PieceInside(t, i);
      PutNothing(disk.files, lens, off);
      assert Zeros(0) == [];
      while len > 0
        invariant Wired() && len <= PieceSize(t, i) && off == PieceStart(t, i) + (PieceSize(t, i) - len)
        invariant Put(old(disk.files), disk.files, lens, PieceStart(t, i), Zeros(PieceSize(t, i) - len))
      {
        var wlen := if ZEROBUFLEN < len then ZEROBUFLEN else len;
        ghost var before := disk.files;
        wrs.PutBytes(off, Zeros(wlen));
        ghost var done := Zeros(PieceSize(t, i) - len);
        PutAppend(lens, old(disk.files), before, disk.files, PieceStart(t, i), done, Zeros(wlen));
        assert done + Zeros(wlen) == Zeros(PieceSize(t, i) - len + wlen);
        len := len - wlen;
        off := off + wlen;
      }
    }

    /**
     The preallocation of cm_put_bytes: the pieces of the group that have no place on disk yet are
     filled with zeros, the group being the pieces whose number divided by g is this piece's, with
     as many whole pieces to the group as the allocation size needs.
     */
    method Preallocate(piece: nat)
      requires Valid() && piece < t.npieces && allocSize > 0
      modifies this`posField, wrs, disk
      ensures Valid() && piece in posField
      ensures forall g: nat :: g > 0 && (g - 1) * t.pieceLength < allocSize <= g * t.pieceLength ==>
                posField == old(posField) + Group(t, piece, g)
      ensures ZeroFilled(t, lens, old(disk.files), disk.files, posField - old(posField))
      ensures Allocated(t, lens, disk.files, posField - old(posField)) && NoneLost(lens, old(disk.files), disk.files)
      ensures Untouched(t, pieceField, blockField, lens, old(disk.files), disk.files)
    {
      var group := GroupSize(t, allocSize);
      var start := GroupStart(piece, group);
      var end := if start + group < t.npieces then start + group else t.npieces;
      PositionAll(start, end);
      GroupIsFrom(t, piece, group);
      OneGroupSize(t, allocSize, group);
      FilledIsAllocated(t, lens, old(disk.files), disk.files, posField - old(posField));
    }

    method PositionAll(first: nat, end: nat)
      requires Valid() && first <= end <= t.npieces
      modifies this`posField, wrs, disk
      ensures Valid() && posField == old(posField) + From(first, end)
      ensures ZeroFilled(t, lens, old(disk.files), disk.files, posField - old(posField))
      ensures Untouched(t, pieceField, blockField, lens, old(disk.files), disk.files)
    {
      var start := first;
      assert posField == old(posField) + From(first, first);
      while start < end
        invariant Valid() && first <= start <= end && posField == old(posField) + From(first, start)
        invariant ZeroFilled(t, lens, old(disk.files), disk.files, posField - old(posField))
        invariant Untouched(t, pieceField, blockField, lens, old(disk.files), disk.files)
      {
        ghost var before := disk.files;
        PositionNext(start, old(disk.files), old(posField));
        KeptTwice(lens, old(disk.files), before, disk.files, t, pieceField, blockField);
        FromNext(old(posField), first, start);
        start := start + 1;
      }
    }

    method PositionNext(i: nat, ghost files: seq<seq<Byte>>, ghost pos: set<nat>)
      requires Valid() && i < t.npieces && pos <= posField && ZeroFilled(t, lens, files, disk.files, posField - pos)
      modifies this`posField, wrs, disk
      ensures Valid() && posField == old(posField) + {i} && ZeroFilled(t, lens, files, disk.files, posField - pos)
      ensures Untouched(t, pieceField, blockField, lens, old(disk.files), disk.files)
    {
      if i in posField {
        AlreadyIn(posField, i);
        return;
      }
      ghost var before := disk.files;
      OneMoreNew(posField, pos, i);
      Position(i);
      FilledMore(t, lens, files, before, disk.files, old(posField) - pos, i);
    }

    method Position(i: nat)
      requires Valid() && i < t.npieces && i !in posField
      modifies this`posField, wrs, disk
      ensures Valid() && posField == old(posField) + {i}
      ensures ZeroFilled(t, lens, old(disk.files), disk.files, {i})
      ensures Untouched(t, pieceField, blockField, lens, old(disk.files), disk.files)
    {
      ghost var before := disk.files;
      ZeroFill(i);
      FilledOne(t, lens, before, disk.files, i);
      forall pos: nat | Protected(t, pieceField, blockField, pos)
        ensures pos < PieceStart(t, i) || PieceStart(t, i) + |Zeros(PieceSize(t, i))| <= pos
      {
        PieceIsFree(t, pieceField, blockField, i, pos);
      }
      PutFree(t, pieceField, blockField, lens, before, disk.files, PieceStart(t, i), Zeros(PieceSize(t, i)));
      GenuineStays(t, lens, before, disk.files, sha, hashes, pieceField, blockField);
      PresentStays(t, lens, before, disk.files, pieceField, blockField);
      posField := posField + {i};
    }

    /**
     cm_put_bytes: one block is stored, and no byte of a verified piece or of a stored block is
     written, neither by the block nor by the preallocation.
     */
    method PutBlock(piece: nat, begin: nat, buf: seq<Byte>)
      requires Valid() && piece < t.npieces
      requires begin / PIECE_BLOCKLEN * PIECE_BLOCKLEN == begin && begin / PIECE_BLOCKLEN < PieceBlocks(t, piece)
      requires |buf| == BlockSize(t, piece, PieceBlocks(t, piece), begin / PIECE_BLOCKLEN)
      requires begin / PIECE_BLOCKLEN !in blockField[piece] && piece !in pieceField
      requires allocSize > 0 || piece in posField
      modifies this`posField, this`blockField, this`ncontentBytes, wrs, disk
      ensures Valid() && Positioned(piece, old(posField))
      ensures blockField == old(blockField[piece := blockField[piece] + {begin / PIECE_BLOCKLEN}])
      ensures ncontentBytes == old(ncontentBytes) + |buf|
      ensures Untouched(t, pieceField, old(blockField), lens, old(disk.files), disk.files)
      ensures Written(t, lens, old(disk.files), disk.files, posField - old(posField), PieceStart(t, piece) + begin, buf)
    {
      PlaceAndStore(piece, begin / PIECE_BLOCKLEN, buf);
    }

    method PlaceAndStore(piece: nat, b: nat, buf: seq<Byte>)
      requires Valid() && Acceptable(t, pieceField, blockField, piece, b, buf) && (allocSize > 0 || piece in posField)
      modifies this`posField, this`blockField, this`ncontentBytes, wrs, disk
      ensures Valid() && Positioned(piece, old(posField))
      ensures blockField == old(blockField[piece := blockField[piece] + {b}])
      ensures ncontentBytes == old(ncontentBytes) + |buf|
      ensures Untouched(t, pieceField, old(blockField), lens, old(disk.files), disk.files)
      ensures Written(t, lens, old(disk.files), disk.files, posField - old(posField),
        PieceStart(t, piece) + b * PIECE_BLOCKLEN, buf)
    {
      EnsurePlace(piece);
      ghost var before := disk.files;
      StoreBlock(piece, b, buf);
      KeptTwice(lens, old(disk.files), before, disk.files, t, pieceField, old(blockField));
      FilledThenPut(t, lens, old(disk.files), before, disk.files, posField - old(posField),
        PieceStart(t, piece) + b * PIECE_BLOCKLEN, buf);
    }

    /** The piece has its place, and if it had none before, so have the others of its group. */
    ghost predicate Positioned(piece: nat, was: set<nat>)
      reads this
    {
      && (piece in was ==> posField == was)
      && (piece in was || allocSize > 0)
      && (piece !in was ==>
           forall g: nat :: g > 0 && (g - 1) * t.pieceLength < allocSize <= g * t.pieceLength ==>
             posField == was + Group(t, piece, g))
    }

    method EnsurePlace(piece: nat)
      requires Valid() && piece < t.npieces && (allocSize > 0 || piece in posField)
      modifies this`posField, wrs, disk
      ensures Valid() && Positioned(piece, old(posField)) && piece in posField
      ensures ZeroFilled(t, lens, old(disk.files), disk.files, posField - old(posField))
      ensures Untouched(t, pieceField, blockField, lens, old(disk.files), disk.files)
    {
      if piece !in posField {
        Preallocate(piece);
      } else {
        assert posField - posField == {};
      }
    }

    method StoreBlock(piece: nat, b: nat, buf: seq<Byte>)
      requires Valid() && piece < t.npieces && b < PieceBlocks(t, piece) &&
        |buf| == BlockSize(t, piece, PieceBlocks(t, piece), b)
      requires b !in blockField[piece] && piece !in pieceField && piece in posField
      modifies this`blockField, this`ncontentBytes, wrs, disk
      ensures Valid() && blockField == old(blockField[piece := blockField[piece] + {b}])
      ensures ncontentBytes == old(ncontentBytes) + |buf|
      ensures Untouched(t, pieceField, old(blockField), lens, old(disk.files), disk.files)
      ensures Put(old(disk.files), disk.files, lens, PieceStart(t, piece) + b * PIECE_BLOCKLEN, buf)
    {
      WriteBlock(piece, b, buf);
      Store(t, lens, old(disk.files), disk.files, sha, hashes, pieceField, blockField, posField, npiecesGot,
        ncontentBytes, piece, b, buf);
      ncontentBytes := ncontentBytes + |buf|;
      blockField := blockField[piece := blockField[piece] + {b}];
    }

    method WriteBlock(piece: nat, b: nat, buf: seq<Byte>)
      requires Wired() && piece < t.npieces && b < PieceBlocks(t, piece)
      requires |buf| == BlockSize(t, piece, PieceBlocks(t, piece), b)
      modifies wrs, disk
      ensures Wired() && Put(old(disk.files), disk.files, lens, PieceStart(t, piece) + b * PIECE_BLOCKLEN, buf)
    {
      PieceInside(t, piece);
      wrs.PutBytes(PieceStart(t, piece) + b * PIECE_BLOCKLEN, buf);
    }

    /** bts_sha and test_hash: whether the piece's bytes have its hash, read in parts. */
    method Test(i: nat) returns (err: bool, ok: bool)
      requires Wired() && i < t.npieces
      modifies rds
      ensures Wired()
      ensures err <==> Lacking(disk.files, lens, PieceStart(t, i), PieceSize(t, i))
      ensures !err ==> (ok <==> Genuine(t, lens, disk.files, sha, hashes, i))
    {
      var all: seq<Byte> := [];
      PieceInside(t, i);
      ok := false;
      while |all| < PieceSize(t, i)
        invariant Wired() && |all| <= PieceSize(t, i)
        invariant Holds(disk.files, lens, PieceStart(t, i), all)
      {
        var left := PieceSize(t, i) - |all|;
        var want := if SHAFILEBUF < left then SHAFILEBUF else left;
        var got, part := rds.GetBytes(PieceStart(t, i) + |all|, want);
        if !got {
          err := true;
          return;
        }
        HoldsMore(disk.files, lens, PieceStart(t, i), all, part);
        all := all + part;
      }
      HoldsOne(disk.files, lens, PieceStart(t, i), all, all);
      err := false;
      ok := sha(all) == hashes[i];
      forall bytes | |bytes| == PieceSize(t, i) && Holds(disk.files, lens, PieceStart(t, i), bytes)
        ensures bytes == all
      {
        HoldsOne(disk.files, lens, PieceStart(t, i), all, bytes);
      }
    }

    /**
     cm_test_piece: a piece that has all its blocks becomes verified exactly when its bytes have
     its hash, and else it has none of them.
     */
    method TestPiece(piece: nat) returns (ok: bool)
      requires Valid() && piece < t.npieces && piece !in pieceField && AllBlocks(t, blockField, piece)
      modifies this`pieceField, this`npiecesGot, this`blockField, this`ncontentBytes, rds
      ensures Valid() && posField == old(posField) && (ok <==> Genuine(t, lens, disk.files, sha, hashes, piece))
      ensures ok ==> pieceField == old(pieceField) + {piece} && npiecesGot == old(npiecesGot) + 1 <= t.npieces
      ensures ok ==> blockField == old(blockField) && ncontentBytes == old(ncontentBytes)
      ensures !ok ==> pieceField == old(pieceField) && npiecesGot == old(npiecesGot)
      ensures !ok ==> blockField == old(blockField)[piece := {}]
      ensures !ok ==> ncontentBytes == old(ncontentBytes) - PieceSize(t, piece)
    {
      CompletePresent(t, lens, disk.files, blockField, piece);
      var err;
      err, ok := Test(piece);
      if ok {
        Accept(piece);
      } else {
        Discard(piece);
      }
    }

    method Accept(piece: nat)
      requires Valid() && piece < t.npieces && piece !in pieceField && AllBlocks(t, blockField, piece)
      requires Genuine(t, lens, disk.files, sha, hashes, piece)
      modifies this`pieceField, this`npiecesGot
      ensures Valid() && pieceField == old(pieceField) + {piece} && npiecesGot == old(npiecesGot) + 1 <= t.npieces
    {
      Verify(t, lens, disk.files, sha, hashes, pieceField, blockField, posField, npiecesGot, ncontentBytes, piece);
      npiecesGot := npiecesGot + 1;
      pieceField := pieceField + {piece};
    }

    method Discard(piece: nat)
      requires Valid() && piece < t.npieces && piece !in pieceField && AllBlocks(t, blockField, piece)
      modifies this`blockField, this`ncontentBytes
      ensures Valid() && blockField == old(blockField)[piece := {}]
      ensures ncontentBytes == old(ncontentBytes) - PieceSize(t, piece)
    {
      Reject(t, lens, disk.files, sha, hashes, pieceField, blockField, posField, npiecesGot, ncontentBytes, piece);
      ncontentBytes := ncontentBytes - PieceSize(t, piece);
      blockField := blockField[piece := {}];
    }

    // ---------- Start ----------

    /** The fields as the resume data may have them. */
    ghost predicate Resumed()
      reads this, disk, rds, wrs
    {
      && Wired() && Bounded(pieceField, t.npieces) && BlocksBounded(t, blockField)
    }

    method ClearPieces(start: nat, end: nat)
      requires Resumed() && pieceField <= posField && start <= end < t.npieces
      modifies this`posField, this`pieceField, this`blockField
      ensures Resumed() && pieceField <= posField
      ensures forall p: nat :: p in posField <==> p in old(posField) && !(start <= p <= end)
      ensures forall p: nat :: p in pieceField ==> p in old(pieceField)
      ensures forall p: nat :: p < t.npieces ==> blockField[p] == if start <= p <= end then {} else old(blockField[p])
    {
      var p := start;
      while p <= end
        invariant start <= p <= end + 1 && Resumed() && pieceField <= posField
        invariant forall q: nat :: q in posField <==> q in old(posField) && !(start <= q < p)
        invariant forall q: nat :: q in pieceField ==> q in old(pieceField)
        invariant forall q: nat :: q < t.npieces ==> blockField[q] == if start <= q < p then {} else old(blockField[q])
      {
        posField := posField - {p};
        pieceField := pieceField - {p};
        blockField := blockField[p := {}];
        p := p + 1;
      }
    }

    /** The marking of cm_start: a piece is to be tested exactly when none of its bytes is missing. */
    method MarkRetest()
      requires Resumed()
      modifies this`posField, this`pieceField, this`blockField
      ensures Resumed() && pieceField <= posField
      ensures forall i: nat :: i in posField <==>
                (i < t.npieces && !Lacking(disk.files, lens, PieceStart(t, i), PieceSize(t, i)))
      ensures forall i :: i in pieceField ==> i in old(pieceField)
      ensures Cleared(t, posField, old(blockField), blockField)
    {
      posField := Range(t.npieces);
      var off, i := 0, 0;
      StartEnds(lens);
      while i < |lens|
        invariant i <= |lens| && off == Start(lens, i) && Resumed() && pieceField <= posField
        invariant forall j :: j in pieceField ==> j in old(pieceField)
        invariant Cleared(t, posField, old(blockField), blockField)
        invariant Marked(t, lens, disk.files, posField, i)
      {
        ghost var blocks := blockField;
        ghost var pos := posField;
        MarkFile(i, off);
        ClearedTwice(t, pos, posField, old(blockField), blocks, blockField);
        StartNext(lens, i);
        off := off + lens[i];
        i := i + 1;
      }
      MarkedAll(t, lens, disk.files, posField);
    }

    method MarkFile(i: nat, off: nat)
      requires Resumed() && pieceField <= posField && i < |lens| && off == Start(lens, i)
      requires Marked(t, lens, disk.files, posField, i)
      modifies this`posField, this`pieceField, this`blockField
      ensures Resumed() && pieceField <= posField && posField <= old(posField)
      ensures forall j :: j in pieceField ==> j in old(pieceField)
      ensures Marked(t, lens, disk.files, posField, i + 1)
      ensures ClearedFrom(t, old(posField), posField, old(blockField), blockField)
    {
      if |disk.files[i]| != lens[i] {
        InContent(t, lens, i);
        ClearPieces(PieceOf(t, off + |disk.files[i]|), PieceOf(t, off + lens[i] - 1));
      }
      MarkedNext(t, lens, disk.files, old(posField), posField, i);
    }

    /** startup_test_begin and startup_test_run: the positioned pieces are tested in order. */
    method RunTests()
      requires Resumed() && Bounded(posField, t.npieces)
      requires forall i :: i in posField ==> !Lacking(disk.files, lens, PieceStart(t, i), PieceSize(t, i))
      modifies this`pieceField, rds
      ensures Resumed()
      ensures forall i: nat :: i < t.npieces ==>
                (i in pieceField <==> if i in posField then Genuine(t, lens, disk.files, sha, hashes, i)
                  else i in old(pieceField))
    {
      var start := 0;
      while start < t.npieces
        invariant start <= t.npieces && Resumed()
        invariant forall i: nat :: i < t.npieces ==>
                    (i in pieceField <==>
                     if i < start && i in posField then Genuine(t, lens, disk.files, sha, hashes, i)
                       else i in old(pieceField))
      {
        if start in posField {
          var err, ok := Test(start);
          pieceField := if ok then pieceField + {start} else pieceField - {start};
        }
        start := start + 1;
      }
    }

    /** The blocks of one piece, in startup_test_end. */
    method CountBlocks(piece: nat) returns (n: nat, bytes: nat)
      requires Resumed() && piece < t.npieces
      ensures bytes == GotBytes(t, piece, blockField[piece])
      ensures n <= PieceBlocks(t, piece)
      ensures n == PieceBlocks(t, piece) <==> AllBlocks(t, blockField, piece)
      ensures n == 0 <==> blockField[piece] == {}
    {
      n, bytes := 0, 0;
      var b := 0;
      while b < PieceBlocks(t, piece)
        invariant b <= PieceBlocks(t, piece) && n <= b && bytes == BlockBytesBelow(t, piece, blockField[piece], b)
        invariant n == b <==> forall c: nat :: c < b ==> c in blockField[piece]
        invariant n == 0 <==> forall c: nat :: c < b ==> c !in blockField[piece]
      {
        if b in blockField[piece] {
          n := n + 1;
          bytes := bytes + BlockSize(t, piece, PieceBlocks(t, piece), b);
        }
        b := b + 1;
      }
    }

    /** One piece in startup_test_end. */
    method Account(piece: nat)
      requires Resumed() && piece < t.npieces
      requires Accounted(t, pieceField, blockField, posField, npiecesGot, ncontentBytes, piece)
      modifies this`blockField, this`posField, this`npiecesGot, this`ncontentBytes
      ensures Resumed() && Forgotten(t, pieceField, old(blockField), blockField, piece)
      ensures Accounted(t, pieceField, blockField, posField, npiecesGot, ncontentBytes, piece + 1)
    {
      BelowNext(pieceField, piece);
      if piece in pieceField {
        ncontentBytes := ncontentBytes + PieceSize(t, piece);
        npiecesGot := npiecesGot + 1;
        posField := posField + {piece};
        return;
      }
      var n, bytes := CountBlocks(piece);
      ncontentBytes := ncontentBytes + bytes;
      if n == PieceBlocks(t, piece) {
        BlocksSum(t, piece, blockField[piece]);
        ForgetAt(t, pieceField, blockField, piece);
        blockField := blockField[piece := {}];
        ncontentBytes := ncontentBytes - PieceSize(t, piece);
      } else if n > 0 {
        posField := posField + {piece};
      }
    }

    method AccountNext(piece: nat, ghost before: seq<set<nat>>)
      requires Resumed() && piece < t.npieces && ForgottenBelow(t, pieceField, before, blockField, piece)
      requires Accounted(t, pieceField, blockField, posField, npiecesGot, ncontentBytes, piece)
      modifies this`blockField, this`posField, this`npiecesGot, this`ncontentBytes
      ensures Resumed() && ForgottenBelow(t, pieceField, before, blockField, piece + 1)
      ensures Accounted(t, pieceField, blockField, posField, npiecesGot, ncontentBytes, piece + 1)
    {
      ghost var blocks := blockField;
      Account(piece);
      ForgottenNext(t, pieceField, before, blocks, blockField, piece);
    }

    /** The loop of startup_test_end. */
    method AccountAll()
      requires Resumed() && npiecesGot == 0 && ncontentBytes == 0 && posField == {}
      modifies this`blockField, this`posField, this`npiecesGot, this`ncontentBytes
      ensures Resumed() && ForgottenBelow(t, pieceField, old(blockField), blockField, t.npieces)
      ensures Accounted(t, pieceField, blockField, posField, npiecesGot, ncontentBytes, t.npieces)
    {
      var piece := 0;
      while piece < t.npieces
        invariant piece <= t.npieces && Resumed()
        invariant Accounted(t, pieceField, blockField, posField, npiecesGot, ncontentBytes, piece)
        invariant ForgottenBelow(t, pieceField, old(blockField), blockField, piece)
      {
        AccountNext(piece, old(blockField));
        piece := piece + 1;
      }
    }

    /** startup_test_end: the fields and the counts are made from what was tested and resumed. */
    method TakeStock()
      requires Resumed() && npiecesGot == 0 && ncontentBytes == 0
      modifies this`blockField, this`posField, this`npiecesGot, this`ncontentBytes
      ensures Resumed() && Tallied(t, pieceField, blockField, posField, npiecesGot, ncontentBytes)
      ensures ForgottenBelow(t, pieceField, old(blockField), blockField, t.npieces)
    {
      posField := {};
      AccountAll();
      StockIsTallied(t, pieceField, blockField, posField, npiecesGot, ncontentBytes);
    }

    /** The marking and the tests of cm_start: exactly the pieces whose bytes have their hash are verified. */
    method Retest()
      requires Resumed()
      modifies this`blockField, this`posField, this`pieceField, rds
      ensures Resumed() && BlocksPresent(t, lens, disk.files, blockField)
      ensures forall i: nat :: i < t.npieces ==> (i in pieceField <==> Genuine(t, lens, disk.files, sha, hashes, i))
      ensures Left(t, old(blockField), blockField)
    {
      MarkRetest();
      MarkedPresent(t, lens, disk.files, posField, old(blockField), blockField);
      forall i: nat | i < t.npieces && Genuine(t, lens, disk.files, sha, hashes, i)
        ensures i in posField
      {
        GenuineIsThere(t, lens, disk.files, sha, hashes, i);
      }
      RunTests();
    }

    /** One of the first k files has not the time or the size that it was left with. */
    ghost predicate Changed(mtimes: seq<int>, resume: seq<Stat>, k: nat)
      reads disk
      requires |mtimes| == |resume| == |disk.files|
    {
      exists i: nat :: i < k && i < |disk.files| && Stat(mtimes[i], |disk.files[i]|) != resume[i]
    }

    /** The comparison of cm_start: a test is needed if it is forced or some file is not as it was left. */
    method NeedTest(force: bool, mtimes: seq<int>, resume: seq<Stat>) returns (runTest: bool)
      requires Wired() && |mtimes| == |resume| == |lens|
      ensures runTest <==> force || Changed(mtimes, resume, |lens|)
    {
      runTest := force;
      var i := 0;
      while i < |lens| && !runTest
        invariant i <= |lens| && (runTest <==> force || Changed(mtimes, resume, i))
        invariant runTest ==> force || Changed(mtimes, resume, |lens|)
      {
        if mtimes[i] != resume[i].mtime || |disk.files[i]| != resume[i].size {
          runTest := true;
        }
        i := i + 1;
      }
    }

    /**
     cm_start: after a test exactly the pieces whose bytes have their hash are verified, and
     blocks are kept only of pieces of which no byte is missing. Without one, when no file's size
     or time has changed, the resume data is believed: then the fields and counts fit together,
     and the files fit them exactly when what was resumed was true of them.
     */
    method CmStart(force: bool, mtimes: seq<int>, resume: seq<Stat>) returns (runTest: bool)
      requires Resumed() && posField == {} && npiecesGot == 0 && ncontentBytes == 0
      requires |mtimes| == |resume| == |lens|
      modifies this`blockField, this`posField, this`pieceField, this`npiecesGot, this`ncontentBytes, rds
      ensures Wired() && Tallied(t, pieceField, blockField, posField, npiecesGot, ncontentBytes)
      ensures Left(t, old(blockField), blockField) && NoneComplete(t, pieceField, blockField)
      ensures runTest <==> force || Changed(mtimes, resume, |lens|)
      ensures runTest ==> Valid() && forall i: nat :: i < t.npieces ==>
        (i in pieceField <==> Genuine(t, lens, disk.files, sha, hashes, i))
      ensures !runTest ==> pieceField == old(pieceField)
      ensures !runTest && BlocksPresent(t, lens, disk.files, old(blockField)) ==>
        (Valid() <==> AllGenuine(t, lens, disk.files, sha, hashes, pieceField))
    {
      runTest := NeedTest(force, mtimes, resume);
      if runTest {
        Retest();
      } else {
        RunTests();
      }
      ghost var blocks := blockField;
      TakeStock();
      StockLeaves(t, pieceField, old(blockField), blocks, blockField);
      ForgottenIsLeft(t, pieceField, blocks, blockField);
      if BlocksPresent(t, lens, disk.files, blocks) {
        LeftPresent(t, lens, disk.files, blocks, blockField);
      }
    }

    /** cm_prealloc: without preallocation a piece counts as positioned when it is started. */
    method Prealloc(piece: nat)
      requires Valid() && piece < t.npieces
      modifies this`posField
      ensures Valid() && posField == if allocSize <= 0 then old(posField) + {piece} else old(posField)
    {
      if allocSize <= 0 {
        posField := posField + {piece};
      }
    }

    /** Without preallocation the pieces that were started are positioned. */
    ghost predicate StartedOk(started: set<nat>)
      reads this
    {
      Bounded(started, t.npieces) && (allocSize <= 0 ==> started <= posField)
    }

    /**
     What is asked of the content manager, when it may be asked: blocks we lack of pieces that were
     started, and tests of pieces with all blocks.
     */
    method Do(op: Op, started: set<nat>) returns (now: set<nat>)
      requires Valid() && StartedOk(started)
      modifies this, rds, wrs, disk
      ensures Valid() && StartedOk(now) && old(pieceField) <= pieceField
      ensures PiecesKept(t, old(pieceField), lens, old(disk.files), disk.files)
      ensures now == started + (if op.StartOp? && op.piece < t.npieces then {op.piece} else {})
      ensures old(posField) <= posField && NoneLost(lens, old(disk.files), disk.files)
      ensures allocSize > 0 ==> Allocated(t, lens, disk.files, posField - old(posField))
      ensures Did(op, started, old(pieceField), old(blockField), old(posField), old(ncontentBytes), old(disk.files))
    {
      now := started;
      match op
      case StartOp(piece) =>
        if piece < t.npieces {
          Prealloc(piece);
          now := started + {piece};
        }
      case PutOp(piece, b, buf) => PutIfLacked(op, started);
      case TestOp(piece) => TestIfComplete(op, started);
    }

    method PutIfLacked(op: Op, started: set<nat>)
      requires Valid() && StartedOk(started) && op.PutOp?
      modifies this`posField, this`blockField, this`ncontentBytes, wrs, disk
      ensures Valid() && PiecesKept(t, pieceField, lens, old(disk.files), disk.files)
      ensures old(posField) <= posField && NoneLost(lens, old(disk.files), disk.files)
      ensures Allocated(t, lens, disk.files, posField - old(posField))
      ensures Did(op, started, pieceField, old(blockField), old(posField), old(ncontentBytes), old(disk.files))
    {
      if op.piece in started && Acceptable(t, pieceField, blockField, op.piece, op.block, op.buf) {
        PutStarted(op.piece, op.block, op.buf);
      }
    }

    method TestIfComplete(op: Op, started: set<nat>)
      requires Valid() && op.TestOp?
      modifies this`pieceField, this`npiecesGot, this`blockField, this`ncontentBytes, rds
      ensures Valid() && old(pieceField) <= pieceField && posField == old(posField)
      ensures Did(op, started, old(pieceField), old(blockField), posField, old(ncontentBytes), disk.files)
    {
      if AllBlocks(t, blockField, op.piece) && op.piece !in pieceField {
        var ok := TestPiece(op.piece);
      }
    }

    /** What the operation has done to each field and to the files. */
    ghost predicate Did(op: Op, started: set<nat>, v: set<nat>, blocks: seq<set<nat>>, pos: set<nat>, bytes: int,
                        files: seq<seq<Byte>>)
      requires Proper(t) && |blocks| == |hashes| == t.npieces
      reads this, disk
    {
      match op
      case StartOp(piece) =>
        && Same(v, blocks, bytes, files)
        && posField == if piece < t.npieces && allocSize <= 0 then pos + {piece} else pos
      case PutOp(piece, b, buf) =>
        if piece in started && piece < t.npieces && b < PieceBlocks(t, piece) && piece !in v && b !in blocks[piece] &&
          |buf| == BlockSize(t, piece, PieceBlocks(t, piece), b)
        then
          && pieceField == v && blockField == blocks[piece := blocks[piece] + {b}] && ncontentBytes == bytes + |buf|
          && Positioned(piece, pos)
          && Written(t, lens, files, disk.files, posField - pos, PieceStart(t, piece) + b * PIECE_BLOCKLEN, buf)
        else
          Same(v, blocks, bytes, files) && posField == pos
      case TestOp(piece) =>
        if !AllBlocks(t, blocks, piece) || piece in v then
          Same(v, blocks, bytes, files) && posField == pos
        else if Genuine(t, lens, files, sha, hashes, piece) then
          Same(v + {piece}, blocks, bytes, files) && posField == pos
        else
          Same(v, blocks[piece := {}], bytes - PieceSize(t, piece), files) && posField == pos
    }

    ghost predicate Same(v: set<nat>, blocks: seq<set<nat>>, bytes: int, files: seq<seq<Byte>>)
      reads this, disk
    {
      pieceField == v && blockField == blocks && ncontentBytes == bytes && disk.files == files
    }

    method PutStarted(piece: nat, b: nat, buf: seq<Byte>)
      requires Valid() && Acceptable(t, pieceField, blockField, piece, b, buf) && (allocSize > 0 || piece in posField)
      modifies this`posField, this`blockField, this`ncontentBytes, wrs, disk
      ensures Valid() && Positioned(piece, old(posField)) && old(posField) <= posField
      ensures blockField == old(blockField[piece := blockField[piece] + {b}])
      ensures ncontentBytes == old(ncontentBytes) + |buf|
      ensures PiecesKept(t, pieceField, lens, old(disk.files), disk.files)
      ensures Written(t, lens, old(disk.files), disk.files, posField - old(posField),
        PieceStart(t, piece) + b * PIECE_BLOCKLEN, buf)
      ensures Allocated(t, lens, disk.files, posField - old(posField)) && NoneLost(lens, old(disk.files), disk.files)
    {
      BlockNumber(b);
      PutBlock(piece, b * PIECE_BLOCKLEN, buf);
      PositionedGrows(piece, old(posField));
      PutIsThere(piece, b, buf, old(disk.files), old(posField), old(blockField));
    }

    lemma PutIsThere(piece: nat, b: nat, buf: seq<Byte>, files: seq<seq<Byte>>, pos: set<nat>, blocks: seq<set<nat>>)
      requires Valid() && |blocks| == t.npieces && Untouched(t, pieceField, blocks, lens, files, disk.files)
      requires Written(t, lens, files, disk.files, posField - pos, PieceStart(t, piece) + b * PIECE_BLOCKLEN, buf)
      ensures PiecesKept(t, pieceField, lens, files, disk.files)
      ensures Allocated(t, lens, disk.files, posField - pos) && NoneLost(lens, files, disk.files)
    {
      UntouchedPieces(t, pieceField, blocks, lens, files, disk.files);
      WrittenIsThere(t, lens, files, disk.files, posField - pos, PieceStart(t, piece) + b * PIECE_BLOCKLEN, buf);
    }

    lemma PositionedGrows(piece: nat, was: set<nat>)
      requires Proper(t) && Positioned(piece, was)
      ensures was <= posField
    {
      if piece !in was {
        var g := GroupSize(t, allocSize);
        assert posField == was + Group(t, piece, g);
      }
    }

    /**
     Over any run, and with any preallocation, what is verified stays verified and its bytes stay
     what they are. In particular a block of a started piece can always be put, and of a piece that
     is positioned by preallocation no byte is ever missing.
     */
    method Run(ops: seq<Op>)
      requires Valid()
      modifies this, rds, wrs, disk
      ensures Valid() && old(pieceField) <= pieceField && old(posField) <= posField
      ensures allocSize > 0 ==> Allocated(t, lens, disk.files, posField - old(posField))
      ensures PiecesKept(t, old(pieceField), lens, old(disk.files), disk.files)
      ensures AllGenuine(t, lens, disk.files, sha, hashes, pieceField)
    {
      var started: set<nat> := {};
      var k := 0;
      while k < |ops|
        invariant k <= |ops| && Valid() && StartedOk(started) && old(pieceField) <= pieceField
        invariant PiecesKept(t, old(pieceField), lens, old(disk.files), disk.files) && old(posField) <= posField
        invariant allocSize > 0 ==> Allocated(t, lens, disk.files, posField - old(posField))
      {
        ghost var before := disk.files;
        ghost var v, pos := pieceField, posField;
        started := Do(ops[k], started);
        PiecesKeptTwice(t, old(pieceField), v, lens, old(disk.files), before, disk.files);
        if allocSize > 0 {
          StaysAllocated(t, lens, before, disk.files, pos - old(posField));
        }
        k := k + 1;
      }
    }
  }

  /** A piece is started (dl_new_piece calls cm_prealloc), a block arrives, or a piece is tested. */
  datatype Op = StartOp(piece: nat) | PutOp(piece: nat, block: nat, buf: seq<Byte>) | TestOp(piece: nat)

  /** The bytes of these pieces are as they were. */
  ghost predicate PiecesKept(t: Layout, v: set<nat>, lens: seq<nat>, files: seq<seq<Byte>>, files': seq<seq<Byte>>) {
    Proper(t) && |files| == |files'| == |lens|
    && forall i: nat, pos: nat :: i in v && InPiece(t, i, pos) ==> Kept(Cell(files, lens, pos), Cell(files', lens, pos))
  }

  lemma UntouchedPieces(t: Layout, v: set<nat>, blocks: seq<set<nat>>, lens: seq<nat>, files: seq<seq<Byte>>,
                        files': seq<seq<Byte>>)
    requires Untouched(t, v, blocks, lens, files, files') && Proper(t) && |blocks| == t.npieces
    ensures PiecesKept(t, v, lens, files, files')
  {
    forall i: nat, pos: nat | i in v && InPiece(t, i, pos)
      ensures Kept(Cell(files, lens, pos), Cell(files', lens, pos))
    {
      assert Protected(t, v, blocks, pos);
    }
  }

  lemma PiecesKeptTwice(t: Layout, v: set<nat>, v': set<nat>, lens: seq<nat>, a: seq<seq<Byte>>, b: seq<seq<Byte>>,
                        c: seq<seq<Byte>>)
    requires PiecesKept(t, v, lens, a, b) && PiecesKept(t, v', lens, b, c) && v <= v'
    ensures PiecesKept(t, v, lens, a, c)
  {
    forall i: nat, pos: nat | i in v && InPiece(t, i, pos)
      ensures Kept(Cell(a, lens, pos), Cell(c, lens, pos))
    {
      assert Kept(Cell(a, lens, pos), Cell(b, lens, pos)) && Kept(Cell(b, lens, pos), Cell(c, lens, pos));
    }
  }

  lemma BlockNumber(b: nat)
    ensures b * PIECE_BLOCKLEN / PIECE_BLOCKLEN == b
  {
  }

  lemma GenuineIsThere(t: Layout, lens: seq<nat>, files: seq<seq<Byte>>, sha: seq<Byte> -> Hash, hashes: seq<Hash>,
                       i: nat)
    requires Proper(t) && i < t.npieces == |hashes| && Genuine(t, lens, files, sha, hashes, i)
    ensures !Lacking(files, lens, PieceStart(t, i), PieceSize(t, i))
  {
    var bytes :| |bytes| == PieceSize(t, i) && Holds(files, lens, PieceStart(t, i), bytes) && sha(bytes) == hashes[i];
    HoldsOne(files, lens, PieceStart(t, i), bytes, bytes);
  }

  // ---------- Taking stock ----------

  /** The pieces below k that are verified. */
  function Below(v: set<nat>, k: nat): set<nat> {
    set i | i in v && i < k
  }

  /** The pieces below k have been taken stock of. */
  ghost predicate Accounted(t: Layout, v: set<nat>, blocks: seq<set<nat>>, pos: set<nat>, npiecesGot: nat,
                            ncontentBytes: int, k: nat)
  {
    && Proper(t) && |blocks| == t.npieces && k <= t.npieces
    && npiecesGot == |Below(v, k)| && ncontentBytes == SharesBelow(t, v, blocks, k)
    && forall i: nat :: i in pos <==> i < k && (i in v || blocks[i] != {})
  }

  /** The blocks of a complete piece that is not verified are forgotten. */
  ghost predicate Forgotten(t: Layout, v: set<nat>, blocks: seq<set<nat>>, blocks': seq<set<nat>>, i: nat) {
    Proper(t) && i < t.npieces == |blocks|
    && blocks' == if i !in v && AllBlocks(t, blocks, i) then blocks[i := {}] else blocks
  }

  ghost predicate ForgottenBelow(t: Layout, v: set<nat>, before: seq<set<nat>>, now: seq<set<nat>>, k: nat) {
    Proper(t) && |before| == |now| == t.npieces
    && forall i: nat :: i < t.npieces ==>
         now[i] == if i < k && i !in v && AllBlocks(t, before, i) then {} else before[i]
  }

  /** A piece's blocks are as they were or forgotten. */
  ghost predicate Left(t: Layout, before: seq<set<nat>>, now: seq<set<nat>>) {
    |before| == |now| == t.npieces && forall i: nat :: i < t.npieces ==> now[i] == {} || now[i] == before[i]
  }

  /** No piece that is not verified has all its blocks. */
  ghost predicate NoneComplete(t: Layout, v: set<nat>, blocks: seq<set<nat>>) {
    forall i: nat :: i < t.npieces && i !in v ==> !AllBlocks(t, blocks, i)
  }

  lemma NotAllOfNone(t: Layout, mid: seq<set<nat>>, now: seq<set<nat>>, i: nat)
    requires Proper(t) && i < t.npieces == |mid| == |now|
    ensures AllBlocks(t, now, i) ==> now[i] != {}
    ensures AllBlocks(t, now, i) && now[i] == mid[i] ==> AllBlocks(t, mid, i)
  {
    assert AllBlocks(t, now, i) ==> 0 in now[i];
  }

  lemma StockLeaves(t: Layout, v: set<nat>, before: seq<set<nat>>, mid: seq<set<nat>>, now: seq<set<nat>>)
    requires Left(t, before, mid) && ForgottenBelow(t, v, mid, now, t.npieces)
    ensures Left(t, before, now) && NoneComplete(t, v, now)
  {
    forall i: nat | i < t.npieces && i !in v
      ensures !AllBlocks(t, now, i)
    {
      assert now[i] == if AllBlocks(t, mid, i) then {} else mid[i];
      NotAllOfNone(t, mid, now, i);
    }
  }

  lemma ForgottenNext(t: Layout, v: set<nat>, before: seq<set<nat>>, blocks: seq<set<nat>>, now: seq<set<nat>>, k: nat)
    requires ForgottenBelow(t, v, before, blocks, k) && Forgotten(t, v, blocks, now, k)
    ensures ForgottenBelow(t, v, before, now, k + 1)
  {
    assert blocks[k] == before[k];
  }

  lemma StockIsTallied(t: Layout, v: set<nat>, blocks: seq<set<nat>>, pos: set<nat>, npiecesGot: nat,
                       ncontentBytes: int)
    requires Accounted(t, v, blocks, pos, npiecesGot, ncontentBytes, t.npieces)
    requires Bounded(v, t.npieces) && BlocksBounded(t, blocks)
    ensures Tallied(t, v, blocks, pos, npiecesGot, ncontentBytes)
  {
    assert Below(v, t.npieces) == v;
  }

  lemma ForgottenIsLeft(t: Layout, v: set<nat>, before: seq<set<nat>>, now: seq<set<nat>>)
    requires ForgottenBelow(t, v, before, now, t.npieces)
    ensures Left(t, before, now)
  {
  }

  lemma LeftPresent(t: Layout, lens: seq<nat>, files: seq<seq<Byte>>, before: seq<set<nat>>, now: seq<set<nat>>)
    requires BlocksPresent(t, lens, files, before) && Left(t, before, now)
    ensures BlocksPresent(t, lens, files, now)
  {
    forall pos: nat | Protected(t, {}, now, pos)
      ensures Cell(files, lens, pos).Some?
    {
      var j: nat :| InPiece(t, j, pos) && (pos - PieceStart(t, j)) / PIECE_BLOCKLEN in now[j];
      assert now[j] == before[j];
      assert Protected(t, {}, before, pos);
    }
  }

  /** Of the pieces that are to be tested all bytes are there, and of no other are blocks kept. */
  lemma MarkedPresent(t: Layout, lens: seq<nat>, files: seq<seq<Byte>>, pos: set<nat>, before: seq<set<nat>>,
                      blocks: seq<set<nat>>)
    requires Proper(t) && |files| == |lens| && Cleared(t, pos, before, blocks)
    requires forall i: nat :: i in pos <==> i < t.npieces && !Lacking(files, lens, PieceStart(t, i), PieceSize(t, i))
    ensures BlocksPresent(t, lens, files, blocks)
  {
    forall p: nat | Protected(t, {}, blocks, p)
      ensures Cell(files, lens, p).Some?
    {
      var i: nat :| InPiece(t, i, p) && (p - PieceStart(t, i)) / PIECE_BLOCKLEN in blocks[i];
      assert i in pos;
    }
  }

  lemma ForgetAt(t: Layout, v: set<nat>, blocks: seq<set<nat>>, i: nat)
    requires Proper(t) && i < t.npieces == |blocks| && i !in v
    ensures SharesBelow(t, v, blocks[i := {}], i + 1) == SharesBelow(t, v, blocks, i)
  {
    OneShare(t, v, blocks, v, blocks[i := {}], i, i);
    NoBlockBytes(t, i, PieceBlocks(t, i));
  }

  lemma BelowNext(v: set<nat>, k: nat)
    ensures |Below(v, k + 1)| == |Below(v, k)| + if k in v then 1 else 0
  {
    if k in v {
      assert Below(v, k + 1) == Below(v, k) + {k};
    } else {
      assert Below(v, k + 1) == Below(v, k);
    }
  }

  // ---------- Retesting ----------

  ghost predicate BlocksBounded(t: Layout, blocks: seq<set<nat>>) {
    Proper(t) && |blocks| == t.npieces && forall i: nat :: i < t.npieces ==> Bounded(blocks[i], PieceBlocks(t, i))
  }

  /** The same from one state of the marking to the next. */
  ghost predicate ClearedFrom(t: Layout, pos: set<nat>, pos': set<nat>, blocks: seq<set<nat>>, blocks': seq<set<nat>>) {
    |blocks| == |blocks'| == t.npieces && pos' <= pos
    && forall i: nat :: i < t.npieces ==>
         if i in pos' then blocks'[i] == blocks[i]
         else blocks'[i] == {} || (i !in pos && blocks'[i] == blocks[i])
  }

  lemma ClearedTwice(t: Layout, pos: set<nat>, pos': set<nat>, before: seq<set<nat>>, blocks: seq<set<nat>>,
                     blocks': seq<set<nat>>)
    requires Cleared(t, pos, before, blocks) && ClearedFrom(t, pos, pos', blocks, blocks')
    ensures Cleared(t, pos', before, blocks')
  {
  }

  /** Some byte of the piece before end is not in its file. */
  ghost predicate LacksBelow(t: Layout, lens: seq<nat>, files: seq<seq<Byte>>, p: nat, end: nat)
    requires Proper(t) && |files| == |lens|
  {
    exists q: nat :: InPiece(t, p, q) && q < end && Cell(files, lens, q) == None
  }

  /** The first i files have been looked at. */
  ghost predicate Marked(t: Layout, lens: seq<nat>, files: seq<seq<Byte>>, pos: set<nat>, i: nat)
    requires Proper(t) && |files| == |lens| && i <= |lens|
  {
    forall p: nat :: p in pos <==> p < t.npieces && !LacksBelow(t, lens, files, p, Start(lens, i))
  }

  /** The pieces of a file's bytes exist. */
  lemma InContent(t: Layout, lens: seq<nat>, i: nat)
    requires Proper(t) && Total(lens) == t.totalLength && i < |lens| && lens[i] > 0
    ensures Start(lens, i) + lens[i] <= t.totalLength
    ensures forall pos: nat :: pos < Start(lens, i) + lens[i] ==>
      PieceOf(t, pos) <= PieceOf(t, Start(lens, i) + lens[i] - 1) < t.npieces
  {
    StartNext(lens, i);
    StartGrows(lens, i + 1, |lens|);
    StartEnds(lens);
    var last := Start(lens, i) + lens[i] - 1;
    PiecesTile(t, last);
    assert InPiece(t, PieceOf(t, last), last);
    forall pos: nat | pos <= last
      ensures PieceOf(t, pos) <= PieceOf(t, last)
    {
      DividedBetween(pos, last, t.pieceLength);
    }
  }

  /** Of the bytes of file i, those behind its end are missing. */
  lemma FileLacks(t: Layout, lens: seq<nat>, files: seq<seq<Byte>>, i: nat, p: nat)
    requires Proper(t) && Total(lens) == t.totalLength && InBounds(files, lens) && i < |lens| && |files[i]| < lens[i]
    ensures LacksBelow(t, lens, files, p, Start(lens, i + 1)) <==>
            LacksBelow(t, lens, files, p, Start(lens, i)) ||
              Meets(t, p, Start(lens, i) + |files[i]|, Start(lens, i) + lens[i] - 1)
  {
    StartNext(lens, i);
    var at := Start(lens, i);
    forall q: nat | at <= q < at + lens[i]
      ensures Cell(files, lens, q) == None <==> at + |files[i]| <= q
    {
      CellAt(files, lens, i, q - at);
    }
    if LacksBelow(t, lens, files, p, at) {
      var q: nat :| InPiece(t, p, q) && q < at && Cell(files, lens, q) == None;
      assert q < Start(lens, i + 1);
    }
    if Meets(t, p, at + |files[i]|, at + lens[i] - 1) {
      var q: nat :| at + |files[i]| <= q <= at + lens[i] - 1 && InPiece(t, p, q);
      assert Cell(files, lens, q) == None;
    }
  }

  lemma WholeFileLacksNothing(t: Layout, lens: seq<nat>, files: seq<seq<Byte>>, i: nat, p: nat)
    requires Proper(t) && InBounds(files, lens) && i < |lens| && |files[i]| == lens[i]
    ensures LacksBelow(t, lens, files, p, Start(lens, i + 1)) <==> LacksBelow(t, lens, files, p, Start(lens, i))
  {
    StartNext(lens, i);
    var at := Start(lens, i);
    forall q: nat | at <= q < at + lens[i]
      ensures Cell(files, lens, q).Some?
    {
      CellAt(files, lens, i, q - at);
    }
  }

  lemma MarkedNext(t: Layout, lens: seq<nat>, files: seq<seq<Byte>>, pos: set<nat>, pos': set<nat>, i: nat)
    requires Proper(t) && Total(lens) == t.totalLength && InBounds(files, lens) && i < |lens| &&
      Marked(t, lens, files, pos, i)
    requires |files[i]| == lens[i] ==> pos' == pos
    requires |files[i]| < lens[i] ==>
      var start, end := PieceOf(t, Start(lens, i) + |files[i]|), PieceOf(t, Start(lens, i) + lens[i] - 1);
      forall p: nat :: p in pos' <==> p in pos && !(start <= p <= end)
    ensures Marked(t, lens, files, pos', i + 1)
  {
    forall p: nat
      ensures p in pos' <==> p < t.npieces && !LacksBelow(t, lens, files, p, Start(lens, i + 1))
    {
      if |files[i]| == lens[i] {
        WholeFileLacksNothing(t, lens, files, i, p);
      } else {
        FileLacks(t, lens, files, i, p);
        InContent(t, lens, i);
        PiecesOfRange(t, Start(lens, i) + |files[i]|, Start(lens, i) + lens[i] - 1, p);
      }
    }
  }

  lemma MarkedAll(t: Layout, lens: seq<nat>, files: seq<seq<Byte>>, pos: set<nat>)
    requires Proper(t) && Total(lens) == t.totalLength && |files| == |lens| && Marked(t, lens, files, pos, |lens|)
    ensures forall p: nat :: p in pos <==> p < t.npieces && !Lacking(files, lens, PieceStart(t, p), PieceSize(t, p))
  {
    StartEnds(lens);
    forall p: nat | p < t.npieces
      ensures LacksBelow(t, lens, files, p, t.totalLength) <==> Lacking(files, lens, PieceStart(t, p), PieceSize(t, p))
    {
      PieceInside(t, p);
      if Lacking(files, lens, PieceStart(t, p), PieceSize(t, p)) {
        var q: nat :| PieceStart(t, p) <= q < PieceStart(t, p) + PieceSize(t, p) && Cell(files, lens, q) == None;
        assert InPiece(t, p, q);
      }
    }
  }

  /** Blocks are forgotten of the pieces outside pos, and of no other. */
  ghost predicate Cleared(t: Layout, pos: set<nat>, before: seq<set<nat>>, now: seq<set<nat>>) {
    |before| == |now| == t.npieces && forall i: nat :: i < t.npieces ==> now[i] == if i in pos then before[i] else {}
  }

  lemma HoldsMore(files: seq<seq<Byte>>, lens: seq<nat>, off: nat, a: seq<Byte>, b: seq<Byte>)
    requires Holds(files, lens, off, a) && Holds(files, lens, off + |a|, b)
    ensures Holds(files, lens, off, a + b)
  {
    forall k: nat | k < |a + b|
      ensures Cell(files, lens, off + k) == Some((a + b)[k])
    {
      if k >= |a| {
        assert Cell(files, lens, off + |a| + (k - |a|)) == Some(b[k - |a|]);
      }
    }
  }
}
