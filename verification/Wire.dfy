/**
 The peer wire protocol of BEP 3 as btpd encodes it: big-endian numbers (misc/subr.c), network
 buffers and the readers of their fields (btpd/net_buf.c).
 */
module Wire {
  import opened Lists

  type Byte = b: int | 0 <= b < 256
  type Word = n: int | 0 <= n < 0x1_0000_0000

  const PIECE_BLOCKLEN: nat := 16384

  // ---------- Big-endian numbers ----------

  function Be32(n: Word): (s: seq<Byte>)
    ensures |s| == 4
  {
    [n / 0x100_0000, n / 0x1_0000 % 0x100, n / 0x100 % 0x100, n % 0x100]
  }

  function Dec32(s: seq<Byte>): (n: Word)
    requires |s| >= 4
  {
    s[0] as int * 0x100_0000 + s[1] as int * 0x1_0000 + s[2] as int * 0x100 + s[3] as int
  }

  lemma DecodesNumber(n: Word)
    ensures Dec32(Be32(n)) == n
  {
    var a, b, c := n / 0x100_0000, n / 0x1_0000, n / 0x100;
    assert n == c * 0x100 + n % 0x100;
    assert c == b * 0x100 + c % 0x100;
    assert b == a * 0x100 + b % 0x100;
  }

  /** A number is read back wherever it was written. */
  lemma ReadsNumber(before: seq<Byte>, n: Word, after: seq<Byte>)
    ensures Dec32((before + Be32(n) + after)[|before|..]) == n
  {
    DecodesNumber(n);
  }

  /** enc_be32 at an offset of a buffer. */
  method EncBe32(buf: array<Byte>, at: nat, n: Word)
    requires at + 4 <= buf.Length
    modifies buf
    ensures buf[..] == old(buf[..at]) + Be32(n) + old(buf[at + 4..])
  {
    buf[at] := n / 0x100_0000 % 0x100;
    buf[at + 1] := n / 0x1_0000 % 0x100;
    buf[at + 2] := n / 0x100 % 0x100;
    buf[at + 3] := n % 0x100;
  }

  // ---------- Messages ----------

  datatype Msg =
    | Shake(hash: seq<Byte>, id: seq<Byte>)
    | KeepAlive
    | Choke
    | Unchoke
    | Interest
    | Uninterest
    | Have(index: Word)
    | Bitfield(field: seq<Byte>)
    | Request(index: Word, begin: Word, length: Word)
    | Piece(index: Word, begin: Word, data: seq<Byte>)
    | Cancel(index: Word, begin: Word, length: Word)
    | NoPiece(index: Word, begin: Word)

  /** The number of bytes of a bit field: npieces / 8, rounded up. */
  function FieldLen(npieces: nat): nat {
    (npieces + 7) / 8
  }

  /** has_bit */
  predicate HasBit(field: seq<Byte>, i: nat)
    requires i / 8 < |field|
  {
    var weight := [128, 64, 32, 16, 8, 4, 2, 1][i % 8];
    field[i / 8] / weight % 2 == 1
  }

  /** The messages btpd sends to a peer of a torrent of npieces pieces after the hand shake. */
  predicate Fits(m: Msg, npieces: nat) {
    match m
    case Bitfield(field) => |field| == FieldLen(npieces) && 0 < |field| < 0xffff_ffff
    case Piece(_, _, data) => |data| <= PIECE_BLOCKLEN
    case Shake(_, _) => false
    case NoPiece(_, _) => false
    case _ => true
  }

  function Number(m: Msg): (b: Byte) {
    match m
    case Choke => 0
    case Unchoke => 1
    case Interest => 2
    case Uninterest => 3
    case Have(_) => 4
    case Bitfield(_) => 5
    case Request(_, _, _) => 6
    case Piece(_, _, _) => 7
    case Cancel(_, _, _) => 8
    case _ => 0
  }

  function Payload(m: Msg): seq<Byte> {
    match m
    case Have(index) => Be32(index)
    case Bitfield(field) => field
    case Request(index, begin, length) => Be32(index) + Be32(begin) + Be32(length)
    case Piece(index, begin, data) => Be32(index) + Be32(begin) + data
    case Cancel(index, begin, length) => Be32(index) + Be32(begin) + Be32(length)
    case _ => []
  }

  const PROTOCOL: seq<Byte> :=
    [19, 66, 105, 116, 84, 111, 114, 114, 101, 110, 116, 32, 112, 114, 111, 116, 111, 99, 111, 108]

  /** The bytes of a message on the wire. */
  function Encode(m: Msg): seq<Byte> {
    match m
    case Shake(hash, id) => PROTOCOL + [0, 0, 0, 0, 0, 0, 0, 0] + hash + id
    case KeepAlive => Be32(0)
    case _ => if |Payload(m)| < 0xffff_ffff then Be32(1 + |Payload(m)|) + [Number(m)] + Payload(m) else []
  }

  function EncodeAll(ms: seq<Msg>): seq<Byte> {
    Joined(Encode, ms)
  }
}
