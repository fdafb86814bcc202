/** The files of a torrent as one stream of bytes, with a cursor (misc/stream.c). */
module Streams {
  import opened Lists
  import opened Wire

  // ---------- The flat view ----------

  function Total(lens: seq<nat>): nat {
    if lens == [] then 0 else lens[0] + Total(lens[1..])
  }

  /** Where file i begins. */
  function Start(lens: seq<nat>, i: nat): nat
    requires i <= |lens|
  {
    Total(lens[..i])
  }

  lemma {:induction false} StartNext(lens: seq<nat>, i: nat)
    requires i < |lens|
    ensures Start(lens, i + 1) == Start(lens, i) + lens[i]
  {
    if i == 0 {
      assert lens[..1][1..] == [];
    } else {
      StartNext(lens[1..], i - 1);
      assert lens[..i + 1][1..] == lens[1..][..i] && lens[..i][1..] == lens[1..][..i - 1];
    }
  }

  lemma StartEnds(lens: seq<nat>)
    ensures Start(lens, 0) == 0 && Start(lens, |lens|) == Total(lens)
  {
    assert lens[..|lens|] == lens;
  }

  lemma {:induction false} StartGrows(lens: seq<nat>, i: nat, j: nat)
    requires i <= j <= |lens|
    ensures Start(lens, i) <= Start(lens, j)
  {
    if i < j {
      StartGrows(lens, i, j - 1);
      StartNext(lens, j - 1);
    }
  }

  /** The byte at a place of the stream; a file may still be shorter than it is going to be. */
  function Cell(files: seq<seq<Byte>>, lens: seq<nat>, pos: nat): Option<Byte>
    requires |files| == |lens|
  {
    if lens == [] then None
    else if pos < lens[0] then (if pos < |files[0]| then Some(files[0][pos]) else None)
    else Cell(files[1..], lens[1..], pos - lens[0])
  }

  ghost predicate InBounds(files: seq<seq<Byte>>, lens: seq<nat>) {
    |files| == |lens| && forall i :: 0 <= i < |lens| ==> |files[i]| <= lens[i]
  }

  /** A byte that was there stays; a hole that comes to lie inside a file reads as zero. */
  predicate Kept(before: Option<Byte>, after: Option<Byte>) {
    after == before || (before == None && after == Some(0))
  }

  // ---------- Files ----------

  function Zeros(n: nat): (s: seq<Byte>)
    ensures |s| == n && forall i :: 0 <= i < n ==> s[i] == 0
  {
    seq(n, i => 0)
  }

  /** write at offset o */
  function Overwritten(d: seq<Byte>, o: nat, bytes: seq<Byte>): seq<Byte> {
    var base := if |d| < o then d + Zeros(o - |d|) else d;
    base[..o] + bytes + (if o + |bytes| < |base| then base[o + |bytes|..] else [])
  }

  /** What read at offset o finds. */
  function Available(d: seq<Byte>, o: nat, want: nat): seq<Byte> {
    if |d| <= o then [] else if o + want < |d| then d[o..o + want] else d[o..]
  }

  lemma {:induction false} CellAt(files: seq<seq<Byte>>, lens: seq<nat>, i: nat, o: nat)
    requires |files| == |lens| && i < |lens| && o < lens[i]
    ensures Cell(files, lens, Start(lens, i) + o) == if o < |files[i]| then Some(files[i][o]) else None
  {
    if i == 0 {
      StartEnds(lens);
    } else {
      CellAt(files[1..], lens[1..], i - 1, o);
      assert lens[..i][1..] == lens[1..][..i - 1];
    }
  }

  /** What writing to one file does to the stream. */
  lemma {:induction false} WriteCell(files: seq<seq<Byte>>, lens: seq<nat>, i: nat, o: nat, bytes: seq<Byte>, pos: nat)
    requires InBounds(files, lens) && i < |lens| && o + |bytes| <= lens[i]
    ensures var files' := files[i := Overwritten(files[i], o, bytes)];
      var at := Start(lens, i) + o;
      && InBounds(files', lens)
      && if at <= pos < at + |bytes| then Cell(files', lens, pos) == Some(bytes[pos - at])
         else Kept(Cell(files, lens, pos), Cell(files', lens, pos))
    decreases i
  {
    var files' := files[i := Overwritten(files[i], o, bytes)];
    if i > 0 {
      assert lens[..i][1..] == lens[1..][..i - 1];
      assert files'[1..] == files[1..][i - 1 := Overwritten(files[i], o, bytes)];
      if pos >= lens[0] {
        WriteCell(files[1..], lens[1..], i - 1, o, bytes, pos - lens[0]);
      }
    } else {
      StartEnds(lens);
      assert files'[1..] == files[1..];
    }
  }

  // ---------- What a run of writes comes to ----------

  /** now is before with bytes put at off: the latest bytes are there, and the others are kept. */
  ghost predicate Put(before: seq<seq<Byte>>, now: seq<seq<Byte>>, lens: seq<nat>, off: nat, bytes: seq<Byte>) {
    && |before| == |lens| && InBounds(now, lens)
    && forall pos: nat ::
         if off <= pos < off + |bytes| then Cell(now, lens, pos) == Some(bytes[pos - off])
         else Kept(Cell(before, lens, pos), Cell(now, lens, pos))
  }

  lemma PutNothing(files: seq<seq<Byte>>, lens: seq<nat>, off: nat)
    requires InBounds(files, lens)
    ensures Put(files, files, lens, off, [])
  {
  }

  lemma PutMore(before: seq<seq<Byte>>, files: seq<seq<Byte>>, lens: seq<nat>, off: nat, buf: seq<Byte>, k: nat,
                d: nat, i: nat, o: nat)
    requires k + d <= |buf| && Put(before, files, lens, off, buf[..k]) && i < |lens| && o + d <= lens[i]
    requires Start(lens, i) + o == off + k
    ensures Put(before, files[i := Overwritten(files[i], o, buf[k..k + d])], lens, off, buf[..k + d])
  {
    var now := files[i := Overwritten(files[i], o, buf[k..k + d])];
    WriteCell(files, lens, i, o, buf[k..k + d], 0);
    forall pos: nat
      ensures if off <= pos < off + (k + d) then Cell(now, lens, pos) == Some(buf[..k + d][pos - off])
              else Kept(Cell(before, lens, pos), Cell(now, lens, pos))
    {
      WriteCell(files, lens, i, o, buf[k..k + d], pos);
      if off <= pos < off + k {
        assert Cell(files, lens, pos) == Some(buf[..k][pos - off]);
      } else {
        assert Kept(Cell(before, lens, pos), Cell(files, lens, pos));
      }
    }
  }

  /** The stream holds these bytes at off. */
  ghost predicate Holds(files: seq<seq<Byte>>, lens: seq<nat>, off: nat, bytes: seq<Byte>) {
    |files| == |lens| && forall k: nat :: k < |bytes| ==> Cell(files, lens, off + k) == Some(bytes[k])
  }

  /** Some byte of those at off is not in its file. */
  ghost predicate Lacking(files: seq<seq<Byte>>, lens: seq<nat>, off: nat, len: nat) {
    |files| == |lens| && exists pos: nat :: off <= pos < off + len && Cell(files, lens, pos) == None
  }

  /** A later get finds what was put, and a put elsewhere leaves it. */
  lemma PutThenGet(before: seq<seq<Byte>>, now: seq<seq<Byte>>, lens: seq<nat>, off: nat, bytes: seq<Byte>, at: nat,
                   found: seq<Byte>)
    requires Put(before, now, lens, off, bytes)
    ensures Holds(now, lens, off, bytes)
    ensures Holds(before, lens, at, found) && (at + |found| <= off || off + |bytes| <= at) ==>
      Holds(now, lens, at, found)
  {
    if Holds(before, lens, at, found) && (at + |found| <= off || off + |bytes| <= at) {
      forall k: nat | k < |found|
        ensures Cell(now, lens, at + k) == Some(found[k])
      {
        assert Kept(Cell(before, lens, at + k), Cell(now, lens, at + k));
      }
    }
  }

  /** There is one answer to a get. */
  lemma HoldsOne(files: seq<seq<Byte>>, lens: seq<nat>, off: nat, a: seq<Byte>, b: seq<Byte>)
    requires Holds(files, lens, off, a)
    ensures !Lacking(files, lens, off, |a|)
    ensures Holds(files, lens, off, b) && |a| == |b| ==> a == b
  {
    forall pos: nat | off <= pos < off + |a|
      ensures Cell(files, lens, pos) == Some(a[pos - off])
    {
      assert Cell(files, lens, off + (pos - off)) == Some(a[pos - off]);
    }
    forall k: nat | k < |a| && Holds(files, lens, off, b) && |a| == |b|
      ensures a[k] == b[k]
    {
      assert Cell(files, lens, off + k) == Some(a[k]);
    }
  }

  // ---------- Streams ----------

  /** The files on the disk, shared by a stream that reads and one that writes. */
  class Disk {
    var files: seq<seq<Byte>>

    constructor (files: seq<seq<Byte>>)
      ensures this.files == files
    {
      this.files := files;
    }
  }

  /** An open file and the place where it is read or written next. */
  datatype Fd = Closed | Open(file: nat, pos: nat)

  /** The cursor stands at fOff in file index, which is tOff in the stream. */
  ghost predicate Cursor(lens: seq<nat>, index: nat, tOff: nat, fOff: nat, fd: Fd) {
    && index <= |lens| && tOff == Start(lens, index) + fOff
    && (fOff == 0 || (index < |lens| && fOff < lens[index]))
    && (fd.Open? ==> index < |lens| && fOff < lens[index] && fd == Open(index, fOff))
  }

  /** Before the end of the stream there is a file to go on with. */
  lemma CursorInside(lens: seq<nat>, index: nat, tOff: nat, fOff: nat, fd: Fd)
    requires Cursor(lens, index, tOff, fOff, fd) && tOff < Total(lens)
    ensures index < |lens|
    ensures lens[index] == 0 ==> Cursor(lens, index + 1, tOff, fOff, fd)
  {
    StartEnds(lens);
    if index < |lens| {
      StartNext(lens, index);
    }
  }

  /** d bytes on, and to the next file at the end of one. */
  lemma CursorMoves(lens: seq<nat>, index: nat, tOff: nat, fOff: nat, d: nat)
    requires Cursor(lens, index, tOff, fOff, Open(index, fOff)) && fOff + d <= lens[index]
    ensures fOff + d < lens[index] ==> Cursor(lens, index, tOff + d, fOff + d, Open(index, fOff + d))
    ensures fOff + d == lens[index] ==> Cursor(lens, index + 1, tOff + d, 0, Closed)
  {
    StartNext(lens, index);
  }

  class Stream {
    const lens: seq<nat>
    const disk: Disk
    var index: nat
    var tOff: nat
    var fOff: nat
    var fd: Fd

    ghost predicate Valid()
      reads this, disk
    {
      InBounds(disk.files, lens) && Cursor(lens, index, tOff, fOff, fd)
    }

    /** bts_open */
    constructor (lens: seq<nat>, disk: Disk)
      requires InBounds(disk.files, lens)
      ensures Valid() && this.lens == lens && this.disk == disk
    {
      this.lens, this.disk := lens, disk;
      index, tOff, fOff, fd := 0, 0, 0, Closed;
      StartEnds(lens);
    }

    /** bts_seek: nothing to do when the cursor is there already. */
    method Seek(off: nat)
      requires Valid() && off < Total(lens)
      modifies this
      ensures Valid() && tOff == off
    {
      if tOff == off {
        return;
      }
      tOff := off;
      var i: nat, rest: nat := 0, off;
      StartEnds(lens);
      while rest >= lens[i]
        invariant i < |lens| && off == Start(lens, i) + rest
        modifies {}
        decreases |lens| - i
      {
        StartNext(lens, i);
        StartGrows(lens, i + 1, |lens|);
        StartEnds(lens);
        rest := rest - lens[i];
        i := i + 1;
      }
      if i != index {
        fd := Closed;
      } else if fd != Closed {
        fd := fd.(pos := rest);
      }
      index := i;
      fOff := rest;
    }

    /** A file is open, and there is more of it. */
    method Reopen()
      requires Valid() && tOff < Total(lens)
      modifies this`index, this`fd
      ensures Valid() && fd.Open?
    {
      CursorInside(lens, index, tOff, fOff, fd);
      if fd == Closed {
        while lens[index] == 0
          invariant index < |lens| && Cursor(lens, index, tOff, fOff, fd)
          decreases |lens| - index
        {
          CursorInside(lens, index, tOff, fOff, fd);
          index := index + 1;
          CursorInside(lens, index, tOff, fOff, fd);
        }
        fd := Open(index, 0);
        if fOff != 0 {
          fd := fd.(pos := fOff);
        }
      }
    }

    /** did bytes further, and on to the next file at the end of this one. */
    method Advance(did: nat)
      requires InBounds(disk.files, lens) && Cursor(lens, index, tOff, fOff, Open(index, fOff)) &&
        fOff + did <= lens[index]
      requires fd == Open(index, fOff + did)
      modifies this
      ensures Valid() && tOff == old(tOff) + did
    {
      CursorMoves(lens, index, tOff, fOff, did);
      fOff := fOff + did;
      tOff := tOff + did;
      if fOff == lens[index] {
        fd := Closed;
        fOff := 0;
        index := index + 1;
      }
    }

    /** bts_put; write may take any part of what it is given, but not nothing. */
    method PutBytes(off: nat, buf: seq<Byte>)
      requires Valid() && off < Total(lens) && off + |buf| <= Total(lens)
      modifies this, disk
      ensures Valid() && Put(old(disk.files), disk.files, lens, off, buf)
    {
      Seek(off);
      var boff := 0;
      PutNothing(disk.files, lens, off);
      assert buf[..0] == [];
      while boff < |buf|
        invariant Valid() && boff <= |buf| && tOff == off + boff
        invariant Put(old(disk.files), disk.files, lens, off, buf[..boff])
      {
        Reopen();
        var room := lens[index] - fOff;
        var want := if |buf| - boff < room then |buf| - boff else room;
        var did: nat :| 1 <= did <= want;
        PutMore(old(disk.files), disk.files, lens, off, buf, boff, did, index, fOff);
        WriteCell(disk.files, lens, index, fOff, buf[boff..boff + did], 0);
        disk.files := disk.files[fd.file := Overwritten(disk.files[fd.file], fd.pos, buf[boff..boff + did])];
        fd := fd.(pos := fd.pos + did);
        Advance(did);
        boff := boff + did;
      }
      assert buf[..boff] == buf;
    }

    /** bts_get: it fails exactly when some of the bytes are not there yet. */
    method GetBytes(off: nat, len: nat) returns (ok: bool, buf: seq<Byte>)
      requires Valid() && off < Total(lens) && off + len <= Total(lens)
      modifies this
      ensures Valid()
      ensures ok ==> |buf| == len && Holds(disk.files, lens, off, buf)
      ensures !ok ==> Lacking(disk.files, lens, off, len)
    {
      Seek(off);
      buf, ok := [], true;
      while |buf| < len
        invariant Valid() && |buf| <= len && tOff == off + |buf| && ok
        invariant Holds(disk.files, lens, off, buf)
      {
        Reopen();
        var room := lens[index] - fOff;
        var want := if len - |buf| < room then len - |buf| else room;
        var got := Available(disk.files[fd.file], fd.pos, want);
        ReadMore(disk.files, lens, off, buf, index, fOff, want);
        fd := fd.(pos := fd.pos + |got|);
        Advance(|got|);
        buf := buf + got;
        if |got| != want {
          assert |buf| - |got| + want <= len;
          ok := false;
          return;
        }
      }
    }
  }

  lemma ReadMore(files: seq<seq<Byte>>, lens: seq<nat>, off: nat, buf: seq<Byte>, i: nat, o: nat, want: nat)
    requires InBounds(files, lens) && Holds(files, lens, off, buf) && i < |lens| && o + want <= lens[i]
    requires Start(lens, i) + o == off + |buf|
    ensures var got := Available(files[i], o, want);
      && |got| <= want && Holds(files, lens, off, buf + got)
      && (|got| < want ==> Lacking(files, lens, off, |buf| + want))
  {
    var got := Available(files[i], o, want);
    forall k: nat | k < |buf + got|
      ensures Cell(files, lens, off + k) == Some((buf + got)[k])
    {
      if k >= |buf| {
        CellAt(files, lens, i, o + (k - |buf|));
      }
    }
    if |got| < want {
      CellAt(files, lens, i, o + |got|);
      assert Cell(files, lens, off + (|buf| + |got|)) == None;
    }
  }

  // ---------- Runs ----------

  datatype IoOp = PutIo(off: nat, bytes: seq<Byte>) | GetIo(off: nat, len: nat)

  predicate InStream(op: IoOp, total: nat) {
    op.off < total && op.off + (if op.PutIo? then |op.bytes| else op.len) <= total
  }

  /** The byte that was put last at a place. */
  function Latest(ops: seq<IoOp>, pos: nat): Option<Byte> {
    if ops == [] then None
    else
      var op := ops[|ops| - 1];
      if op.PutIo? && op.off <= pos < op.off + |op.bytes| then Some(op.bytes[pos - op.off])
      else Latest(ops[..|ops| - 1], pos)
  }

  /** What is at a place after these operations: the byte put last, or what was there at the start. */
  ghost predicate Reads(start: seq<seq<Byte>>, lens: seq<nat>, ops: seq<IoOp>, pos: nat, cell: Option<Byte>)
    requires |start| == |lens|
  {
    if Latest(ops, pos).Some? then cell == Latest(ops, pos) else Kept(Cell(start, lens, pos), cell)
  }

  ghost predicate AllRead(start: seq<seq<Byte>>, now: seq<seq<Byte>>, lens: seq<nat>, ops: seq<IoOp>) {
    |start| == |now| == |lens| && forall pos: nat :: Reads(start, lens, ops, pos, Cell(now, lens, pos))
  }

  /** A get finds every byte as it was put last, and fails only if one was neither put nor there at the start. */
  ghost predicate Answered(start: seq<seq<Byte>>, lens: seq<nat>, ops: seq<IoOp>, off: nat, len: nat,
                           got: Option<seq<Byte>>)
    requires |start| == |lens|
  {
    match got
    case Some(buf) => |buf| == len && forall k: nat :: k < len ==> Reads(start, lens, ops, off + k, Some(buf[k]))
    case None => exists pos: nat :: off <= pos < off + len && Latest(ops, pos) == None && Cell(start, lens, pos) == None
  }

  lemma PutReads(start: seq<seq<Byte>>, before: seq<seq<Byte>>, now: seq<seq<Byte>>, lens: seq<nat>, ops: seq<IoOp>,
                 op: IoOp)
    requires AllRead(start, before, lens, ops) && op.PutIo? && Put(before, now, lens, op.off, op.bytes)
    ensures AllRead(start, now, lens, ops + [op])
  {
    assert (ops + [op])[..|ops|] == ops;
    forall pos: nat
      ensures Reads(start, lens, ops + [op], pos, Cell(now, lens, pos))
    {
      assert Reads(start, lens, ops, pos, Cell(before, lens, pos));
      if op.off <= pos < op.off + |op.bytes| {
        assert Cell(now, lens, pos) == Some(op.bytes[pos - op.off]);
      } else {
        assert Kept(Cell(before, lens, pos), Cell(now, lens, pos));
      }
    }
  }

  lemma GetReads(start: seq<seq<Byte>>, now: seq<seq<Byte>>, lens: seq<nat>, ops: seq<IoOp>, op: IoOp)
    requires AllRead(start, now, lens, ops) && op.GetIo?
    ensures AllRead(start, now, lens, ops + [op])
  {
    assert (ops + [op])[..|ops|] == ops;
    forall pos: nat
      ensures Reads(start, lens, ops + [op], pos, Cell(now, lens, pos))
    {
      assert Reads(start, lens, ops, pos, Cell(now, lens, pos));
    }
  }

  lemma GetAnswers(start: seq<seq<Byte>>, now: seq<seq<Byte>>, lens: seq<nat>, ops: seq<IoOp>, off: nat, len: nat,
                   ok: bool, buf: seq<Byte>)
    requires AllRead(start, now, lens, ops)
    requires ok ==> |buf| == len && Holds(now, lens, off, buf)
    requires !ok ==> Lacking(now, lens, off, len)
    ensures Answered(start, lens, ops, off, len, if ok then Some(buf) else None)
  {
    if ok {
      forall k: nat | k < len
        ensures Reads(start, lens, ops, off + k, Some(buf[k]))
      {
        assert Reads(start, lens, ops, off + k, Cell(now, lens, off + k));
      }
    } else {
      var pos: nat :| off <= pos < off + len && Cell(now, lens, pos) == None;
      assert Reads(start, lens, ops, pos, Cell(now, lens, pos));
    }
  }

  method OneIo(rds: Stream, wrs: Stream, ghost start: seq<seq<Byte>>, ghost before: seq<IoOp>, op: IoOp)
    returns (got: Option<seq<Byte>>)
    requires rds.Valid() && wrs.Valid() && rds != wrs && rds.disk == wrs.disk && rds.lens == wrs.lens
    requires InStream(op, Total(rds.lens)) && AllRead(start, rds.disk.files, rds.lens, before)
    modifies rds, wrs, rds.disk
    ensures rds.Valid() && wrs.Valid() && AllRead(start, rds.disk.files, rds.lens, before + [op])
    ensures op.GetIo? ==> Answered(start, rds.lens, before, op.off, op.len, got)
  {
    if op.PutIo? {
      ghost var files := rds.disk.files;
      wrs.PutBytes(op.off, op.bytes);
      PutReads(start, files, rds.disk.files, rds.lens, before, op);
      got := None;
    } else {
      var ok, buf := rds.GetBytes(op.off, op.len);
      GetAnswers(start, rds.disk.files, rds.lens, before, op.off, op.len, ok, buf);
      GetReads(start, rds.disk.files, rds.lens, before, op);
      got := if ok then Some(buf) else None;
    }
  }

  /** Any sequence of puts on one stream and gets on another over the same files: each get finds the latest bytes. */
  method RunIo(rds: Stream, wrs: Stream, ops: seq<IoOp>) returns (gots: seq<Option<seq<Byte>>>)
    requires rds.Valid() && wrs.Valid() && rds != wrs && rds.disk == wrs.disk && rds.lens == wrs.lens
    requires forall op :: op in ops ==> InStream(op, Total(rds.lens))
    modifies rds, wrs, rds.disk
    ensures rds.Valid() && wrs.Valid() && |gots| == |ops|
    ensures AllRead(old(rds.disk.files), rds.disk.files, rds.lens, ops)
    ensures forall j :: 0 <= j < |ops| && ops[j].GetIo? ==>
              Answered(old(rds.disk.files), rds.lens, ops[..j], ops[j].off, ops[j].len, gots[j])
  {
    gots := [];
    ghost var start := rds.disk.files;
    var i := 0;
    while i < |ops|
      invariant i <= |ops| && rds.Valid() && wrs.Valid() && |gots| == i
      invariant AllRead(start, rds.disk.files, rds.lens, ops[..i])
      invariant forall j :: 0 <= j < i && ops[j].GetIo? ==>
                  Answered(start, rds.lens, ops[..j], ops[j].off, ops[j].len, gots[j])
    {
      TakeNext(ops, i);
      assert ops[i] in ops;
      var got := OneIo(rds, wrs, start, ops[..i], ops[i]);
      gots := gots + [got];
      i := i + 1;
    }
    assert ops[..i] == ops;
  }
}
