/** The incremental parser of a peer's input (btpd/net.c: net_read, net_state, net_mh_ok). */
module Framer {
  import opened Lists
  import opened Wire

  datatype Phase = ShakePstr | ShakeInfo | ShakeId | MsgSize | MsgHead | PieceMeta | MsgBody

  /**
   What the framer asks of the rest of the program: known tells which torrents are active, npieces
   and pieceSize how they are cut, taken which peer ids cannot be accepted. chokes and has tell
   whether we choke the peer, and which pieces we have, when all that was received is the log.
   */
  datatype Env = Env(incoming: bool, known: seq<Byte> -> bool, npieces: seq<Byte> -> nat,
                     pieceSize: (seq<Byte>, nat) -> nat, taken: seq<Byte> -> bool,
                     chokes: seq<Msg> -> bool, has: (seq<Msg>, nat) -> bool)

  /**
   struct peer's in: need is st_bytes and got what buf holds of them. The messages that reached
   their handlers are kept in log, and downloaded counts bytes of blocks.
   */
  datatype Input = Input(phase: Phase, need: nat, got: seq<Byte>, msgLen: Word, msgNum: Byte,
                         pcIndex: Word, pcBegin: Word, hash: seq<Byte>, alive: bool, downloaded: nat, log: seq<Msg>)

  /** net_mh_ok */
  predicate HeadOk(env: Env, s: Input) {
    match s.msgNum
    case 0 => s.msgLen == 1
    case 1 => s.msgLen == 1
    case 2 => s.msgLen == 1
    case 3 => s.msgLen == 1
    case 4 => s.msgLen == 5
    case 5 => s.msgLen == FieldLen(env.npieces(s.hash)) + 1
    case 6 => s.msgLen == 13
    case 7 => s.msgLen <= PIECE_BLOCKLEN + 9
    case 8 => s.msgLen == 13
    case _ => false
  }

  /** The length of a block, in 32 bits. */
  function BlockLen(msgLen: Word): Word {
    if msgLen >= 9 then msgLen - 9 else msgLen + 0xffff_fff7
  }

  /** The bytes to come are what the phase says. */
  predicate Valid(env: Env, s: Input) {
    match s.phase
    case ShakePstr => s.need == 28
    case ShakeInfo => s.need == 20
    case ShakeId => s.need == 20
    case MsgSize => s.need == 4
    case MsgHead => s.need == 1 && s.msgLen > 0
    case PieceMeta => s.need == 8 && s.msgNum == 7 && s.msgLen > 1 && HeadOk(env, s)
    case MsgBody =>
      s.msgLen > 1 && HeadOk(env, s) && s.need == if s.msgNum == 7 then BlockLen(s.msgLen) else s.msgLen - 1
  }

  /** A connection between two reads or inside one: fewer bytes are held than are needed. */
  predicate Ready(env: Env, s: Input) {
    s.alive ==> Valid(env, s) && (|s.got| < s.need || s.got == [])
  }

  function InState(s: Input, phase: Phase, need: nat): Input {
    s.(phase := phase, need := need, got := [])
  }

  function Bad(s: Input): Input {
    s.(alive := false, got := [])
  }

  /** The next part is awaited, and the log has only grown. */
  predicate Follows(env: Env, s: Input, t: Input) {
    Ready(env, t) && t.got == [] && t.downloaded == s.downloaded && s.log <= t.log
  }

  /** The message that net_dispatch_msg hands over, when buf is the rest of it. */
  function Received(s: Input, buf: seq<Byte>): Msg
    requires s.msgNum == 4 ==> |buf| >= 4
    requires s.msgNum == 6 || s.msgNum > 7 ==> |buf| >= 12
  {
    match s.msgNum
    case 0 => Choke
    case 1 => Unchoke
    case 2 => Interest
    case 3 => Uninterest
    case 4 => Have(Dec32(buf))
    case 5 => Bitfield(if s.msgLen == 1 then [] else buf)
    case 6 => Request(Dec32(buf), Dec32(buf[4..]), Dec32(buf[8..]))
    case 7 => if s.msgLen == 1 then NoPiece(s.pcIndex, s.pcBegin) else Piece(s.pcIndex, s.pcBegin, buf)
    case _ => Cancel(Dec32(buf), Dec32(buf[4..]), Dec32(buf[8..]))
  }

  /** PF_P_WANT: the last word about interest. */
  predicate WantsUs(log: seq<Msg>) {
    if log == [] then false
    else if log[|log| - 1].Interest? then true
    else if log[|log| - 1].Uninterest? then false
    else WantsUs(log[..|log| - 1])
  }

  /** The message sets no bit of the peer's piece field. */
  predicate ShowsNothing(m: Msg, npieces: nat) {
    match m
    case Have(_) => false
    case Bitfield(field) => forall i: nat :: i < npieces && i / 8 < |field| ==> !HasBit(field, i)
    case _ => true
  }

  /** What net_dispatch_msg says to a request of a peer we serve: begin + length is a 32-bit sum. */
  predicate Servable(env: Env, hash: seq<Byte>, log: seq<Msg>, index: Word, begin: Word, length: Word) {
    && length <= PIECE_BLOCKLEN && index < env.npieces(hash) && env.has(log, index)
    && (begin + length) % 0x1_0000_0000 <= env.pieceSize(hash, index)
  }

  /**
   What net_dispatch_msg says to a message, when before it the log was received: a bit field must
   be the first word about pieces, and a request that is not ignored must be for what we have.
   */
  predicate Accepts(env: Env, hash: seq<Byte>, log: seq<Msg>, m: Msg) {
    match m
    case Bitfield(_) => forall k :: 0 <= k < |log| ==> ShowsNothing(log[k], env.npieces(hash))
    case Request(index, begin, length) =>
      WantsUs(log) && !env.chokes(log) ==> Servable(env, hash, log, index, begin, length)
    case _ => true
  }

  /** net_dispatch_msg and what follows from the handler's answer. */
  function Dispatched(env: Env, s: Input, m: Msg): (t: Input)
    ensures Follows(env, s, t)
  {
    if Accepts(env, s.hash, s.log, m) then InState(s.(log := s.log + [m]), MsgSize, 4) else Bad(s)
  }

  function HeadRead(env: Env, s: Input): (t: Input)
    requires s.msgLen > 0
    ensures Follows(env, s, t)
  {
    if !HeadOk(env, s) then Bad(s)
    else if s.msgLen == 1 then Dispatched(env, s, Received(s, []))
    else if s.msgNum == 7 then InState(s, PieceMeta, 8)
    else InState(s, MsgBody, s.msgLen - 1)
  }

  /** The three parts of the hand shake. */
  function ShakeRead(env: Env, s: Input, buf: seq<Byte>): (t: Input)
    requires s.phase == ShakePstr ==> |buf| == 28
    ensures Follows(env, s, t)
  {
    match s.phase
    case ShakePstr => if buf[..20] == PROTOCOL then InState(s, ShakeInfo, 20) else Bad(s)
    case ShakeInfo =>
      if env.incoming then
        if env.known(buf) then InState(s.(hash := buf), ShakeId, 20) else Bad(s)
      else
        if buf == s.hash then InState(s, ShakeId, 20) else Bad(s)
    case _ => if env.taken(buf) then Bad(s) else InState(s.(log := s.log + [Shake(s.hash, buf)]), MsgSize, 4)
  }

  /** net_state */
  function NetState(env: Env, s: Input, buf: seq<Byte>): (t: Input)
    requires Valid(env, s) && s.alive && |buf| == s.need
    ensures Follows(env, s, t)
    ensures s.need == 0 && t.alive ==> t.need > 0
  {
    match s.phase
    case ShakePstr => ShakeRead(env, s, buf)
    case ShakeInfo => ShakeRead(env, s, buf)
    case ShakeId => ShakeRead(env, s, buf)
    case MsgSize =>
      var t := s.(msgLen := Dec32(buf));
      if t.msgLen == 0 then InState(t.(log := t.log + [KeepAlive]), MsgSize, 4) else InState(t, MsgHead, 1)
    case MsgHead => HeadRead(env, s.(msgNum := buf[0]))
    case PieceMeta => InState(s.(pcIndex := Dec32(buf), pcBegin := Dec32(buf[4..])), MsgBody, BlockLen(s.msgLen))
    case MsgBody => Dispatched(env, s, Received(s, buf))
  }

  /** net_progress */
  function Progress(s: Input, k: nat): Input {
    if s.phase == MsgBody && s.msgNum == 7 then s.(downloaded := s.downloaded + k) else s
  }

  /** The state has got what it needs: k more bytes of the data. */
  function Completed(env: Env, s: Input, k: nat, data: seq<Byte>): (t: Input)
    requires Ready(env, s) && s.alive && k <= |data| && |s.got| + k == s.need
    ensures Ready(env, t) && t.got == [] && s.log <= t.log
    ensures s.need == 0 && t.alive ==> t.need > 0
  {
    NetState(env, Progress(s, k).(got := []), s.got + data[..k])
  }

  /** The state after a chunk that is too short. */
  function Held(s: Input, a: seq<Byte>): Input {
    Progress(s, |a|).(got := s.got + a)
  }

  /** The parse of everything at once. */
  function Consume(env: Env, s: Input, data: seq<Byte>): (t: Input)
    requires Ready(env, s)
    ensures Ready(env, t) && s.log <= t.log
    ensures t.alive ==> |t.got| < t.need
    decreases |data|, if s.alive && s.need == 0 then 1 else 0
  {
    if !s.alive then s
    else if |s.got| + |data| < s.need then Held(s, data)
    else
      var k := s.need - |s.got|;
      Consume(env, Completed(env, s, k, data), data[k..])
  }

  // ---------- Chunks do not matter ----------

  lemma ShortTwice(s: Input, a: seq<Byte>, b: seq<Byte>)
    ensures Held(Held(s, a), b) == Held(s, a + b)
  {
    assert s.got + a + b == s.got + (a + b);
  }

  lemma ShortThenRest(env: Env, s: Input, a: seq<Byte>, b: seq<Byte>, k: nat)
    requires Ready(env, s) && s.alive && |s.got| + k == s.need && |a| < k <= |a| + |b|
    ensures Ready(env, Held(s, a)) && b[k - |a|..] == (a + b)[k..]
    ensures Completed(env, Held(s, a), k - |a|, b) == Completed(env, s, k, a + b)
  {
    var t := Held(s, a);
    assert t.got + b[..k - |a|] == s.got + (a + b)[..k];
    assert Progress(t, k - |a|).(got := []) == Progress(s, k).(got := []);
  }

  lemma ConsumeStep(env: Env, s: Input, data: seq<Byte>, k: nat)
    requires Ready(env, s) && s.alive && |s.got| + k == s.need && k <= |data|
    ensures Consume(env, s, data) == Consume(env, Completed(env, s, k, data), data[k..])
  {
  }

  lemma {:induction false} Chunked(env: Env, s: Input, a: seq<Byte>, b: seq<Byte>)
    requires Ready(env, s)
    ensures Consume(env, s, a + b) == Consume(env, Consume(env, s, a), b)
    decreases |a|, if s.alive && s.need == 0 then 1 else 0
  {
    if s.alive {
      var k := s.need - |s.got|;
      if |a| + |b| < k {
        ShortTwice(s, a, b);
      } else if |a| < k {
        ShortThenRest(env, s, a, b, k);
        ConsumeStep(env, s, a + b, k);
        ConsumeStep(env, Held(s, a), b, k - |a|);
      } else {
        assert (a + b)[..k] == a[..k] && (a + b)[k..] == a[k..] + b;
        ConsumeStep(env, s, a + b, k);
        ConsumeStep(env, s, a, k);
        Chunked(env, Completed(env, s, k, a), a[k..], b);
      }
    }
  }

  /** The parse chunk by chunk. */
  function ConsumeEach(env: Env, s: Input, chunks: seq<seq<Byte>>): (t: Input)
    requires Ready(env, s)
    ensures Ready(env, t)
    decreases |chunks|
  {
    if chunks == [] then s else ConsumeEach(env, Consume(env, s, chunks[0]), chunks[1..])
  }

  /** However the input is split into reads, the same messages reach the handlers and the same state is left. */
  lemma {:induction false} FramingIgnoresChunks(env: Env, s: Input, chunks: seq<seq<Byte>>)
    requires Ready(env, s) && (s.alive ==> |s.got| < s.need)
    ensures ConsumeEach(env, s, chunks) == Consume(env, s, Flat(chunks))
    decreases |chunks|
  {
    if chunks == [] {
      if s.alive {
        assert s.got + [] == s.got;
      }
    } else {
      FramingIgnoresChunks(env, Consume(env, s, chunks[0]), chunks[1..]);
      Chunked(env, s, chunks[0], Flat(chunks[1..]));
    }
  }

  // ---------- The byte count ----------

  function BlockBytes(m: Msg): nat {
    if m.Piece? then |m.data| else 0
  }

  /** The bytes of the blocks received. */
  function AllBlockBytes(log: seq<Msg>): nat {
    if log == [] then 0 else AllBlockBytes(log[..|log| - 1]) + BlockBytes(log[|log| - 1])
  }

  /** What has come of the block that is being received. */
  function PartBytes(s: Input): nat {
    if s.alive && s.phase == MsgBody && s.msgNum == 7 then |s.got| else 0
  }

  predicate Counted(s: Input) {
    s.downloaded == AllBlockBytes(s.log) + PartBytes(s)
  }

  lemma OneMoreMsg(log: seq<Msg>, m: Msg)
    ensures AllBlockBytes(log + [m]) == AllBlockBytes(log) + BlockBytes(m)
  {
    assert (log + [m])[..|log|] == log;
  }

  lemma DispatchedCounts(env: Env, s: Input, m: Msg)
    ensures AllBlockBytes(Dispatched(env, s, m).log) == AllBlockBytes(s.log) + BlockBytes(m)
  {
    OneMoreMsg(s.log, m);
  }

  lemma HeadCounts(env: Env, s: Input)
    requires s.msgLen > 0
    ensures AllBlockBytes(HeadRead(env, s).log) == AllBlockBytes(s.log)
  {
    if HeadOk(env, s) && s.msgLen == 1 {
      DispatchedCounts(env, s, Received(s, []));
    }
  }

  lemma NetStateCounts(env: Env, s: Input, buf: seq<Byte>)
    requires Valid(env, s) && s.alive && |buf| == s.need
    ensures AllBlockBytes(NetState(env, s, buf).log)
         == AllBlockBytes(s.log) + if s.phase == MsgBody && s.msgNum == 7 then |buf| else 0
  {
    match s.phase
    case ShakeId => OneMoreMsg(s.log, Shake(s.hash, buf));
    case MsgSize => OneMoreMsg(s.log, KeepAlive);
    case MsgHead => HeadCounts(env, s.(msgNum := buf[0]));
    case MsgBody => DispatchedCounts(env, s, Received(s, buf));
    case _ =>
  }

  lemma CompletedCounts(env: Env, s: Input, k: nat, data: seq<Byte>)
    requires Ready(env, s) && s.alive && k <= |data| && |s.got| + k == s.need && Counted(s)
    ensures Counted(Completed(env, s, k, data))
  {
    NetStateCounts(env, Progress(s, k).(got := []), s.got + data[..k]);
  }

  lemma HeldCounts(s: Input, data: seq<Byte>)
    requires s.alive && Counted(s)
    ensures Counted(Held(s, data))
  {
  }

  /** downloaded is exactly the number of block bytes received, whole blocks and the last part. */
  lemma {:induction false} CountsBlockBytes(env: Env, s: Input, data: seq<Byte>)
    requires Ready(env, s) && Counted(s)
    ensures Counted(Consume(env, s, data))
    decreases |data|, if s.alive && s.need == 0 then 1 else 0
  {
    if s.alive {
      var k := s.need - |s.got|;
      if |data| < k {
        HeldCounts(s, data);
      } else {
        CompletedCounts(env, s, k, data);
        ConsumeStep(env, s, data, k);
        CountsBlockBytes(env, Completed(env, s, k, data), data[k..]);
      }
    }
  }

  // ---------- What was encoded is recovered ----------

  /** Between two messages. */
  predicate AtRest(s: Input) {
    s.alive && s.phase == MsgSize && s.need == 4 && s.got == []
  }

  /** A part that arrives whole. */
  lemma WholePart(env: Env, s: Input, part: seq<Byte>, rest: seq<Byte>)
    requires Ready(env, s) && s.alive && s.got == [] && |part| == s.need
    ensures Consume(env, s, part + rest) == Consume(env, NetState(env, Progress(s, |part|), part), rest)
  {
    ConsumeStep(env, s, part + rest, |part|);
    assert (part + rest)[..|part|] == part && (part + rest)[|part|..] == rest;
    assert s.got + part == part;
    assert Progress(s, |part|).(got := []) == Progress(s, |part|);
  }

  lemma NothingMore(env: Env, s: Input)
    requires Ready(env, s) && (s.alive ==> |s.got| < s.need)
    ensures Consume(env, s, []) == s
  {
    if s.alive {
      assert s.got + [] == s.got;
    }
  }

  /** The size and the number of a message. */
  function Headed(s: Input, m: Msg): Input
    requires |Payload(m)| < 0xffff_ffff
  {
    InState(s.(msgLen := 1 + |Payload(m)|), MsgHead, 1)
  }

  lemma HeadParsed(env: Env, s: Input, len: Word, num: Byte, rest: seq<Byte>)
    requires AtRest(s) && len > 0
    ensures Consume(env, s, Be32(len) + [num] + rest)
         == Consume(env, HeadRead(env, InState(s.(msgLen := len), MsgHead, 1).(msgNum := num)), rest)
  {
    var size := Be32(len);
    DecodesNumber(len);
    assert size + [num] + rest == size + ([num] + rest);
    WholePart(env, s, size, [num] + rest);
    WholePart(env, InState(s.(msgLen := len), MsgHead, 1), [num], rest);
  }

  lemma HeadRecovered(env: Env, s: Input, m: Msg, rest: seq<Byte>)
    requires AtRest(s) && |Payload(m)| < 0xffff_ffff
    ensures Consume(env, s, Be32(1 + |Payload(m)|) + [Number(m)] + rest)
         == Consume(env, HeadRead(env, Headed(s, m).(msgNum := Number(m))), rest)
  {
    HeadParsed(env, s, 1 + |Payload(m)|, Number(m), rest);
  }

  predicate Recovers(s: Input, t: Input, ms: seq<Msg>) {
    AtRest(t) && t.log == s.log + ms && t.hash == s.hash
  }

  lemma RecoversBody(env: Env, s: Input, m: Msg)
    requires AtRest(s) && Fits(m, env.npieces(s.hash)) && Accepts(env, s.hash, s.log, m)
    requires Payload(m) != [] && !m.Piece?
    ensures Recovers(s, Consume(env, s, Encode(m)), [m])
  {
    var h := Headed(s, m).(msgNum := Number(m));
    HeadRecovered(env, s, m, Payload(m));
    BodyDispatched(env, s, m);
    WholePart(env, HeadRead(env, h), Payload(m), []);
    assert Payload(m) + [] == Payload(m);
    NothingMore(env, Dispatched(env, HeadRead(env, h), m));
  }

  /** After its head the body is awaited, and the body is read as the message. */
  lemma BodyDispatched(env: Env, s: Input, m: Msg)
    requires AtRest(s) && Fits(m, env.npieces(s.hash)) && Payload(m) != [] && !m.Piece?
    ensures var b := HeadRead(env, Headed(s, m).(msgNum := Number(m)));
      && Ready(env, b) && b.alive && b.got == [] && b.need == |Payload(m)| && b.phase == MsgBody && b.msgNum != 7
      && b.hash == s.hash && b.log == s.log && NetState(env, b, Payload(m)) == Dispatched(env, b, m)
  {
    ReadsPayload(m);
  }

  lemma ReadsPayload(m: Msg)
    ensures m.Have? ==> Dec32(Payload(m)) == m.index
    ensures m.Request? || m.Cancel? || m.Piece? ==> Dec32(Payload(m)) == m.index && Dec32(Payload(m)[4..]) == m.begin
    ensures m.Request? || m.Cancel? ==> |Payload(m)| == 12 && Dec32(Payload(m)[8..]) == m.length
  {
    match m
    case Have(index) => DecodesNumber(index);
    case Request(index, begin, length) => ReadsThree(index, begin, length);
    case Cancel(index, begin, length) => ReadsThree(index, begin, length);
    case Piece(index, begin, data) => ReadsTwo(index, begin, data);
    case _ =>
  }

  lemma ReadsTwo(a: Word, b: Word, rest: seq<Byte>)
    ensures var s := Be32(a) + Be32(b) + rest;
      Dec32(s) == a && Dec32(s[4..]) == b
  {
    var s := Be32(a) + Be32(b) + rest;
    assert s == [] + Be32(a) + (Be32(b) + rest);
    ReadsNumber([], a, Be32(b) + rest);
    ReadsNumber(Be32(a), b, rest);
  }

  lemma ReadsThree(a: Word, b: Word, c: Word)
    ensures var s := Be32(a) + Be32(b) + Be32(c);
      Dec32(s) == a && Dec32(s[4..]) == b && Dec32(s[8..]) == c
  {
    ReadsTwo(a, b, Be32(c));
    ReadsNumber(Be32(a) + Be32(b), c, []);
    assert Be32(a) + Be32(b) + Be32(c) + [] == Be32(a) + Be32(b) + Be32(c);
  }

  lemma RecoversPlain(env: Env, s: Input, m: Msg)
    requires AtRest(s) && Accepts(env, s.hash, s.log, m) && (m.Choke? || m.Unchoke? || m.Interest? || m.Uninterest?)
    ensures Recovers(s, Consume(env, s, Encode(m)), [m])
  {
    HeadRecovered(env, s, m, []);
    assert Encode(m) + [] == Encode(m);
    NothingMore(env, HeadRead(env, Headed(s, m).(msgNum := Number(m))));
  }

  lemma RecoversKeepAlive(env: Env, s: Input)
    requires AtRest(s)
    ensures Recovers(s, Consume(env, s, Encode(KeepAlive)), [KeepAlive])
  {
    DecodesNumber(0);
    WholePart(env, s, Be32(0), []);
    assert Be32(0) + [] == Be32(0);
    NothingMore(env, NetState(env, s, Be32(0)));
  }

  lemma RecoversMeta(env: Env, s: Input, index: Word, begin: Word, rest: seq<Byte>)
    requires Ready(env, s) && s.alive && s.phase == PieceMeta && s.got == []
    ensures Consume(env, s, Be32(index) + Be32(begin) + rest)
         == Consume(env, InState(s.(pcIndex := index, pcBegin := begin), MsgBody, BlockLen(s.msgLen)), rest)
  {
    var meta := Be32(index) + Be32(begin);
    ReadsTwo(index, begin, []);
    assert meta + [] == meta;
    WholePart(env, s, meta, rest);
  }

  lemma RecoversPiece(env: Env, s: Input, m: Msg)
    requires AtRest(s) && m.Piece? && |m.data| <= PIECE_BLOCKLEN && Accepts(env, s.hash, s.log, m)
    ensures Recovers(s, Consume(env, s, Encode(m)), [m])
  {
    var h := HeadRead(env, Headed(s, m).(msgNum := 7));
    HeadRecovered(env, s, m, Payload(m));
    RecoversMeta(env, h, m.index, m.begin, m.data);
    var b := InState(h.(pcIndex := m.index, pcBegin := m.begin), MsgBody, |m.data|);
    WholePart(env, b, m.data, []);
    assert m.data + [] == m.data;
    NothingMore(env, Dispatched(env, Progress(b, |m.data|), m));
  }

  /** One message put on the wire is the one message that reaches its handler. */
  lemma RecoversMsg(env: Env, s: Input, m: Msg)
    requires AtRest(s) && Fits(m, env.npieces(s.hash)) && Accepts(env, s.hash, s.log, m)
    ensures Recovers(s, Consume(env, s, Encode(m)), [m])
  {
    if m.Piece? {
      RecoversPiece(env, s, m);
    } else if m.KeepAlive? {
      RecoversKeepAlive(env, s);
    } else if Payload(m) != [] {
      RecoversBody(env, s, m);
    } else {
      RecoversPlain(env, s, m);
    }
  }

  predicate AllFit(ms: seq<Msg>, npieces: nat) {
    forall m :: m in ms ==> Fits(m, npieces)
  }

  predicate AllAccepted(env: Env, hash: seq<Byte>, log: seq<Msg>, ms: seq<Msg>) {
    forall k :: 0 <= k < |ms| ==> Accepts(env, hash, log + ms[..k], ms[k])
  }

  lemma RecoversBoth(s: Input, t: Input, u: Input, a: seq<Msg>, b: seq<Msg>)
    requires Recovers(s, t, a) && Recovers(t, u, b)
    ensures Recovers(s, u, a + b)
  {
    assert s.log + a + b == s.log + (a + b);
  }

  lemma AcceptedNext(env: Env, hash: seq<Byte>, log: seq<Msg>, ms: seq<Msg>)
    requires AllAccepted(env, hash, log, ms) && ms != []
    ensures Accepts(env, hash, log, ms[0]) && AllAccepted(env, hash, log + [ms[0]], ms[1..])
  {
    assert log + ms[..0] == log;
    forall k | 0 <= k < |ms| - 1
      ensures Accepts(env, hash, log + [ms[0]] + ms[1..][..k], ms[1..][k])
    {
      assert log + [ms[0]] + ms[1..][..k] == log + ms[..k + 1];
    }
  }

  lemma AcceptedTake(env: Env, hash: seq<Byte>, log: seq<Msg>, ms: seq<Msg>, k: nat)
    requires AllAccepted(env, hash, log, ms) && k <= |ms|
    ensures AllAccepted(env, hash, log, ms[..k])
  {
    forall j | 0 <= j < k
      ensures Accepts(env, hash, log + ms[..k][..j], ms[..k][j])
    {
      assert ms[..k][..j] == ms[..j];
    }
  }

  lemma {:induction false} RecoversAll(env: Env, s: Input, ms: seq<Msg>)
    requires AtRest(s) && AllFit(ms, env.npieces(s.hash)) && AllAccepted(env, s.hash, s.log, ms)
    ensures Recovers(s, Consume(env, s, EncodeAll(ms)), ms)
    decreases |ms|
  {
    if ms == [] {
      NothingMore(env, s);
      assert s.log + [] == s.log;
    } else {
      AcceptedNext(env, s.hash, s.log, ms);
      var x, y := Encode(ms[0]), EncodeAll(ms[1..]);
      RecoversMsg(env, s, ms[0]);
      var t := Consume(env, s, x);
      RecoversAll(env, t, ms[1..]);
      RecoversBoth(s, t, Consume(env, t, y), [ms[0]], ms[1..]);
      Chunked(env, s, x, y);
      assert [ms[0]] + ms[1..] == ms;
    }
  }

  /** What has arrived of a stream, of which some first part was parsed whole. */
  lemma PartBetween(env: Env, s: Input, first: seq<Byte>, wire: seq<Byte>, all: seq<Byte>)
    requires Ready(env, s) && first <= wire <= all && Consume(env, s, all).alive
    ensures Consume(env, s, first).log <= Consume(env, s, wire).log <= Consume(env, s, all).log
    ensures Consume(env, s, wire).alive
  {
    var rest := all[|wire|..];
    var more := wire[|first|..];
    assert wire + rest == all && first + more == wire;
    Chunked(env, s, wire, rest);
    Chunked(env, s, first, more);
  }

  /** A connection that nothing has come from. */
  function Opened(hash: seq<Byte>): Input {
    Input(ShakePstr, 28, [], 0, 0, 0, 0, hash, true, 0, [])
  }

  /** The hand shake is recovered, by the side that knows the torrent and by the side that is told. */
  lemma RecoversShake(env: Env, hash: seq<Byte>, hash': seq<Byte>, id: seq<Byte>)
    requires |hash| == 20 && |id| == 20 && !env.taken(id)
    requires if env.incoming then env.known(hash) else hash' == hash
    ensures var t := Consume(env, Opened(hash'), Encode(Shake(hash, id)));
      AtRest(t) && t.log == [Shake(hash, id)] && t.hash == hash
  {
    var s := Opened(hash');
    var first := PROTOCOL + [0, 0, 0, 0, 0, 0, 0, 0];
    assert first[..20] == PROTOCOL;
    assert Encode(Shake(hash, id)) == first + (hash + id);
    WholePart(env, s, first, hash + id);
    var i := NetState(env, s, first);
    WholePart(env, i, hash, id);
    var d := NetState(env, i, hash);
    assert id + [] == id;
    WholePart(env, d, id, []);
    NothingMore(env, NetState(env, d, id));
  }

  // ---------- What is refused ----------

  /** The connection is given up, and no message more is taken. */
  predicate Refused(s: Input, t: Input) {
    !t.alive && t.log == s.log
  }

  lemma DeadStops(env: Env, s: Input, data: seq<Byte>)
    requires Ready(env, s) && !s.alive
    ensures Consume(env, s, data) == s
  {
  }

  /** The last word about interest was that there is some. */
  ghost predicate LastWordIsInterest(log: seq<Msg>) {
    exists k :: 0 <= k < |log| && log[k] == Interest && forall j :: k < j < |log| ==> log[j] != Uninterest
  }

  lemma LastWordNext(log: seq<Msg>, m: Msg)
    ensures LastWordIsInterest(log + [m]) <==> m == Interest || (m != Uninterest && LastWordIsInterest(log))
  {
    var n := |log|;
    var all := log + [m];
    assert forall j :: 0 <= j < n ==> all[j] == log[j];
    if m == Interest {
      assert all[n] == Interest;
    } else if LastWordIsInterest(all) {
      var k :| 0 <= k <= n && all[k] == Interest && forall j :: k < j <= n ==> all[j] != Uninterest;
      assert log[k] == Interest && all[n] == m;
    } else if LastWordIsInterest(log) {
      var k :| 0 <= k < n && log[k] == Interest && forall j :: k < j < n ==> log[j] != Uninterest;
      assert all[k] == Interest;
    }
  }

  lemma {:induction false} WantIsLastWord(log: seq<Msg>)
    ensures WantsUs(log) <==> LastWordIsInterest(log)
  {
    if log != [] {
      var n := |log| - 1;
      WantIsLastWord(log[..n]);
      LastWordNext(log[..n], log[n]);
      assert log[..n] + [log[n]] == log;
    }
  }

  /** A message of its own form keeps the connection or ends it, as net_dispatch_msg says. */
  lemma DispatchLaw(env: Env, s: Input, m: Msg)
    requires AtRest(s) && (m.Request? || (m.Bitfield? && Fits(m, env.npieces(s.hash))))
    ensures var t := Consume(env, s, Encode(m));
      if Accepts(env, s.hash, s.log, m) then Recovers(s, t, [m]) else Refused(s, t)
  {
    if Accepts(env, s.hash, s.log, m) {
      RecoversMsg(env, s, m);
    } else {
      var h := Headed(s, m).(msgNum := Number(m));
      HeadRecovered(env, s, m, Payload(m));
      BodyDispatched(env, s, m);
      WholePart(env, HeadRead(env, h), Payload(m), []);
      assert Payload(m) + [] == Payload(m);
      DeadStops(env, Dispatched(env, HeadRead(env, h), m), []);
    }
  }

  /**
   A request ends the connection exactly when the peer is served, that is, its last word is that it
   is interested and we do not choke it, and the block is too long, or of a piece that there is
   not or that we lack, or ends past its piece, in a sum of 32 bits.
   */
  lemma RequestLaw(env: Env, s: Input, index: Word, begin: Word, length: Word)
    requires AtRest(s)
    ensures var t := Consume(env, s, Encode(Request(index, begin, length)));
      && (t.alive <==>
           || !(LastWordIsInterest(s.log) && !env.chokes(s.log))
           || (length <= 16384 && index < env.npieces(s.hash) && env.has(s.log, index)
              && (begin + length) % 0x1_0000_0000 <= env.pieceSize(s.hash, index)))
      && if t.alive then Recovers(s, t, [Request(index, begin, length)]) else Refused(s, t)
  {
    WantIsLastWord(s.log);
    DispatchLaw(env, s, Request(index, begin, length));
  }

  /** Before it the peer had announced a piece, by a have message or a bit of a field. */
  ghost predicate Announced(log: seq<Msg>, npieces: nat) {
    exists k :: 0 <= k < |log| && (log[k].Have? || (log[k].Bitfield? &&
      exists i: nat :: i < npieces && i / 8 < |log[k].field| && HasBit(log[k].field, i)))
  }

  /** A bit field of the right length ends the connection exactly when a piece was announced before it. */
  lemma FieldLaw(env: Env, s: Input, field: seq<Byte>)
    requires AtRest(s) && |field| == (env.npieces(s.hash) + 7) / 8 && 0 < |field| < 0xffff_ffff
    ensures var t := Consume(env, s, Encode(Bitfield(field)));
      && (t.alive <==> !Announced(s.log, env.npieces(s.hash)))
      && if t.alive then Recovers(s, t, [Bitfield(field)]) else Refused(s, t)
  {
    DispatchLaw(env, s, Bitfield(field));
    var n := env.npieces(s.hash);
    if Announced(s.log, n) {
      var k :| 0 <= k < |s.log| && (s.log[k].Have? || (s.log[k].Bitfield? &&
        exists i: nat :: i < n && i / 8 < |s.log[k].field| && HasBit(s.log[k].field, i)));
      assert !ShowsNothing(s.log[k], n);
    } else {
      forall k | 0 <= k < |s.log|
        ensures ShowsNothing(s.log[k], n)
      {
      }
    }
  }

  /** The lengths of the messages by their numbers. */
  predicate RightLength(len: Word, num: Byte, npieces: nat) {
    if num <= 3 then len == 1
    else if num == 4 then len == 5
    else if num == 5 then len == (npieces + 7) / 8 + 1
    else if num == 7 then len <= 16393
    else (num == 6 || num == 8) && len == 13
  }

  /** A head of the wrong length or number ends the connection, and any other keeps it until the body is there. */
  lemma HeadLaw(env: Env, s: Input, len: Word, num: Byte)
    requires AtRest(s) && len > 0
    ensures var t := Consume(env, s, Be32(len) + [num]);
      && (!RightLength(len, num, env.npieces(s.hash)) ==> Refused(s, t))
      && (RightLength(len, num, env.npieces(s.hash)) && (len > 1 || num != 5) ==> t.alive)
      && (RightLength(len, num, env.npieces(s.hash)) && len > 1 ==>
           t.log == s.log && t.got == [] && t.need == if num == 7 then 8 else len - 1)
  {
    var h := InState(s.(msgLen := len), MsgHead, 1).(msgNum := num);
    HeadParsed(env, s, len, num, []);
    assert Be32(len) + [num] + [] == Be32(len) + [num];
    HeadReadLaw(env, h);
    NothingMore(env, HeadRead(env, h));
  }

  lemma HeadReadLaw(env: Env, s: Input)
    requires s.alive && s.msgLen > 0
    ensures var t, right := HeadRead(env, s), RightLength(s.msgLen, s.msgNum, env.npieces(s.hash));
      && (!right ==> Refused(s, t))
      && (right && (s.msgLen > 1 || s.msgNum != 5) ==> t.alive)
      && (right && s.msgLen > 1 ==>
           t.log == s.log && t.got == [] && t.need == if s.msgNum == 7 then 8 else s.msgLen - 1)
  {
  }

  /** After the head of a piece its place is read, and as many bytes awaited as are left, in 32 bits. */
  lemma BlockLengthLaw(env: Env, s: Input, len: Word, index: Word, begin: Word)
    requires AtRest(s) && 1 < len <= 16393 && len != 9
    ensures var t := Consume(env, s, Be32(len) + [7] + (Be32(index) + Be32(begin)));
      && t.alive && t.log == s.log && t.got == [] && t.pcIndex == index && t.pcBegin == begin
      && t.need == (len - 9) % 0x1_0000_0000
  {
    var meta := Be32(index) + Be32(begin);
    HeadParsed(env, s, len, 7, meta);
    PieceHeaded(env, s, len);
    var h := HeadRead(env, InState(s.(msgLen := len), MsgHead, 1).(msgNum := 7));
    assert meta + [] == meta;
    RecoversMeta(env, h, index, begin, []);
    MetaDone(env, h, index, begin);
  }

  lemma PieceHeaded(env: Env, s: Input, len: Word)
    requires AtRest(s) && 1 < len <= 16393
    ensures var h := HeadRead(env, InState(s.(msgLen := len), MsgHead, 1).(msgNum := 7));
      && Ready(env, h) && h.alive && h.phase == PieceMeta && h.got == []
      && h.msgLen == len && h.msgNum == 7 && h.log == s.log
  {
  }

  lemma MetaDone(env: Env, h: Input, index: Word, begin: Word)
    requires Ready(env, h) && h.alive && h.phase == PieceMeta && h.msgLen <= 16393 && h.msgLen != 9
    ensures var b := InState(h.(pcIndex := index, pcBegin := begin), MsgBody, BlockLen(h.msgLen));
      Ready(env, b) && Consume(env, b, []) == b && b.need == (h.msgLen - 9) % 0x1_0000_0000
  {
    NothingMore(env, InState(h.(pcIndex := index, pcBegin := begin), MsgBody, BlockLen(h.msgLen)));
  }

  /** The protocol's name with its length before it. */
  ghost predicate NamesProtocol(data: seq<Byte>) {
    |data| >= 20 && data[0] == 19 && forall i :: 0 <= i < 19 ==> data[1 + i] == "BitTorrent protocol"[i] as int
  }

  lemma NameIsProtocol(data: seq<Byte>)
    requires |data| >= 20
    ensures NamesProtocol(data) <==> data[..20] == PROTOCOL
  {
    var name := "BitTorrent protocol";
    forall i | 0 <= i < 19
      ensures PROTOCOL[1 + i] == name[i] as int
    {
    }
    if NamesProtocol(data) {
      forall i | 0 <= i < 20
        ensures data[i] == PROTOCOL[i]
      {
        assert i > 0 ==> data[1 + (i - 1)] == name[i - 1] as int;
      }
      assert data[..20] == PROTOCOL;
    } else if data[..20] == PROTOCOL {
      assert forall i :: 0 <= i < 20 ==> data[i] == data[..20][i];
    }
  }

  /**
   The 68 bytes of a hand shake keep the connection exactly when they name the protocol, a torrent
   that is active or, when we called, the torrent we asked for, and a peer id that is not taken.
   */
  lemma ShakeLaw(env: Env, hash': seq<Byte>, data: seq<Byte>)
    requires |data| == 68
    ensures var t, hash, id := Consume(env, Opened(hash'), data), data[28..48], data[48..];
      && (t.alive <==>
           NamesProtocol(data) && (if env.incoming then env.known(hash) else hash == hash') && !env.taken(id))
      && if t.alive then AtRest(t) && t.log == [Shake(hash, id)] && t.hash == hash else t.log == []
  {
    NameIsProtocol(data);
    var s := Opened(hash');
    var first, hash, id := data[..28], data[28..48], data[48..];
    assert data == first + (hash + id) && first[..20] == data[..20];
    WholePart(env, s, first, hash + id);
    var i := NetState(env, s, first);
    if !i.alive {
      DeadStops(env, i, hash + id);
      return;
    }
    WholePart(env, i, hash, id);
    var d := NetState(env, i, hash);
    if !d.alive {
      DeadStops(env, d, id);
      return;
    }
    assert id + [] == id;
    WholePart(env, d, id, []);
    NothingMore(env, NetState(env, d, id));
  }

  // ---------- The parser ----------

  /** What a connection has received. */
  class Connection {
    const env: Env
    var inp: Input

    constructor (env: Env, hash: seq<Byte>)
      ensures this.env == env && inp == Opened(hash)
    {
      this.env := env;
      inp := Opened(hash);
    }

    /** net_read, when readv brings these bytes: first into the rest of buf, then into a buffer of its own. */
    method NetRead(data: seq<Byte>)
      requires Ready(env, inp) && inp.alive && |inp.got| < inp.need
      modifies this
      ensures inp == Consume(env, old(inp), data)
      ensures Ready(env, inp) && (inp.alive ==> |inp.got| < inp.need)
    {
      var rest := if inp.got != [] then inp.need - |inp.got| else 0;
      var iov := data;
      if rest > 0 {
        if |data| < rest {
          inp := Held(inp, data);
          return;
        }
        ConsumeStep(env, inp, data, rest);
        inp := Completed(env, inp, rest, data);
        if !inp.alive {
          return;
        }
        iov := data[rest..];
      }
      ReadParts(iov);
    }

    /** The loop of net_read: whole parts are taken from its buffer, and what is left over is kept. */
    method ReadParts(data: seq<Byte>)
      requires Ready(env, inp) && inp.alive && inp.got == []
      modifies this
      ensures inp == Consume(env, old(inp), data)
      ensures Ready(env, inp) && (inp.alive ==> |inp.got| < inp.need)
    {
      var iov := data;
      while inp.need <= |iov|
        invariant Ready(env, inp) && inp.alive && inp.got == []
        invariant Consume(env, inp, iov) == Consume(env, old(inp), data)
        decreases |iov|, if inp.need == 0 then 1 else 0
      {
        var consumed := inp.need;
        ConsumeStep(env, inp, iov, consumed);
        inp := Completed(env, inp, consumed, iov);
        if !inp.alive {
          return;
        }
        iov := iov[consumed..];
      }
      if |iov| > 0 {
        inp := Held(inp, iov);
      } else {
        NothingMore(env, inp);
      }
    }

    /** A whole run of reads, until the connection is given up. */
    method Run(chunks: seq<seq<Byte>>)
      requires Ready(env, inp) && inp.alive && |inp.got| < inp.need && Counted(inp)
      modifies this
      ensures inp == Consume(env, old(inp), Flat(chunks)) && Counted(inp)
    {
      var i := 0;
      FramingIgnoresChunks(env, inp, chunks);
      CountsBlockBytes(env, inp, Flat(chunks));
      while i < |chunks| && inp.alive
        invariant i <= |chunks| && Ready(env, inp) && (inp.alive ==> |inp.got| < inp.need)
        invariant ConsumeEach(env, inp, chunks[i..]) == Consume(env, old(inp), Flat(chunks))
      {
        assert chunks[i..][1..] == chunks[i + 1..];
        NetRead(chunks[i]);
        i := i + 1;
      }
      DeadStays(env, inp, chunks[i..]);
    }
  }

  lemma {:induction false} DeadStays(env: Env, s: Input, chunks: seq<seq<Byte>>)
    requires Ready(env, s) && (s.alive ==> chunks == [])
    ensures ConsumeEach(env, s, chunks) == s
    decreases |chunks|
  {
    if chunks == [] {
    } else {
      DeadStays(env, Consume(env, s, chunks[0]), chunks[1..]);
    }
  }
}
