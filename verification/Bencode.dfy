/** Bencoded data: what is accepted, and how it is walked (misc/benc.c). */
module Bencode {
  import opened Lists
  import opened Wire

  // ---------- Trees ----------

  /** The items of a dictionary are its keys and values by turns; digits are kept as they are written. */
  datatype Tree =
    | Int(negative: bool, digits: seq<Byte>)
    | Str(digits: seq<Byte>, bytes: seq<Byte>)
    | Lst(items: seq<Tree>)
    | Dct(items: seq<Tree>)

  const COLON: Byte := 58
  const MINUS: Byte := 45
  const D: Byte := 100
  const E: Byte := 101
  const I: Byte := 105
  const L: Byte := 108

  predicate IsDigit(b: Byte) {
    48 <= b <= 57
  }

  predicate Digits(s: seq<Byte>) {
    s != [] && forall b :: b in s ==> IsDigit(b)
  }

  function Digit(b: Byte): nat {
    if IsDigit(b) then b - 48 else 0
  }

  function Value(s: seq<Byte>): nat {
    if s == [] then 0 else Value(s[..|s| - 1]) * 10 + Digit(s[|s| - 1])
  }

  predicate IsContainer(t: Tree) {
    t.Lst? || t.Dct?
  }

  /** What may come next: any item of a list, or a key or a value of a dictionary. */
  datatype Turn = Item | Key | Val

  function Next(d: Turn): Turn {
    match d
    case Item => Item
    case Key => Val
    case Val => Key
  }

  function FirstTurn(t: Tree): Turn {
    if t.Dct? then Key else Item
  }

  /**
   The accepted grammar: any digits, also with leading zeros, a minus before any of them, strings
   of the length their digits say, and dictionaries of string keys with a value each, in any order.
   */
  predicate Proper(t: Tree) {
    match t
    case Int(_, digits) => Digits(digits)
    case Str(digits, bytes) => Digits(digits) && Value(digits) == |bytes|
    case Lst(items) => ProperItems(items, Item)
    case Dct(items) => ProperItems(items, Key)
  }

  predicate ProperItems(items: seq<Tree>, d: Turn) {
    if items == [] then d != Val
    else Proper(items[0]) && (d == Key ==> items[0].Str?) && ProperItems(items[1..], Next(d))
  }

  function IntHead(negative: bool): (s: seq<Byte>)
    ensures |s| == if negative then 2 else 1
  {
    if negative then [I, MINUS] else [I]
  }

  function EncodedLeaf(t: Tree): (s: seq<Byte>)
    requires !IsContainer(t)
    ensures s != []
  {
    match t
    case Int(negative, digits) => IntHead(negative) + digits + [E]
    case Str(digits, bytes) => digits + [COLON] + bytes
  }

  function Encoded(t: Tree): (s: seq<Byte>)
    ensures s != []
  {
    if IsContainer(t) then [if t.Dct? then D else L] + EncodedItems(t.items) + [E] else EncodedLeaf(t)
  }

  function EncodedItems(items: seq<Tree>): seq<Byte> {
    if items == [] then [] else Encoded(items[0]) + EncodedItems(items[1..])
  }

  /** How an encoding begins. */
  lemma FirstByte(t: Tree)
    requires Proper(t)
    ensures Encoded(t)[0] != E && (IsDigit(Encoded(t)[0]) <==> t.Str?)
    ensures !IsContainer(t) ==> Encoded(t)[0] != D && Encoded(t)[0] != L
  {
    if t.Str? {
      assert Encoded(t)[0] == t.digits[0] && t.digits[0] in t.digits;
    }
  }

  /** The buffer has these bytes at p. */
  ghost predicate Has(s: seq<Byte>, p: nat, bytes: seq<Byte>) {
    p + |bytes| <= |s| && s[p..p + |bytes|] == bytes
  }

  lemma HasBoth(s: seq<Byte>, p: nat, a: seq<Byte>, b: seq<Byte>)
    ensures Has(s, p, a + b) <==> Has(s, p, a) && Has(s, p + |a|, b)
  {
    if Has(s, p, a + b) {
      assert s[p..p + |a|] == (a + b)[..|a|] == a;
      assert s[p + |a|..p + |a| + |b|] == (a + b)[|a|..] == b;
    }
    if Has(s, p, a) && Has(s, p + |a|, b) {
      assert s[p..p + |a + b|] == s[p..p + |a|] + s[p + |a|..p + |a| + |b|];
    }
  }

  lemma HasByte(s: seq<Byte>, p: nat, b: Byte)
    ensures Has(s, p, [b]) <==> p < |s| && s[p] == b
  {
  }

  lemma HasFirst(s: seq<Byte>, p: nat, a: seq<Byte>)
    requires Has(s, p, a) && a != []
    ensures p < |s| && s[p] == a[0]
  {
    assert s[p..p + |a|][0] == s[p];
  }

  /** The buffer has this tree at p. */
  ghost predicate At(s: seq<Byte>, p: nat, t: Tree) {
    Proper(t) && Has(s, p, Encoded(t))
  }

  // ---------- Reading ----------

  /** What was read, and where it ends. */
  datatype Result<T> = Fail | Done(value: T, end: nat)

  /** How integers and strings are read. */
  type Leaf = (seq<Byte>, nat) -> Result<Tree>

  ghost predicate Bounded(leaf: Leaf) {
    forall s, p: nat :: leaf(s, p).Done? ==> p < leaf(s, p).end <= |s|
  }

  /** The tree at p. */
  ghost function Read(leaf: Leaf, s: seq<Byte>, p: nat): (r: Result<Tree>)
    requires Bounded(leaf) && p <= |s|
    ensures r.Done? ==> p < r.end <= |s|
    decreases |s| - p, 0
  {
    if p == |s| then Fail
    else if s[p] == D then
      var r := ReadItems(leaf, s, p + 1, Key);
      if r == Fail then Fail else Done(Dct(r.value), r.end)
    else if s[p] == L then
      var r := ReadItems(leaf, s, p + 1, Item);
      if r == Fail then Fail else Done(Lst(r.value), r.end)
    else leaf(s, p)
  }

  /** The items from p up to the e that ends them. */
  ghost function ReadItems(leaf: Leaf, s: seq<Byte>, p: nat, d: Turn): (r: Result<seq<Tree>>)
    requires Bounded(leaf) && p <= |s|
    ensures r.Done? ==> p < r.end <= |s|
    decreases |s| - p, 1
  {
    if p == |s| then Fail
    else if s[p] == E then
      if d == Val then Fail else Done([], p + 1)
    else if d == Key && !IsDigit(s[p]) then Fail
    else
      var first := Read(leaf, s, p);
      if first == Fail then Fail
      else
        var rest := ReadItems(leaf, s, first.end, Next(d));
        if rest == Fail then Fail else Done([first.value] + rest.value, rest.end)
  }

  // ---------- What is read is what was encoded ----------

  /** A leaf that is read is a proper tree that is there. */
  ghost predicate SoundLeaf(leaf: Leaf) {
    forall s, p: nat :: leaf(s, p).Done? ==>
      var Done(t, end) := leaf(s, p);
      At(s, p, t) && !IsContainer(t) && end == p + |Encoded(t)|
  }

  /** A proper leaf that is there is read. */
  ghost predicate CompleteLeaf(leaf: Leaf) {
    forall s, p: nat, t :: At(s, p, t) && !IsContainer(t) ==> leaf(s, p) == Done(t, p + |Encoded(t)|)
  }

  lemma {:induction false} ReadIsProper(leaf: Leaf, s: seq<Byte>, p: nat)
    requires Bounded(leaf) && SoundLeaf(leaf) && p <= |s| && Read(leaf, s, p).Done?
    ensures var Done(t, end) := Read(leaf, s, p);
      At(s, p, t) && end == p + |Encoded(t)|
    decreases |s| - p, 0
  {
    if s[p] == D || s[p] == L {
      var d := if s[p] == D then Key else Item;
      ItemsAreProper(leaf, s, p + 1, d);
      TagHas(s, p, s[p], EncodedItems(ReadItems(leaf, s, p + 1, d).value));
    }
  }

  lemma TagHas(s: seq<Byte>, p: nat, tag: Byte, body: seq<Byte>)
    ensures Has(s, p, [tag] + body + [E]) <==> p < |s| && s[p] == tag && Has(s, p + 1, body + [E])
  {
    assert [tag] + body + [E] == [tag] + (body + [E]);
    HasBoth(s, p, [tag], body + [E]);
    HasByte(s, p, tag);
  }

  lemma {:induction false} ItemsAreProper(leaf: Leaf, s: seq<Byte>, p: nat, d: Turn)
    requires Bounded(leaf) && SoundLeaf(leaf) && p <= |s| && ReadItems(leaf, s, p, d).Done?
    ensures var Done(items, end) := ReadItems(leaf, s, p, d);
      ProperItems(items, d) && Has(s, p, EncodedItems(items) + [E]) && end == p + |EncodedItems(items)| + 1
    decreases |s| - p, 1
  {
    if s[p] == E {
      HasByte(s, p, E);
    } else {
      ReadIsProper(leaf, s, p);
      ItemsAreProper(leaf, s, Read(leaf, s, p).end, Next(d));
      ItemsJoin(s, p, Read(leaf, s, p).value, ReadItems(leaf, s, Read(leaf, s, p).end, Next(d)).value, d);
    }
  }

  lemma ItemsJoin(s: seq<Byte>, p: nat, t: Tree, rest: seq<Tree>, d: Turn)
    requires At(s, p, t) && (d == Key ==> IsDigit(s[p]))
    requires ProperItems(rest, Next(d)) && Has(s, p + |Encoded(t)|, EncodedItems(rest) + [E])
    ensures ProperItems([t] + rest, d) && Has(s, p, EncodedItems([t] + rest) + [E])
    ensures |EncodedItems([t] + rest)| == |Encoded(t)| + |EncodedItems(rest)|
  {
    FirstByte(t);
    HasFirst(s, p, Encoded(t));
    OneMoreProper(t, rest, d);
    OneMoreHas(s, p, t, rest);
  }

  lemma OneMoreProper(t: Tree, rest: seq<Tree>, d: Turn)
    requires Proper(t) && (d == Key ==> t.Str?) && ProperItems(rest, Next(d))
    ensures ProperItems([t] + rest, d)
  {
    assert ([t] + rest)[1..] == rest;
  }

  lemma OneMoreHas(s: seq<Byte>, p: nat, t: Tree, rest: seq<Tree>)
    ensures Has(s, p, EncodedItems([t] + rest) + [E]) <==>
            Has(s, p, Encoded(t)) && Has(s, p + |Encoded(t)|, EncodedItems(rest) + [E])
    ensures |EncodedItems([t] + rest)| == |Encoded(t)| + |EncodedItems(rest)|
  {
    assert ([t] + rest)[1..] == rest;
    HasSplit(s, p, Encoded(t), EncodedItems(rest), [E]);
  }

  lemma {:induction false} EncodedIsRead(leaf: Leaf, s: seq<Byte>, p: nat, t: Tree)
    requires Bounded(leaf) && CompleteLeaf(leaf) && At(s, p, t)
    ensures Read(leaf, s, p) == Done(t, p + |Encoded(t)|)
    decreases t, 0
  {
    FirstByte(t);
    HasFirst(s, p, Encoded(t));
    if IsContainer(t) {
      TagHas(s, p, if t.Dct? then D else L, EncodedItems(t.items));
      ItemsAreRead(leaf, s, p + 1, t.items, FirstTurn(t));
    }
  }

  lemma {:induction false} ItemsAreRead(leaf: Leaf, s: seq<Byte>, p: nat, items: seq<Tree>, d: Turn)
    requires Bounded(leaf) && CompleteLeaf(leaf) && ProperItems(items, d) && Has(s, p, EncodedItems(items) + [E])
    ensures ReadItems(leaf, s, p, d) == Done(items, p + |EncodedItems(items)| + 1)
    decreases items, 1
  {
    if items == [] {
      NoItems(leaf, s, p, d);
    } else {
      ItemsSplit(s, p, items, d);
      EncodedIsRead(leaf, s, p, items[0]);
      ItemsAreRead(leaf, s, p + |Encoded(items[0])|, items[1..], Next(d));
      ReadsNext(leaf, s, p, items, d);
    }
  }

  lemma NoItems(leaf: Leaf, s: seq<Byte>, p: nat, d: Turn)
    requires Bounded(leaf) && d != Val && Has(s, p, EncodedItems([]) + [E])
    ensures ReadItems(leaf, s, p, d) == Done([], p + |EncodedItems([])| + 1)
  {
    assert EncodedItems([]) + [E] == [E];
    HasByte(s, p, E);
  }

  lemma ItemsSplit(s: seq<Byte>, p: nat, items: seq<Tree>, d: Turn)
    requires ProperItems(items, d) && Has(s, p, EncodedItems(items) + [E]) && items != []
    ensures At(s, p, items[0]) && p < |s| && s[p] != E && (d == Key ==> IsDigit(s[p]))
    ensures ProperItems(items[1..], Next(d)) && Has(s, p + |Encoded(items[0])|, EncodedItems(items[1..]) + [E])
    ensures |EncodedItems(items)| == |Encoded(items[0])| + |EncodedItems(items[1..])|
  {
    OneMoreIn(s, p, items);
    LengthIsSum(items);
    FirstByte(items[0]);
    HasFirst(s, p, Encoded(items[0]));
  }

  lemma ReadsNext(leaf: Leaf, s: seq<Byte>, p: nat, items: seq<Tree>, d: Turn)
    requires Bounded(leaf) && p < |s| && s[p] != E && (d == Key ==> IsDigit(s[p])) && items != []
    requires Read(leaf, s, p).Done? && Read(leaf, s, p).value == items[0]
    requires var rest := ReadItems(leaf, s, Read(leaf, s, p).end, Next(d));
      rest.Done? && rest.value == items[1..]
    ensures ReadItems(leaf, s, p, d) == Done(items, ReadItems(leaf, s, Read(leaf, s, p).end, Next(d)).end)
  {
    HeadAndTail(items);
  }

  lemma LengthIsSum(items: seq<Tree>)
    requires items != []
    ensures |EncodedItems(items)| == |Encoded(items[0])| + |EncodedItems(items[1..])|
  {
  }

  lemma HeadAndTail(items: seq<Tree>)
    requires items != []
    ensures [items[0]] + items[1..] == items
  {
  }

  // ---------- Integers and strings ----------

  /** Where the digits from p on end. */
  function DigitsEnd(s: seq<Byte>, p: nat): (q: nat)
    requires p <= |s|
    ensures p <= q <= |s|
    ensures q < |s| ==> !IsDigit(s[q])
    ensures forall k :: p <= k < q ==> IsDigit(s[k])
    decreases |s| - p
  {
    if p == |s| || !IsDigit(s[p]) then p else DigitsEnd(s, p + 1)
  }

  lemma {:induction false} DigitsEndAt(s: seq<Byte>, p: nat, q: nat)
    requires p <= q <= |s| && (forall k :: p <= k < q ==> IsDigit(s[k])) && (q < |s| ==> !IsDigit(s[q]))
    ensures DigitsEnd(s, p) == q
    decreases q - p
  {
    if p < q {
      DigitsEndAt(s, p + 1, q);
    }
  }

  function ReadLeaf(s: seq<Byte>, p: nat): Result<Tree> {
    if p >= |s| then Fail else if s[p] == I then ReadInt(s, p) else ReadStr(s, p)
  }

  function ReadInt(s: seq<Byte>, p: nat): Result<Tree>
    requires p < |s|
  {
    if p + 1 < |s| && s[p + 1] == MINUS then ReadDigits(s, p + 2, true) else ReadDigits(s, p + 1, false)
  }

  function ReadDigits(s: seq<Byte>, at: nat, negative: bool): Result<Tree>
    requires at <= |s|
  {
    var q := DigitsEnd(s, at);
    if at < q < |s| && s[q] == E then Done(Int(negative, s[at..q]), q + 1) else Fail
  }

  function ReadStr(s: seq<Byte>, p: nat): Result<Tree>
    requires p < |s|
  {
    var q := DigitsEnd(s, p);
    if p < q < |s| && s[q] == COLON && q + 1 + Value(s[p..q]) <= |s| then
      Done(Str(s[p..q], s[q + 1..q + 1 + Value(s[p..q])]), q + 1 + Value(s[p..q]))
    else Fail
  }

  lemma StrHas(s: seq<Byte>, p: nat, digits: seq<Byte>, bytes: seq<Byte>)
    ensures Has(s, p, digits + [COLON] + bytes) <==>
            && Has(s, p, digits) && p + |digits| < |s| && s[p + |digits|] == COLON && Has(s, p + |digits| + 1, bytes)
  {
    HasBoth(s, p, digits + [COLON], bytes);
    HasBoth(s, p, digits, [COLON]);
    HasByte(s, p + |digits|, COLON);
  }

  lemma HasThree(s: seq<Byte>, p: nat, a: seq<Byte>, b: seq<Byte>, c: Byte)
    ensures Has(s, p, a + b + [c]) <==>
            Has(s, p, a) && Has(s, p + |a|, b) && p + |a| + |b| < |s| && s[p + |a| + |b|] == c
  {
    HasBoth(s, p, a + b, [c]);
    HasBoth(s, p, a, b);
    HasByte(s, p + |a| + |b|, c);
  }

  lemma IntHeadHas(s: seq<Byte>, p: nat)
    ensures Has(s, p, IntHead(true)) <==> p + 1 < |s| && s[p] == I && s[p + 1] == MINUS
    ensures Has(s, p, IntHead(false)) <==> p < |s| && s[p] == I
  {
    assert [I, MINUS] == [I] + [MINUS];
    HasBoth(s, p, [I], [MINUS]);
    HasByte(s, p, I);
    HasByte(s, p + 1, MINUS);
  }

  lemma DigitsHas(s: seq<Byte>, p: nat, digits: seq<Byte>)
    requires Has(s, p, digits)
    ensures (forall b :: b in digits ==> IsDigit(b)) <==> forall k :: p <= k < p + |digits| ==> IsDigit(s[k])
  {
    forall k | p <= k < p + |digits|
      ensures s[k] == digits[k - p]
    {
      assert s[p..p + |digits|][k - p] == s[k];
    }
    if forall k :: p <= k < p + |digits| ==> IsDigit(s[k]) {
      forall b | b in digits
        ensures IsDigit(b)
      {
        var k :| 0 <= k < |digits| && digits[k] == b;
        assert s[p + k] == b;
      }
    }
  }

  lemma LeafIsSound()
    ensures SoundLeaf(ReadLeaf) && Bounded(ReadLeaf)
  {
    forall s, p: nat | ReadLeaf(s, p).Done?
      ensures var Done(t, end) := ReadLeaf(s, p);
        At(s, p, t) && !IsContainer(t) && end == p + |Encoded(t)|
    {
      if s[p] == I {
        IntIsProper(s, p);
      } else {
        StrIsProper(s, p);
      }
    }
  }

  lemma StrIsProper(s: seq<Byte>, p: nat)
    requires p < |s| && ReadStr(s, p).Done?
    ensures var Done(t, end) := ReadStr(s, p);
      At(s, p, t) && t.Str? && end == p + |Encoded(t)|
  {
    var Done(t, end) := ReadStr(s, p);
    DigitsHas(s, p, t.digits);
    StrHas(s, p, t.digits, t.bytes);
  }

  lemma IntIsProper(s: seq<Byte>, p: nat)
    requires p < |s| && s[p] == I && ReadInt(s, p).Done?
    ensures var Done(t, end) := ReadInt(s, p);
      At(s, p, t) && t.Int? && end == p + |Encoded(t)|
  {
    IntHeadHas(s, p);
    if p + 1 < |s| && s[p + 1] == MINUS {
      DigitsAreProper(s, p, true);
    } else {
      DigitsAreProper(s, p, false);
    }
  }

  lemma DigitsAreProper(s: seq<Byte>, p: nat, negative: bool)
    requires Has(s, p, IntHead(negative)) && ReadDigits(s, p + |IntHead(negative)|, negative).Done?
    ensures var Done(t, end) := ReadDigits(s, p + |IntHead(negative)|, negative);
      At(s, p, t) && t.Int? && end == p + |Encoded(t)|
  {
    var Done(t, end) := ReadDigits(s, p + |IntHead(negative)|, negative);
    DigitsHas(s, p + |IntHead(negative)|, t.digits);
    HasThree(s, p, IntHead(negative), t.digits, E);
  }

  lemma LeafIsComplete()
    ensures CompleteLeaf(ReadLeaf)
  {
    forall s, p: nat, t | At(s, p, t) && !IsContainer(t)
      ensures ReadLeaf(s, p) == Done(t, p + |Encoded(t)|)
    {
      if t.Int? {
        IntIsRead(s, p, t);
      } else {
        StrIsRead(s, p, t);
      }
    }
  }

  lemma IntIsRead(s: seq<Byte>, p: nat, t: Tree)
    requires At(s, p, t) && t.Int?
    ensures ReadLeaf(s, p) == Done(t, p + |Encoded(t)|)
  {
    var at := p + |IntHead(t.negative)|;
    HasThree(s, p, IntHead(t.negative), t.digits, E);
    DigitsAreRead(s, at, t.negative, t.digits);
    IntHeadHas(s, p);
    HasFirst(s, at, t.digits);
    assert t.digits[0] in t.digits;
  }

  lemma DigitsAreRead(s: seq<Byte>, at: nat, negative: bool, digits: seq<Byte>)
    requires Digits(digits) && Has(s, at, digits) && at + |digits| < |s| && s[at + |digits|] == E
    ensures ReadDigits(s, at, negative) == Done(Int(negative, digits), at + |digits| + 1)
  {
    DigitsHas(s, at, digits);
    DigitsEndAt(s, at, at + |digits|);
  }

  lemma StrIsRead(s: seq<Byte>, p: nat, t: Tree)
    requires At(s, p, t) && t.Str?
    ensures ReadLeaf(s, p) == Done(t, p + |Encoded(t)|)
  {
    StrHas(s, p, t.digits, t.bytes);
    DigitsHas(s, p, t.digits);
    HasFirst(s, p, t.digits);
    assert t.digits[0] in t.digits;
    DigitsEndAt(s, p, p + |t.digits|);
  }

  /** At a place there is at most one tree: no encoding is the beginning of another. */
  lemma Unambiguous(s: seq<Byte>, p: nat, t: Tree, u: Tree)
    requires At(s, p, t) && At(s, p, u)
    ensures t == u
  {
    LeafIsSound();
    LeafIsComplete();
    EncodedIsRead(ReadLeaf, s, p, t);
    EncodedIsRead(ReadLeaf, s, p, u);
  }

  // ---------- The validator ----------

  /** The last byte of what was read. */
  function Last<T>(r: Result<T>): Option<nat> {
    if r.Fail? || r.end == 0 then None else Some(r.end - 1)
  }

  /** What benc_validate_aux counts: nothing in a list, and in a dictionary an odd number before a key. */
  function TurnOf(d: nat): Turn {
    if d == 0 then Item else if d % 2 == 1 then Key else Val
  }

  lemma TurnNext(d: nat)
    ensures d > 0 ==> TurnOf(d + 1) == Next(TurnOf(d))
    ensures d == 0 ==> TurnOf(d) == Next(TurnOf(d))
  {
  }

  /** Where the items end, by the first of them. */
  lemma ItemsNext(leaf: Leaf, s: seq<Byte>, p: nat, d: Turn)
    requires Bounded(leaf) && p < |s| && s[p] != E
    ensures var first, all := Read(leaf, s, p), Last(ReadItems(leaf, s, p, d));
      if (d == Key && !IsDigit(s[p])) || first.Fail? then all == None
      else all == Last(ReadItems(leaf, s, first.end, Next(d)))
  {
  }

  lemma ItemsStop(leaf: Leaf, s: seq<Byte>, p: nat, d: Turn)
    requires Bounded(leaf) && p <= |s| && (p < |s| ==> s[p] == E)
    ensures Last(ReadItems(leaf, s, p, d)) == if p == |s| || d == Val then None else Some(p)
  {
  }

  /** benc_validate_aux */
  method ValidateAux(s: seq<Byte>, p: nat) returns (r: Option<nat>)
    requires Bounded(ReadLeaf) && p < |s|
    ensures r == Last(Read(ReadLeaf, s, p))
    decreases |s| - p, 1
  {
    if s[p] == D {
      r := ValidateItems(s, p + 1, 1);
    } else if s[p] == L {
      r := ValidateItems(s, p + 1, 0);
    } else if s[p] == I {
      r := ValidateInt(s, p);
    } else {
      r := ValidateStr(s, p);
    }
  }

  /** The loop of benc_validate_aux. */
  method ValidateItems(s: seq<Byte>, start: nat, dct: nat) returns (r: Option<nat>)
    requires Bounded(ReadLeaf) && start <= |s|
    ensures r == Last(ReadItems(ReadLeaf, s, start, TurnOf(dct)))
    decreases |s| - start, 3
  {
    var p, d := start, dct;
    while p < |s| && s[p] != E
      invariant start <= p <= |s|
      invariant Last(ReadItems(ReadLeaf, s, p, TurnOf(d))) == Last(ReadItems(ReadLeaf, s, start, TurnOf(dct)))
      decreases |s| - p
    {
      var next;
      next, d := ValidateItem(s, p, d);
      if next == None {
        return None;
      }
      p := next.value;
    }
    ItemsStop(ReadLeaf, s, p, TurnOf(d));
    if p >= |s| || (d != 0 && d % 2 != 1) {
      return None;
    }
    r := Some(p);
  }

  /** One turn of the loop of benc_validate_aux. */
  method ValidateItem(s: seq<Byte>, p: nat, count: nat) returns (next: Option<nat>, d: nat)
    requires Bounded(ReadLeaf) && p < |s| && s[p] != E
    ensures var end := Last(ReadItems(ReadLeaf, s, p, TurnOf(count)));
      if next == None then end == None
      else p < next.value <= |s| && end == Last(ReadItems(ReadLeaf, s, next.value, TurnOf(d)))
    decreases |s| - p, 2
  {
    d := count;
    TurnNext(d);
    ItemsNext(ReadLeaf, s, p, TurnOf(d));
    if d != 0 {
      if d % 2 == 1 && !IsDigit(s[p]) {
        return None, d;
      } else {
        d := d + 1;
      }
    }
    var end := ValidateAux(s, p);
    next := if end == None then None else Some(end.value + 1);
  }

  /** Past the digits at start, with the number they are: the loop of benc_validate_aux, and strtoul. */
  method ReadNumber(s: seq<Byte>, start: nat) returns (p: nat, len: nat)
    requires start <= |s|
    ensures p == DigitsEnd(s, start) && len == Value(s[start..p])
  {
    p, len := start, 0;
    while p < |s| && IsDigit(s[p])
      invariant start <= p <= |s| && DigitsEnd(s, start) == DigitsEnd(s, p)
      invariant len == Value(s[start..p])
    {
      ValueNext(s, start, p);
      len := len * 10 + Digit(s[p]);
      p := p + 1;
    }
  }

  lemma ValueNext(s: seq<Byte>, start: nat, p: nat)
    requires start <= p < |s|
    ensures Value(s[start..p + 1]) == Value(s[start..p]) * 10 + Digit(s[p])
  {
    assert s[start..p + 1][..p - start] == s[start..p];
  }

  method ValidateInt(s: seq<Byte>, start: nat) returns (r: Option<nat>)
    requires start < |s|
    ensures r == Last(ReadInt(s, start))
  {
    var p := start + 1;
    if p >= |s| {
      return None;
    }
    if s[p] == MINUS {
      p := p + 1;
    }
    if p >= |s| || !IsDigit(s[p]) {
      return None;
    }
    p := p + 1;
    while p < |s| && IsDigit(s[p])
      invariant p <= |s| && DigitsEnd(s, p) == DigitsEnd(s, if s[start + 1] == MINUS then start + 2 else start + 1)
    {
      p := p + 1;
    }
    if p >= |s| || s[p] != E {
      return None;
    }
    r := Some(p);
  }

  method ValidateStr(s: seq<Byte>, start: nat) returns (r: Option<nat>)
    requires start < |s|
    ensures r == Last(ReadStr(s, start))
  {
    if !IsDigit(s[start]) {
      return None;
    }
    var p, len := ReadNumber(s, start);
    if p < |s| && s[p] == COLON && p + len < |s| {
      r := Some(p + len);
    } else {
      r := None;
    }
  }

  /** benc_validate: exactly the encodings of a tree are accepted. */
  method Validate(s: seq<Byte>) returns (ok: bool)
    ensures ok <==> exists t :: Proper(t) && Encoded(t) == s
  {
    if s == [] {
      return false;
    }
    LeafIsSound();
    var end := ValidateAux(s, 0);
    ok := end == Some(|s| - 1);
    LeafIsComplete();
    EndIsAll(ReadLeaf, s);
  }

  lemma EndIsAll(leaf: Leaf, s: seq<Byte>)
    requires Bounded(leaf) && SoundLeaf(leaf) && CompleteLeaf(leaf) && s != []
    ensures Last(Read(leaf, s, 0)) == Some(|s| - 1) <==> exists t :: Proper(t) && Encoded(t) == s
  {
    if Last(Read(leaf, s, 0)) == Some(|s| - 1) {
      ReadIsProper(leaf, s, 0);
      WholeHas(s, Encoded(Read(leaf, s, 0).value));
    }
    forall t | Proper(t) && Encoded(t) == s
      ensures Last(Read(leaf, s, 0)) == Some(|s| - 1)
    {
      WholeHas(s, s);
      EncodedIsRead(leaf, s, 0, t);
    }
  }

  lemma WholeHas(s: seq<Byte>, bytes: seq<Byte>)
    requires |bytes| == |s|
    ensures Has(s, 0, bytes) <==> bytes == s
  {
    assert s[0..|s|] == s;
  }

  // ---------- Walking ----------

  /** Where item k of the list or dictionary at p begins, and the e behind the last one. */
  ghost function ItemStart(p: nat, items: seq<Tree>, k: nat): nat
    requires k <= |items|
  {
    p + 1 + |EncodedItems(items[..k])|
  }

  /** The items from the k-th on are behind p. */
  lemma {:induction false} ItemsFrom(s: seq<Byte>, p: nat, items: seq<Tree>, k: nat)
    requires Has(s, p, EncodedItems(items) + [E]) && k <= |items|
    ensures Has(s, p + |EncodedItems(items[..k])|, EncodedItems(items[k..]) + [E])
    decreases k
  {
    if k == 0 {
      assert items[..0] == [] && items[0..] == items;
    } else {
      OneMoreIn(s, p, items);
      ItemsFrom(s, p + |Encoded(items[0])|, items[1..], k - 1);
      assert items[..k][1..] == items[1..][..k - 1] && items[1..][k - 1..] == items[k..];
    }
  }

  lemma OneMoreIn(s: seq<Byte>, p: nat, items: seq<Tree>)
    requires items != [] && Has(s, p, EncodedItems(items) + [E])
    ensures Has(s, p, Encoded(items[0])) && Has(s, p + |Encoded(items[0])|, EncodedItems(items[1..]) + [E])
  {
    HasSplit(s, p, Encoded(items[0]), EncodedItems(items[1..]), [E]);
  }

  lemma HasSplit(s: seq<Byte>, p: nat, a: seq<Byte>, b: seq<Byte>, c: seq<Byte>)
    ensures Has(s, p, a + b + c) <==> Has(s, p, a) && Has(s, p + |a|, b + c)
  {
    Associative(a, b, c);
    HasBoth(s, p, a, b + c);
  }

  lemma {:induction false} ProperFrom(items: seq<Tree>, d: Turn, k: nat)
    requires ProperItems(items, d) && k <= |items|
    ensures ProperItems(items[k..], TurnAt(d, k))
    decreases k
  {
    if k == 0 {
      assert items[0..] == items;
    } else {
      ProperFrom(items[1..], Next(d), k - 1);
      assert items[1..][k - 1..] == items[k..];
    }
  }

  /** The turn after k more items. */
  function TurnAt(d: Turn, k: nat): Turn
    decreases k
  {
    if k == 0 then d else TurnAt(Next(d), k - 1)
  }

  /** The item at its place, and the e behind the last one. */
  lemma ItemAt(s: seq<Byte>, p: nat, t: Tree, k: nat)
    requires At(s, p, t) && IsContainer(t) && k <= |t.items|
    ensures ItemStart(p, t.items, k) < |s| && p < |s| && s[p] == if t.Dct? then D else L
    ensures s[ItemStart(p, t.items, k)] == E <==> k == |t.items|
    ensures k < |t.items| ==>
      && At(s, ItemStart(p, t.items, k), t.items[k])
      && (TurnAt(FirstTurn(t), k) == Key ==> t.items[k].Str?)
      && ItemStart(p, t.items, k + 1) == ItemStart(p, t.items, k) + |Encoded(t.items[k])|
    ensures k == |t.items| ==> ItemStart(p, t.items, k) == p + |Encoded(t)| - 1 && TurnAt(FirstTurn(t), k) != Val
  {
    TagHas(s, p, if t.Dct? then D else L, EncodedItems(t.items));
    ItemsFrom(s, p + 1, t.items, k);
    ProperFrom(t.items, FirstTurn(t), k);
    var q, rest := ItemStart(p, t.items, k), t.items[k..];
    if k == |t.items| {
      assert t.items[..k] == t.items;
      HasByte(s, q, E);
      assert EncodedItems(rest) + [E] == [E];
    } else {
      OneMoreIn(s, q, rest);
      FirstByte(rest[0]);
      HasFirst(s, q, Encoded(rest[0]));
      TakeOneMore(t.items, k);
    }
  }

  lemma {:induction false} TakeOneMore(items: seq<Tree>, k: nat)
    requires k < |items|
    ensures |EncodedItems(items[..k + 1])| == |EncodedItems(items[..k])| + |Encoded(items[k])|
  {
    if k == 0 {
      assert items[..1][1..] == [];
    } else {
      TakeOneMore(items[1..], k - 1);
      assert items[..k][1..] == items[1..][..k - 1] && items[..k + 1][1..] == items[1..][..k];
    }
  }

  /** benc_mem: where a string's bytes are, and how many. */
  method Mem(s: seq<Byte>, p: nat, ghost t: Tree) returns (at: nat, len: nat)
    requires At(s, p, t) && t.Str?
    ensures Has(s, at, t.bytes) && len == |t.bytes| && at + len == p + |Encoded(t)|
  {
    StrIsRead(s, p, t);
    StrHas(s, p, t.digits, t.bytes);
    var q;
    q, len := ReadNumber(s, p);
    at := q + 1;
  }

  /** benc_length: the bytes of the tree at p. */
  method Length(s: seq<Byte>, p: nat, ghost t: Tree) returns (blen: nat)
    requires At(s, p, t)
    ensures blen == |Encoded(t)|
    decreases t
  {
    FirstByte(t);
    HasFirst(s, p, Encoded(t));
    if s[p] == D || s[p] == L {
      blen := LengthOfItems(s, p, t);
    } else if s[p] == I {
      blen := LengthOfInt(s, p, t);
    } else {
      var at, len := Mem(s, p, t);
      blen := at - p + len;
    }
  }

  method LengthOfItems(s: seq<Byte>, p: nat, ghost t: Tree) returns (blen: nat)
    requires At(s, p, t) && IsContainer(t)
    ensures blen == |Encoded(t)|
    decreases t, 0
  {
    blen := 2;
    var next := p + 1;
    ghost var k := 0;
    ItemAt(s, p, t, 0);
    assert t.items[..0] == [];
    while s[next] != E
      invariant k <= |t.items| && next == ItemStart(p, t.items, k) < |s| && blen == 2 + (next - (p + 1))
      decreases |t.items| - k
    {
      ItemAt(s, p, t, k);
      var len := Length(s, next, t.items[k]);
      blen := blen + len;
      next := next + len;
      k := k + 1;
      ItemAt(s, p, t, k);
    }
    ItemAt(s, p, t, k);
  }

  method LengthOfInt(s: seq<Byte>, p: nat, ghost t: Tree) returns (blen: nat)
    requires At(s, p, t) && t.Int?
    ensures blen == |Encoded(t)|
  {
    var next := p + 1;
    ghost var end := p + |Encoded(t)| - 1;
    FirstE(s, p, t);
    while s[next] != E
      invariant p < next <= end
      decreases end - next
    {
      next := next + 1;
    }
    blen := next - p + 1;
  }

  lemma FirstE(s: seq<Byte>, p: nat, t: Tree)
    requires At(s, p, t) && t.Int?
    ensures var end := p + |Encoded(t)| - 1;
      p < end < |s| && s[end] == E && forall k :: p < k < end ==> s[k] != E
  {
    var at := p + |IntHead(t.negative)|;
    HasThree(s, p, IntHead(t.negative), t.digits, E);
    IntHeadHas(s, p);
    DigitsHas(s, at, t.digits);
  }

  /** benc_first: the first item, if there is one. */
  method First(s: seq<Byte>, p: nat, ghost t: Tree) returns (q: Option<nat>)
    requires At(s, p, t) && IsContainer(t)
    ensures q == if t.items == [] then None else Some(ItemStart(p, t.items, 0))
  {
    ItemAt(s, p, t, 0);
    assert t.items[..0] == [];
    q := if s[p + 1] == E then None else Some(p + 1);
  }

  /** benc_next: the item behind item k, if there is one. */
  method NextItem(s: seq<Byte>, q: nat, ghost p: nat, ghost t: Tree, ghost k: nat) returns (r: Option<nat>)
    requires At(s, p, t) && IsContainer(t) && k < |t.items| && q == ItemStart(p, t.items, k)
    ensures r == if k + 1 == |t.items| then None else Some(ItemStart(p, t.items, k + 1))
  {
    ItemAt(s, p, t, k);
    var blen := Length(s, q, t.items[k]);
    ItemAt(s, p, t, k + 1);
    r := if s[q + blen] == E then None else Some(q + blen);
  }

  /** benc_nelems */
  method Nelems(s: seq<Byte>, p: nat, ghost t: Tree) returns (nelems: nat)
    requires At(s, p, t) && IsContainer(t)
    ensures nelems == |t.items|
  {
    nelems := 0;
    var q := First(s, p, t);
    while q != None
      invariant nelems <= |t.items| && q == if nelems == |t.items| then None else Some(ItemStart(p, t.items, nelems))
      decreases |t.items| - nelems
    {
      q := NextItem(s, q.value, p, t, nelems);
      nelems := nelems + 1;
    }
  }

  // ---------- Looking up ----------

  /** The first key from item k on that is wanted; all items when there is none. */
  function FirstKey(items: seq<Tree>, key: seq<Byte>, k: nat): (r: nat)
    requires k <= |items|
    ensures r <= |items|
    decreases |items| - k
  {
    if k + 1 >= |items| then |items|
    else if items[k].Str? && items[k].bytes == key then k
    else FirstKey(items, key, k + 2)
  }

  /** It is the first of the keys, which are every other item. */
  lemma {:induction false} FirstKeyIsFirst(items: seq<Tree>, key: seq<Byte>, k: nat)
    requires k <= |items|
    ensures var r := FirstKey(items, key, k);
      && (r < |items| ==> r + 1 < |items| && k <= r && items[r].Str? && items[r].bytes == key)
      && forall j: nat :: k + 2 * j < r && k + 2 * j + 1 < |items| && items[k + 2 * j].Str? ==>
         items[k + 2 * j].bytes != key
    decreases |items| - k
  {
    if k + 1 < |items| && !(items[k].Str? && items[k].bytes == key) {
      FirstKeyIsFirst(items, key, k + 2);
      var r := FirstKey(items, key, k);
      forall j: nat | k + 2 * j < r && k + 2 * j + 1 < |items| && items[k + 2 * j].Str?
        ensures items[k + 2 * j].bytes != key
      {
        if j > 0 {
          assert k + 2 * j == k + 2 + 2 * (j - 1);
        }
      }
    }
  }

  /** strncmp(bstr, key, blen) == 0, where key ends with a zero byte. */
  method SameString(s: seq<Byte>, at: nat, key: seq<Byte>, blen: nat) returns (same: bool)
    requires at + blen <= |s| && forall b :: b in key ==> b != 0
    ensures blen == |key| ==> (same <==> s[at..at + blen] == key)
  {
    var i := 0;
    while i < blen
      invariant i <= blen && i <= |key| && forall j :: 0 <= j < i ==> s[at + j] == key[j]
    {
      var b := if i < |key| then key[i] else 0;
      if s[at + i] != b {
        assert blen == |key| ==> s[at..at + blen][i] != key[i];
        return false;
      }
      if b == 0 {
        assert i < |key| ==> key[i] in key;
        return true;
      }
      i := i + 1;
    }
    same := true;
  }

  /** benc_dget_any: the value of the first key that matches, whatever comes after it. */
  method DgetAny(s: seq<Byte>, p: nat, key: seq<Byte>, ghost t: Tree) returns (r: Option<nat>)
    requires At(s, p, t) && forall b :: b in key ==> b != 0
    ensures !t.Dct? ==> r == None
    ensures t.Dct? ==>
      var k := FirstKey(t.items, key, 0);
      r == if k == |t.items| then None else Some(ItemStart(p, t.items, k + 1))
  {
    FirstByte(t);
    HasFirst(s, p, Encoded(t));
    if s[p] != D {
      return None;
    }
    var q := First(s, p, t);
    ghost var k: nat := 0;
    while q != None
      invariant k <= |t.items| && q == (if k == |t.items| then None else Some(ItemStart(p, t.items, k)))
      invariant FirstKey(t.items, key, k) == FirstKey(t.items, key, 0) && TurnAt(Key, k) == Key
      decreases |t.items| - k
    {
      var next, same := MatchKey(s, q.value, key, p, t, k);
      if same {
        return Some(next);
      }
      q := NextItem(s, next, p, t, k + 1);
      TurnTwice(Key, k);
      k := k + 2;
    }
    r := None;
  }

  lemma {:induction false} TurnTwice(d: Turn, k: nat)
    ensures TurnAt(d, k + 1) == Next(TurnAt(d, k)) && TurnAt(d, k + 2) == Next(Next(TurnAt(d, k)))
    decreases k
  {
    if k == 0 {
    } else {
      TurnTwice(Next(d), k - 1);
    }
  }

  /** The key at q is read and compared; its value is next. */
  method MatchKey(s: seq<Byte>, q: nat, key: seq<Byte>, ghost p: nat, ghost t: Tree, ghost k: nat)
      returns (next: nat, same: bool)
    requires At(s, p, t) && t.Dct? && k < |t.items| && q == ItemStart(p, t.items, k) && TurnAt(Key, k) == Key
    requires forall b :: b in key ==> b != 0
    ensures k + 1 < |t.items| && next == ItemStart(p, t.items, k + 1) && t.items[k].Str?
    ensures same <==> t.items[k].bytes == key
  {
    ItemAt(s, p, t, k);
    TurnTwice(Key, k);
    ItemAt(s, p, t, k + 1);
    var at, blen := Mem(s, q, t.items[k]);
    next := at + blen;
    var cmp := SameString(s, at, key, blen);
    same := cmp && |key| == blen;
  }
}
