// Compact receipts in a snapshot: 11-character fingerprints and delta coding.
module Receipts {
  import opened Logs
  import opened Journal
  import opened Choreography

  // ---------------------------------------------------------------- fingerprints

  // The URL-safe base 64 alphabet.
  function DigitChar(d: nat): char
    requires d < 64
  {
    if d < 26 then 'A' + d as char
    else if d < 52 then 'a' + (d - 26) as char
    else if d < 62 then '0' + (d - 52) as char
    else if d == 62 then '-' else '_'
  }

  function CharDigit(c: char): Option<nat> {
    if 'A' <= c <= 'Z' then Some((c - 'A') as nat)
    else if 'a' <= c <= 'z' then Some((c - 'a') as nat + 26)
    else if '0' <= c <= '9' then Some((c - '0') as nat + 52)
    else if c == '-' then Some(62)
    else if c == '_' then Some(63)
    else None
  }

  lemma DigitsInvert(d: nat)
    requires d < 64
    ensures CharDigit(DigitChar(d)) == Some(d)
  {}

  lemma CharsInvert(c: char)
    requires CharDigit(c).Some?
    ensures CharDigit(c).value < 64 && DigitChar(CharDigit(c).value) == c
  {}

  // v in n digits, most significant first.
  function Digits(v: nat, n: nat): (t: string)
    ensures |t| == n
  {
    if n == 0 then "" else Digits(v / 64, n - 1) + [DigitChar(v % 64)]
  }

  // The value of a digit string, if every character is a digit.
  function Value(t: string): Option<nat> {
    if t == "" then Some(0)
    else
      var high, low := Value(t[..|t| - 1]), CharDigit(t[|t| - 1]);
      if high.None? || low.None? then None else Some(high.value * 64 + low.value)
  }

  function Pow64(n: nat): (p: nat)
    ensures p > 0
  {
    if n == 0 then 1 else 64 * Pow64(n - 1)
  }

  lemma {:induction false} DigitsValue(v: nat, n: nat)
    requires v < Pow64(n)
    ensures Value(Digits(v, n)) == Some(v)
  {
    if n > 0 {
      DigitsValue(v / 64, n - 1);
      DigitsInvert(v % 64);
      var t := Digits(v, n);
      assert t[..|t| - 1] == Digits(v / 64, n - 1);
    }
  }

  lemma {:induction false} ValueDigits(t: string)
    requires Value(t).Some?
    ensures Value(t).value < Pow64(|t|) && Digits(Value(t).value, |t|) == t
  {
    if t != "" {
      var init := t[..|t| - 1];
      ValueDigits(init);
      CharsInvert(t[|t| - 1]);
      var high, low := Value(init).value, CharDigit(t[|t| - 1]).value;
      assert (high * 64 + low) / 64 == high && (high * 64 + low) % 64 == low;
      assert t == init + [t[|t| - 1]];
    }
  }

  function EncodeFingerprint(v: U64): string {
    Digits(v, 11)
  }

  // Eleven digits hold 66 bits, so the first one may not exceed 15.
  function DecodeFingerprint(t: string): Option<U64> {
    if |t| != 11 || Value(t).None? || CharDigit(t[0]).None? || CharDigit(t[0]).value > 15 ||
       Value(t).value >= 0x1_0000_0000_0000_0000 then None
    else Some(Value(t).value)
  }

  lemma Powers()
    ensures Pow64(10) == 0x1000_0000_0000_0000 && Pow64(11) == 64 * 0x1000_0000_0000_0000
  {
    assert Pow64(2) == 4096;
    assert Pow64(4) == 4096 * 4096;
    assert Pow64(6) == 4096 * Pow64(4);
    assert Pow64(8) == 4096 * Pow64(6);
  }

  // The leading digit is what the other ten leave over.
  lemma {:induction false} LeadingDigit(t: string)
    requires |t| > 0 && Value(t).Some?
    ensures CharDigit(t[0]).Some? && CharDigit(t[0]).value < 64
    ensures CharDigit(t[0]).value * Pow64(|t| - 1) <= Value(t).value < (CharDigit(t[0]).value + 1) * Pow64(|t| - 1)
    decreases |t|
  {
    var init := t[..|t| - 1];
    CharsInvert(t[|t| - 1]);
    if |t| > 1 {
      LeadingDigit(init);
      var d, p := CharDigit(t[0]).value, Pow64(|init| - 1);
      Scale(d, p, Value(init).value, CharDigit(t[|t| - 1]).value);
    } else {
      assert init == "";
    }
  }

  lemma Scale(d: nat, p: nat, v: nat, low: nat)
    requires d * p <= v < (d + 1) * p && low < 64
    ensures d * (64 * p) <= v * 64 + low < (d + 1) * (64 * p)
  {
    assert v + 1 <= (d + 1) * p;
    assert (d + 1) * (64 * p) == 64 * ((d + 1) * p);
    assert d * (64 * p) == 64 * (d * p);
  }

  lemma FingerprintRoundTrip(v: U64)
    ensures DecodeFingerprint(EncodeFingerprint(v)) == Some(v)
  {
    hide Digits, Value;
    Powers();
    DigitsValue(v, 11);
    var t := EncodeFingerprint(v);
    LeadingDigit(t);
  }

  // Every accepted text is the one encoding of its value.
  lemma FingerprintCanonical(t: string)
    requires DecodeFingerprint(t).Some?
    ensures EncodeFingerprint(DecodeFingerprint(t).value) == t
  {
    ValueDigits(t);
  }

  // The explicit overflow test is the same as the 64-bit bound.
  lemma OverflowTest(t: string)
    requires |t| == 11 && Value(t).Some?
    ensures CharDigit(t[0]).Some? && (CharDigit(t[0]).value <= 15 <==> Value(t).value < 0x1_0000_0000_0000_0000)
  {
    hide Value;
    Powers();
    LeadingDigit(t);
  }

  // The encoding loop fills the text from its last digit backwards.
  method WriteFingerprint(v: U64) returns (t: string)
    ensures t == EncodeFingerprint(v)
  {
    t := "";
    var rest: nat := v;
    var i := 11;
    assert Digits(v, 11) == Digits(rest, i) + t;
    while i > 0
      invariant 0 <= i <= 11 && Digits(v, 11) == Digits(rest, i) + t
    {
      assert Digits(rest, i) + t == Digits(rest / 64, i - 1) + ([DigitChar(rest % 64)] + t);
      t := [DigitChar(rest % 64)] + t;
      rest := rest / 64;
      i := i - 1;
    }
  }

  // ---------------------------------------------------------------- delta coding

  datatype Numbered = Numbered(id: Id, receipt: Receipt)

  // A receipt line; index and term are implied by the lines before it.
  datatype ReceiptLine = AtLine(cursor: nat) | TermLine(term: nat) | EntryLine(id: Id, fingerprint: string)

  // All receipts, each once, by increasing index.
  predicate Enumerates(o: seq<Numbered>, receipts: map<Id, Receipt>) {
    (forall k :: 0 <= k < |o| ==> o[k].id in receipts && receipts[o[k].id] == o[k].receipt) &&
    (forall i :: i in receipts ==> Numbered(i, receipts[i]) in o) &&
    (forall j, k :: 0 <= j < k < |o| ==> o[j].receipt.index < o[k].receipt.index)
  }

  predicate DistinctIndexes(receipts: map<Id, Receipt>) {
    forall i, j :: i in receipts && j in receipts && receipts[i].index == receipts[j].index ==> i == j
  }

  function Lines(o: seq<Numbered>, cursor: nat, active: nat): seq<ReceiptLine> {
    if o == [] then []
    else
      var r := o[0].receipt;
      (if r.index != cursor + 1 && r.index > 0 then [AtLine(r.index - 1)] else []) +
      (if r.term != active then [TermLine(r.term)] else []) +
      [EntryLine(o[0].id, EncodeFingerprint(r.fingerprint))] + Lines(o[1..], r.index, r.term)
  }

  // The reader's position: last index, current term, receipts found.
  datatype Cursor = Cursor(index: nat, term: nat, receipts: map<Id, Receipt>)

  function ReadLine(c: Cursor, line: ReceiptLine, last: nat): Option<Cursor> {
    match line
    case AtLine(cursor) => if cursor <= c.index || cursor >= last then None else Some(c.(index := cursor))
    case TermLine(term) => if term == 0 then None else Some(c.(term := term))
    case EntryLine(id, text) =>
      var fingerprint := DecodeFingerprint(text);
      if !ValidId(id) || fingerprint.None? || c.index >= last || id in c.receipts ||
         c.index + 1 >= 0x1_0000_0000_0000_0000 || c.term >= 0x1_0000_0000_0000_0000 then None
      else Some(Cursor(c.index + 1, c.term, c.receipts[id := Receipt(c.index + 1, c.term, fingerprint.value)]))
  }

  function ReadLines(c: Cursor, lines: seq<ReceiptLine>, last: nat): Option<Cursor>
    decreases |lines|
  {
    if lines == [] then Some(c)
    else match ReadLine(c, lines[0], last)
    case None => None
    case Some(next) => ReadLines(next, lines[1..], last)
  }

  lemma {:induction false} ReadSplit(c: Cursor, a: seq<ReceiptLine>, b: seq<ReceiptLine>, last: nat)
    ensures ReadLines(c, a + b, last) ==
            if ReadLines(c, a, last).None? then None else ReadLines(ReadLines(c, a, last).value, b, last)
    decreases |a|
  {
    hide ReadLine;
    if a == [] {
      assert a + b == b;
    } else {
      assert (a + b)[1..] == a[1..] + b;
      var next := ReadLine(c, a[0], last);
      if next.Some? {
        ReadSplit(next.value, a[1..], b, last);
      }
    }
  }

  // Receipts that can still be written after the reader's position.
  predicate Writable(o: seq<Numbered>, c: Cursor, last: nat) {
    (forall k :: 0 <= k < |o| ==>
      c.index < o[k].receipt.index <= last && o[k].receipt.term >= 1 && ValidId(o[k].id) && o[k].id !in c.receipts) &&
    (forall j, k :: 0 <= j < k < |o| ==> o[j].receipt.index < o[k].receipt.index && o[j].id != o[k].id)
  }

  function AllOf(o: seq<Numbered>, receipts: map<Id, Receipt>): map<Id, Receipt> {
    if o == [] then receipts else AllOf(o[1..], receipts[o[0].id := o[0].receipt])
  }

  lemma ReadOne(c: Cursor, n: Numbered, last: nat)
    requires c.index < n.receipt.index <= last && n.receipt.term >= 1 && ValidId(n.id) && n.id !in c.receipts
    ensures
      var lines := (if n.receipt.index != c.index + 1 && n.receipt.index > 0 then [AtLine(n.receipt.index - 1)] else []) +
                   (if n.receipt.term != c.term then [TermLine(n.receipt.term)] else []) +
                   [EntryLine(n.id, EncodeFingerprint(n.receipt.fingerprint))];
      ReadLines(c, lines, last) == Some(Cursor(n.receipt.index, n.receipt.term, c.receipts[n.id := n.receipt]))
  {
    hide EncodeFingerprint, DecodeFingerprint, ValidId;
    FingerprintRoundTrip(n.receipt.fingerprint);
    var at := if n.receipt.index != c.index + 1 && n.receipt.index > 0 then [AtLine(n.receipt.index - 1)] else [];
    var term := if n.receipt.term != c.term then [TermLine(n.receipt.term)] else [];
    var entry := [EntryLine(n.id, EncodeFingerprint(n.receipt.fingerprint))];
    ReadSplit(c, at + term, entry, last);
    ReadSplit(c, at, term, last);
    var c1 := c.(index := n.receipt.index - 1);
    assert ReadLines(c, at, last) == Some(c1);
    var c2 := c1.(term := n.receipt.term);
    assert ReadLines(c1, term, last) == Some(c2);
    assert ReadLines(c2, entry, last) == ReadLine(c2, entry[0], last);
  }

  // Whatever is written is read back, wherever the reader stands.
  lemma {:induction false} LinesReadBack(o: seq<Numbered>, c: Cursor, last: nat)
    requires Writable(o, c, last)
    ensures ReadLines(c, Lines(o, c.index, c.term), last).Some?
    ensures ReadLines(c, Lines(o, c.index, c.term), last).value.receipts == AllOf(o, c.receipts)
    decreases |o|
  {
    hide EncodeFingerprint, ReadLine, ValidId;
    if o != [] {
      var n := o[0];
      var next := Cursor(n.receipt.index, n.receipt.term, c.receipts[n.id := n.receipt]);
      ReadOne(c, n, last);
      var lines := (if n.receipt.index != c.index + 1 && n.receipt.index > 0 then [AtLine(n.receipt.index - 1)] else []) +
                   (if n.receipt.term != c.term then [TermLine(n.receipt.term)] else []) +
                   [EntryLine(n.id, EncodeFingerprint(n.receipt.fingerprint))];
      assert Lines(o, c.index, c.term) == lines + Lines(o[1..], n.receipt.index, n.receipt.term);
      ReadSplit(c, lines, Lines(o[1..], n.receipt.index, n.receipt.term), last);
      LinesReadBack(o[1..], next, last);
    }
  }

  lemma {:induction false} AllOfHas(o: seq<Numbered>, receipts: map<Id, Receipt>, i: Id)
    requires forall j, k :: 0 <= j < k < |o| ==> o[j].id != o[k].id
    ensures i in AllOf(o, receipts) <==> i in receipts || exists k :: 0 <= k < |o| && o[k].id == i
    ensures forall k :: 0 <= k < |o| && o[k].id == i ==> AllOf(o, receipts)[i] == o[k].receipt
    ensures i in receipts && (forall k :: 0 <= k < |o| ==> o[k].id != i) ==> AllOf(o, receipts)[i] == receipts[i]
    decreases |o|
  {
    if o != [] {
      var rest := o[1..];
      assert forall k :: 0 <= k < |rest| ==> rest[k] == o[k + 1];
      AllOfHas(rest, receipts[o[0].id := o[0].receipt], i);
      if k :| 0 <= k < |o| && o[k].id == i {
        assert k > 0 ==> rest[k - 1].id == i;
      }
    }
  }

  // Reading the enumeration of a map rebuilds the map.
  lemma AllOfMap(o: seq<Numbered>, receipts: map<Id, Receipt>)
    requires Enumerates(o, receipts) && DistinctIndexes(receipts)
    ensures (forall j, k :: 0 <= j < k < |o| ==> o[j].id != o[k].id) && AllOf(o, map[]) == receipts
  {
    hide AllOf;
    assert forall j, k :: 0 <= j < k < |o| ==> o[j].id != o[k].id;
    var all := AllOf(o, map[]);
    forall i
      ensures i in all <==> i in receipts
      ensures i in receipts ==> all[i] == receipts[i]
    {
      AllOfHas(o, map[], i);
      if i in receipts {
        var k :| 0 <= k < |o| && o[k] == Numbered(i, receipts[i]);
      }
    }
  }

  // The delta-coded receipts of a state read back to the same map.
  lemma ReceiptsRoundTrip(o: seq<Numbered>, receipts: map<Id, Receipt>, last: nat)
    requires Enumerates(o, receipts) && DistinctIndexes(receipts)
    requires forall i :: i in receipts ==> 1 <= receipts[i].index <= last && receipts[i].term >= 1 && ValidId(i)
    ensures ReadLines(Cursor(0, 1, map[]), Lines(o, 0, 1), last).Some?
    ensures ReadLines(Cursor(0, 1, map[]), Lines(o, 0, 1), last).value.receipts == receipts
  {
    hide ReadLines, Lines, AllOf, ValidId;
    AllOfMap(o, receipts);
    LinesReadBack(o, Cursor(0, 1, map[]), last);
  }

  // ---------------------------------------------------------------- sorting

  // Where n belongs in an enumeration.
  method InsertReceipt(o: seq<Numbered>, n: Numbered) returns (r: seq<Numbered>)
    requires forall j, k :: 0 <= j < k < |o| ==> o[j].receipt.index < o[k].receipt.index
    requires forall k :: 0 <= k < |o| ==> o[k].receipt.index != n.receipt.index
    ensures forall j, k :: 0 <= j < k < |r| ==> r[j].receipt.index < r[k].receipt.index
    ensures forall m :: m in r <==> m in o || m == n
  {
    var k := 0;
    while k < |o| && o[k].receipt.index < n.receipt.index
      invariant 0 <= k <= |o| && forall j :: 0 <= j < k ==> o[j].receipt.index < n.receipt.index
    {
      k := k + 1;
    }
    r := o[..k] + [n] + o[k..];
    assert o == o[..k] + o[k..];
    InsertedOrder(o, n, k);
  }

  lemma InsertedOrder(o: seq<Numbered>, n: Numbered, k: nat)
    requires k <= |o| && forall i, j :: 0 <= i < j < |o| ==> o[i].receipt.index < o[j].receipt.index
    requires forall j :: 0 <= j < k ==> o[j].receipt.index < n.receipt.index
    requires k < |o| ==> n.receipt.index < o[k].receipt.index
    ensures
      var r := o[..k] + [n] + o[k..];
      forall i, j :: 0 <= i < j < |r| ==> r[i].receipt.index < r[j].receipt.index
  {
    var r := o[..k] + [n] + o[k..];
    forall i, j | 0 <= i < j < |r|
      ensures r[i].receipt.index < r[j].receipt.index
    {
      if i == k {
        assert r[j] == o[j - 1];
        assert j - 1 > k ==> o[k].receipt.index < o[j - 1].receipt.index;
      } else if j == k {
        assert r[i] == o[i];
      } else {
        assert r[i] == o[if i < k then i else i - 1] && r[j] == o[if j < k then j else j - 1];
      }
    }
  }

  // Receipts in the order a snapshot writes them.
  method SortReceipts(receipts: map<Id, Receipt>) returns (o: seq<Numbered>)
    requires DistinctIndexes(receipts)
    ensures Enumerates(o, receipts)
  {
    o := [];
    var rest := receipts.Keys;
    while rest != {}
      invariant rest <= receipts.Keys
      invariant forall k :: 0 <= k < |o| ==> o[k].id in receipts && o[k].id !in rest && receipts[o[k].id] == o[k].receipt
      invariant forall i :: i in receipts && i !in rest ==> Numbered(i, receipts[i]) in o
      invariant forall j, k :: 0 <= j < k < |o| ==> o[j].receipt.index < o[k].receipt.index
      decreases |rest|
    {
      var i :| i in rest;
      var before := o;
      o := InsertReceipt(o, Numbered(i, receipts[i]));
      rest := rest - {i};
      forall k | 0 <= k < |o|
        ensures o[k].id in receipts && o[k].id !in rest && receipts[o[k].id] == o[k].receipt
      {
        assert o[k] in o;
      }
    }
  }
}
