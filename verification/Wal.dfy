// The write-ahead log file: framing, loading and what any cut of it loads to.
module Wal {
  import opened Logs
  import opened Bytes
  import opened Journal

  datatype Event = Event(index: U64, term: U64, detail: string)

  // Event text is not modelled; it only has to parse back.
  datatype Codec = Codec(crc: Checksum, text: Event -> Blob, parse: Blob -> Option<Event>)

  ghost predicate Faithful(c: Codec) {
    forall e :: c.parse(c.text(e)) == Some(e)
  }

  const FILE_HEADER: nat := 16
  const RECORD_PREFIX: nat := 28
  const MAX_PAYLOAD: nat := 1024 * 1024
  // "CHOSWAL1"
  const FILE_MAGIC: Blob := [67, 72, 79, 83, 87, 65, 76, 49]
  // "LOG1"
  const RECORD_MAGIC: nat := 0x31474F4C

  // ---------------------------------------------------------------- encoding

  function FileHeader(c: Codec): (h: Blob)
    ensures |h| == FILE_HEADER
  {
    var h := FILE_MAGIC + LE(1, 2) + LE(0, 2);
    h + LE(c.crc(h), 4)
  }

  function Prefix(c: Codec, e: Event): (p: Blob)
    ensures |p| == RECORD_PREFIX
  {
    LE(RECORD_MAGIC, 4) + LE(1, 2) + LE(0, 2) + LE(|c.text(e)|, 4) + LE(e.term, 8) + LE(e.index, 8)
  }

  function Record(c: Codec, e: Event): (r: Blob)
    ensures |r| == RECORD_PREFIX + |c.text(e)| + 4
  {
    var framed := Prefix(c, e) + c.text(e);
    framed + LE(c.crc(framed), 4)
  }

  predicate Fits(c: Codec, events: seq<Event>) {
    forall e :: e in events ==> |c.text(e)| <= MAX_PAYLOAD
  }

  function Records(c: Codec, events: seq<Event>): Blob {
    if events == [] then [] else Record(c, events[0]) + Records(c, events[1..])
  }

  function Encoded(c: Codec, events: seq<Event>): Blob {
    FileHeader(c) + Records(c, events)
  }

  // Where each record ends when the first one starts at `start`.
  function Ends(c: Codec, events: seq<Event>, start: nat): (ends: seq<nat>)
    ensures |ends| == |events|
  {
    if events == [] then []
    else
      var end := start + |Record(c, events[0])|;
      [end] + Ends(c, events[1..], end)
  }

  // ---------------------------------------------------------------- loading

  // The events found, where each ends and where the last good one ends.
  datatype Scanned = Good(events: seq<Event>, ends: seq<nat>, end: nat) | Corrupt

  predicate MagicAt(file: Blob, p: nat) {
    p + 4 <= |file| && file[p..p + 4] == [76, 79, 71, 49]
  }

  // A bad record followed by a real one is corruption, not a torn tail.
  predicate LaterMagic(file: Blob, offset: nat) {
    exists p: nat :: offset < p < |file| && MagicAt(file, p)
  }

  // The record at offset is complete and sound.
  predicate RecordSound(c: Codec, file: Blob, offset: nat)
    requires offset + RECORD_PREFIX + 4 <= |file|
  {
    var length := FromLE(file[offset + 8..offset + 12]);
    offset + RECORD_PREFIX + length + 4 <= |file| &&
    var end := offset + RECORD_PREFIX + length;
    c.crc(file[offset..end]) == FromLE(file[end..end + 4]) &&
    var event := c.parse(file[offset + RECORD_PREFIX..end]);
    event.Some? && event.value.index == FromLE(file[offset + 20..offset + 28]) &&
    event.value.term == FromLE(file[offset + 12..offset + 20])
  }

  // Scan from offset: whole records, then a torn tail or corruption.
  function Scan(c: Codec, file: Blob, offset: nat): Scanned
    requires offset <= |file|
    decreases |file| - offset
  {
    if |file| - offset < RECORD_PREFIX + 4 then Good([], [], offset)
    else if FromLE(file[offset..offset + 4]) != RECORD_MAGIC || FromLE(file[offset + 4..offset + 6]) != 1 then
      if LaterMagic(file, offset) then Corrupt else Good([], [], offset)
    else
      var length := FromLE(file[offset + 8..offset + 12]);
      var next := offset + RECORD_PREFIX + length + 4;
      if length > MAX_PAYLOAD then Corrupt
      else if next > |file| then Good([], [], offset)
      else if !RecordSound(c, file, offset) then Corrupt
      else
        Push(c.parse(file[offset + RECORD_PREFIX..offset + RECORD_PREFIX + length]).value, next, Scan(c, file, next))
  }

  function Push(e: Event, end: nat, s: Scanned): Scanned {
    match s
    case Corrupt => Corrupt
    case Good(events, ends, last) => Good([e] + events, [end] + ends, last)
  }

  predicate HeaderSound(c: Codec, file: Blob) {
    |file| >= FILE_HEADER && file[..8] == FILE_MAGIC && FromLE(file[8..10]) == 1 &&
    c.crc(file[..12]) == FromLE(file[12..16])
  }

  // ---------------------------------------------------------------- reading back

  // The fields of one record wherever it lies in a file.
  lemma PrefixFields(c: Codec, e: Event)
    requires |c.text(e)| <= MAX_PAYLOAD
    ensures
      var p := Prefix(c, e);
      FromLE(p[0..4]) == RECORD_MAGIC && FromLE(p[4..6]) == 1 && FromLE(p[8..12]) == |c.text(e)| &&
      FromLE(p[12..20]) == e.term && FromLE(p[20..28]) == e.index
  {
    PrefixSlices(c, e);
    Widths();
    WriteRead(RECORD_MAGIC, 4);
    WriteRead(1, 2);
    WriteRead(|c.text(e)|, 4);
    WriteRead(e.term, 8);
    WriteRead(e.index, 8);
  }

  lemma PrefixSlices(c: Codec, e: Event)
    ensures
      var p := Prefix(c, e);
      p[0..4] == LE(RECORD_MAGIC, 4) && p[4..6] == LE(1, 2) && p[8..12] == LE(|c.text(e)|, 4) &&
      p[12..20] == LE(e.term, 8) && p[20..28] == LE(e.index, 8)
  {
    hide LE;
  }

  // file[at..] starts with r.
  predicate Holds(file: Blob, at: nat, r: Blob) {
    at + |r| <= |file| && file[at..at + |r|] == r
  }

  lemma HoldsSlice(file: Blob, at: nat, r: Blob, i: nat, j: nat)
    requires Holds(file, at, r) && i <= j <= |r|
    ensures file[at + i..at + j] == r[i..j]
  {
    forall k | i <= k < j
      ensures file[at + k] == r[k]
    {
      assert file[at..at + |r|][k] == file[at + k];
    }
  }

  lemma FramedFields(file: Blob, at: nat, c: Codec, e: Event)
    requires Holds(file, at, Prefix(c, e)) && |c.text(e)| <= MAX_PAYLOAD
    ensures at + RECORD_PREFIX <= |file|
    ensures FromLE(file[at..at + 4]) == RECORD_MAGIC && FromLE(file[at + 4..at + 6]) == 1
    ensures FromLE(file[at + 8..at + 12]) == |c.text(e)| && FromLE(file[at + 12..at + 20]) == e.term
    ensures FromLE(file[at + 20..at + 28]) == e.index
  {
    hide FromLE, Prefix, Holds;
    var p := Prefix(c, e);
    HoldsLength(file, at, p);
    HoldsSlice(file, at, p, 0, 4);
    HoldsSlice(file, at, p, 4, 6);
    HoldsSlice(file, at, p, 8, 12);
    HoldsSlice(file, at, p, 12, 20);
    HoldsSlice(file, at, p, 20, 28);
    PrefixFields(c, e);
  }

  lemma HoldsLength(file: Blob, at: nat, r: Blob)
    requires Holds(file, at, r)
    ensures at + |r| <= |file|
  {}

  lemma RecordParts(file: Blob, at: nat, c: Codec, e: Event)
    requires Holds(file, at, Record(c, e))
    ensures
      var end := at + RECORD_PREFIX + |c.text(e)|;
      end + 4 <= |file| && Holds(file, at, Prefix(c, e)) && file[at + RECORD_PREFIX..end] == c.text(e) &&
      file[at..end] == Prefix(c, e) + c.text(e) && file[end..end + 4] == LE(c.crc(Prefix(c, e) + c.text(e)), 4)
  {
    hide Prefix, LE;
    var n := RECORD_PREFIX + |c.text(e)|;
    var r := Record(c, e);
    HoldsSlice(file, at, r, 0, RECORD_PREFIX);
    HoldsSlice(file, at, r, RECORD_PREFIX, n);
    HoldsSlice(file, at, r, 0, n);
    HoldsSlice(file, at, r, n, n + 4);
  }

  // A whole record is recognised.
  lemma RecordFound(file: Blob, at: nat, c: Codec, e: Event)
    requires Faithful(c) && Holds(file, at, Record(c, e)) && |c.text(e)| <= MAX_PAYLOAD
    ensures at + RECORD_PREFIX + |c.text(e)| + 4 <= |file| && RecordSound(c, file, at)
    ensures FromLE(file[at..at + 4]) == RECORD_MAGIC && FromLE(file[at + 4..at + 6]) == 1
    ensures FromLE(file[at + 8..at + 12]) == |c.text(e)|
    ensures c.parse(file[at + RECORD_PREFIX..at + RECORD_PREFIX + |c.text(e)|]) == Some(e)
  {
    hide FromLE, Prefix, LE, Record, Holds;
    RecordParts(file, at, c, e);
    FramedFields(file, at, c, e);
    Widths();
    WriteRead(c.crc(Prefix(c, e) + c.text(e)), 4);
  }

  // ---------------------------------------------------------------- what a scan means

  // A record header starts here.
  predicate HeaderAt(file: Blob, at: nat) {
    at + RECORD_PREFIX + 4 <= |file| && FromLE(file[at..at + 4]) == RECORD_MAGIC && FromLE(file[at + 4..at + 6]) == 1
  }

  // The whole record of e lies from at to end: framed, checksummed, parsed, and its
  // index and term are those of the frame.
  predicate WholeAt(c: Codec, file: Blob, at: nat, e: Event, end: nat) {
    HeaderAt(file, at) &&
    var length := FromLE(file[at + 8..at + 12]);
    length <= MAX_PAYLOAD && end == at + RECORD_PREFIX + length + 4 <= |file| &&
    c.crc(file[at..end - 4]) == FromLE(file[end - 4..end]) &&
    c.parse(file[at + RECORD_PREFIX..end - 4]) == Some(e) && e.index == FromLE(file[at + 20..at + 28]) &&
    e.term == FromLE(file[at + 12..at + 20])
  }

  // These records lie one after the other from start to end.
  predicate Chain(c: Codec, file: Blob, start: nat, events: seq<Event>, ends: seq<nat>, end: nat) {
    |ends| == |events| && end == (if ends == [] then start else ends[|ends| - 1]) &&
    forall k :: 0 <= k < |events| ==> WholeAt(c, file, StartOf(start, ends, k), events[k], ends[k])
  }

  // Where the k-th record starts.
  function StartOf(start: nat, ends: seq<nat>, k: nat): nat
    requires k <= |ends|
  {
    if k == 0 then start else ends[k - 1]
  }

  // Nothing but the torn rest of a write is left: too little for a record, a record
  // longer than what is there, or no header here nor later.
  predicate TornAt(file: Blob, at: nat)
    requires at <= |file|
  {
    |file| - at < RECORD_PREFIX + 4 || (!HeaderAt(file, at) && !LaterMagic(file, at)) ||
    (HeaderAt(file, at) && FromLE(file[at + 8..at + 12]) <= MAX_PAYLOAD &&
     at + RECORD_PREFIX + FromLE(file[at + 8..at + 12]) + 4 > |file|)
  }

  // A record that cannot be the rest of a torn write.
  ghost predicate BrokenAt(c: Codec, file: Blob, at: nat)
    requires at <= |file|
  {
    !TornAt(file, at) && forall e, end :: !WholeAt(c, file, at, e, end)
  }

  lemma ChainMore(c: Codec, file: Blob, start: nat, e: Event, next: nat, events: seq<Event>, ends: seq<nat>, end: nat)
    requires WholeAt(c, file, start, e, next) && Chain(c, file, next, events, ends, end)
    ensures Chain(c, file, start, [e] + events, [next] + ends, end)
  {
    hide WholeAt;
    var es, ns := [e] + events, [next] + ends;
    forall k | 0 <= k < |es|
      ensures WholeAt(c, file, StartOf(start, ns, k), es[k], ns[k])
    {
      if k > 0 {
        assert WholeAt(c, file, StartOf(next, ends, k - 1), events[k - 1], ends[k - 1]);
        assert StartOf(start, ns, k) == StartOf(next, ends, k - 1) && es[k] == events[k - 1] && ns[k] == ends[k - 1];
      }
    }
  }

  // One round of the scan against what lies there.
  lemma ScanRound(c: Codec, file: Blob, offset: nat)
    requires offset <= |file|
    ensures
      var s := Scan(c, file, offset);
      if TornAt(file, offset) then s == Good([], [], offset)
      else if !HeaderAt(file, offset) || FromLE(file[offset + 8..offset + 12]) > MAX_PAYLOAD ||
              !RecordSound(c, file, offset)
      then s == Corrupt && forall e, end :: !WholeAt(c, file, offset, e, end)
      else
        var end := offset + RECORD_PREFIX + FromLE(file[offset + 8..offset + 12]) + 4;
        end <= |file| && c.parse(file[offset + RECORD_PREFIX..end - 4]).Some? &&
        var e := c.parse(file[offset + RECORD_PREFIX..end - 4]).value;
        WholeAt(c, file, offset, e, end) && s == Push(e, end, Scan(c, file, end))
  {
    hide FromLE, LaterMagic;
  }

  // A file that loads consists of whole records up to a torn rest.
  lemma {:induction false} ScanGood(c: Codec, file: Blob, offset: nat)
    requires offset <= |file| && Scan(c, file, offset).Good?
    ensures
      var s := Scan(c, file, offset);
      Chain(c, file, offset, s.events, s.ends, s.end) && s.end <= |file| && TornAt(file, s.end)
    decreases |file| - offset
  {
    hide Scan, WholeAt, TornAt, RecordSound, FromLE;
    ScanRound(c, file, offset);
    if !TornAt(file, offset) {
      var end := offset + RECORD_PREFIX + FromLE(file[offset + 8..offset + 12]) + 4;
      var e := c.parse(file[offset + RECORD_PREFIX..end - 4]).value;
      var rest := Scan(c, file, end);
      ScanGood(c, file, end);
      ChainMore(c, file, offset, e, end, rest.events, rest.ends, rest.end);
    }
  }

  // A file is refused only for a broken record behind whole ones.
  lemma {:induction false} ScanCorrupt(c: Codec, file: Blob, offset: nat)
    returns (events: seq<Event>, ends: seq<nat>, end: nat)
    requires offset <= |file| && Scan(c, file, offset).Corrupt?
    ensures Chain(c, file, offset, events, ends, end) && end <= |file| && BrokenAt(c, file, end)
    decreases |file| - offset
  {
    hide Scan, WholeAt, TornAt, RecordSound, FromLE, Chain;
    ScanRound(c, file, offset);
    if !HeaderAt(file, offset) || FromLE(file[offset + 8..offset + 12]) > MAX_PAYLOAD || !RecordSound(c, file, offset) {
      events, ends, end := [], [], offset;
      NoChain(c, file, offset);
    } else {
      var next := offset + RECORD_PREFIX + FromLE(file[offset + 8..offset + 12]) + 4;
      var e := c.parse(file[offset + RECORD_PREFIX..next - 4]).value;
      events, ends, end := ScanCorrupt(c, file, next);
      ChainMore(c, file, offset, e, next, events, ends, end);
      events, ends := [e] + events, [next] + ends;
    }
  }

  lemma NoChain(c: Codec, file: Blob, start: nat)
    ensures Chain(c, file, start, [], [], start)
  {}
}
