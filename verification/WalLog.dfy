// The write-ahead log object over its file.
module WalLog {
  import opened Bytes
  import opened Journal
  import opened Wal

  // ---------------------------------------------------------------- cutting the file

  // How many records lie wholly within the first m bytes.
  function Whole(c: Codec, events: seq<Event>, m: nat): (n: nat)
    ensures n <= |events|
  {
    if events == [] || |Record(c, events[0])| > m then 0
    else 1 + Whole(c, events[1..], m - |Record(c, events[0])|)
  }

  // What loading a file made of pre and m bytes of these records finds.
  function Found(c: Codec, events: seq<Event>, start: nat): Scanned {
    Good(events, Ends(c, events, start), start + |Records(c, events)|)
  }

  lemma FoundMore(c: Codec, e: Event, rest: seq<Event>, start: nat)
    ensures Found(c, [e] + rest, start) == Push(e, start + |Record(c, e)|, Found(c, rest, start + |Record(c, e)|))
  {
    hide Record;
    assert ([e] + rest)[1..] == rest;
  }

  lemma CutHolds(pre: Blob, r: Blob, rest: Blob, m: nat)
    requires m <= |r + rest|
    ensures m >= |r| ==>
      Holds(pre + (r + rest)[..m], |pre|, r) && pre + (r + rest)[..m] == (pre + r) + rest[..m - |r|]
    ensures forall k :: 0 <= k <= m && k <= |r| ==> Holds(pre + (r + rest)[..m], |pre|, r[..k])
  {
    var file := pre + (r + rest)[..m];
    forall k | 0 <= k <= m && k <= |r|
      ensures Holds(file, |pre|, r[..k])
    {
      assert file[|pre|..|pre| + k] == (r + rest)[..m][..k];
    }
    if m >= |r| {
      assert r[..|r|] == r;
      assert (r + rest)[..m] == r + rest[..m - |r|];
      assert Holds(file, |pre|, r[..|r|]);
    }
  }

  // A record that is not whole ends the scan quietly.
  lemma TornRecord(c: Codec, file: Blob, at: nat, e: Event)
    requires at <= |file| < at + |Record(c, e)| && |c.text(e)| <= MAX_PAYLOAD
    requires |file| >= at + RECORD_PREFIX ==> Holds(file, at, Prefix(c, e))
    ensures Scan(c, file, at) == Good([], [], at)
  {
    hide FromLE, Prefix, Holds, Record;
    if |file| >= at + RECORD_PREFIX {
      FramedFields(file, at, c, e);
    }
  }

  lemma WholeRecord(c: Codec, file: Blob, at: nat, e: Event)
    requires Faithful(c) && Holds(file, at, Record(c, e)) && |c.text(e)| <= MAX_PAYLOAD
    ensures at + |Record(c, e)| <= |file|
    ensures Scan(c, file, at) == Push(e, at + |Record(c, e)|, Scan(c, file, at + |Record(c, e)|))
  {
    hide FromLE, Prefix, Holds, Record, RecordSound;
    RecordFound(file, at, c, e);
  }

  lemma RecordStart(c: Codec, e: Event)
    ensures Record(c, e)[..RECORD_PREFIX] == Prefix(c, e)
  {
    hide Prefix;
  }

  // Any cut of a sequence of records loads to the whole records before it.
  lemma {:induction false} ScanCut(c: Codec, pre: Blob, events: seq<Event>, m: nat)
    requires Faithful(c) && Fits(c, events) && m <= |Records(c, events)|
    ensures Scan(c, pre + Records(c, events)[..m], |pre|) == Found(c, events[..Whole(c, events, m)], |pre|)
    decreases |events|
  {
    hide Record, Scan, Prefix, Found;
    var file := pre + Records(c, events)[..m];
    if events == [] {
      assert file == pre;
      NothingFound(c, pre);
    } else {
      var e, rest := events[0], events[1..];
      var r := Record(c, e);
      CutHolds(pre, r, Records(c, rest), m);
      if m < |r| {
        RecordStart(c, e);
        TornRecord(c, file, |pre|, e);
        NoneFound(c, |pre|);
      } else {
        WholeRecord(c, file, |pre|, e);
        ScanCut(c, pre + r, rest, m - |r|);
        var n := Whole(c, rest, m - |r|);
        FoundMore(c, e, rest[..n], |pre|);
        assert events[..n + 1] == [e] + rest[..n];
      }
    }
  }

  lemma NothingFound(c: Codec, pre: Blob)
    ensures Scan(c, pre, |pre|) == Good([], [], |pre|) == Found(c, [], |pre|)
  {}

  lemma NoneFound(c: Codec, start: nat)
    ensures Found(c, [], start) == Good([], [], start)
  {}

  lemma {:induction false} WholeAll(c: Codec, events: seq<Event>)
    ensures Whole(c, events, |Records(c, events)|) == |events|
  {
    hide Record;
    if events != [] {
      WholeAll(c, events[1..]);
    }
  }

  lemma HeaderReads(c: Codec, rest: Blob)
    ensures HeaderSound(c, FileHeader(c) + rest)
  {
    var h := FILE_MAGIC + LE(1, 2) + LE(0, 2);
    var file := FileHeader(c) + rest;
    Widths();
    WriteRead(1, 2);
    WriteRead(c.crc(h), 4);
    assert file[..8] == FILE_MAGIC;
    assert file[8..10] == LE(1, 2);
    assert file[..12] == h;
    assert file[12..16] == LE(c.crc(h), 4);
  }

  // Cutting the file at any byte after the header leaves a sound file that loads
  // to exactly the whole records before the cut.
  lemma CutLoads(c: Codec, events: seq<Event>, cut: nat)
    requires Faithful(c) && Fits(c, events) && FILE_HEADER <= cut <= |Encoded(c, events)|
    ensures
      var file := Encoded(c, events)[..cut];
      var n := Whole(c, events, cut - FILE_HEADER);
      HeaderSound(c, file) && Scan(c, file, FILE_HEADER) == Found(c, events[..n], FILE_HEADER)
  {
    hide Scan, HeaderSound, FileHeader, Found, Records;
    var h, r := FileHeader(c), Records(c, events);
    assert (h + r)[..cut] == h + r[..cut - FILE_HEADER];
    HeaderReads(c, r[..cut - FILE_HEADER]);
    ScanCut(c, h, events, cut - FILE_HEADER);
  }

  // Loading this file restores exactly these events, perhaps trimming a tail.
  ghost predicate Opens(c: Codec, file: Blob, was: seq<Event>) {
    Fits(c, was) && HeaderSound(c, file) && Scan(c, file, FILE_HEADER) == Found(c, was, FILE_HEADER) &&
    Encoded(c, was) <= file
  }

  lemma CutOpens(c: Codec, events: seq<Event>, cut: nat)
    requires Faithful(c) && Fits(c, events) && FILE_HEADER <= cut <= |Encoded(c, events)|
    ensures Opens(c, Encoded(c, events)[..cut], events[..Whole(c, events, cut - FILE_HEADER)])
  {
    hide HeaderSound, Scan, Encoded, Records, Record, Found;
    CutLoads(c, events, cut);
    CutEncoded(c, events, cut, Whole(c, events, cut - FILE_HEADER));
  }

  lemma WholeOpens(c: Codec, events: seq<Event>)
    requires Faithful(c) && Fits(c, events)
    ensures Opens(c, Encoded(c, events), events)
  {
    hide HeaderSound, Scan, Found, Records, Opens;
    var all := Encoded(c, events);
    CutOpens(c, events, |all|);
    WholeAll(c, events);
    assert all[..|all|] == all && events[..|events|] == events;
  }

  // Until the last byte of a new record is there, only the old ones are whole.
  lemma {:induction false} WholeMore(c: Codec, events: seq<Event>, e: Event, m: nat)
    requires |Records(c, events)| <= m <= |Records(c, events)| + |Record(c, e)|
    ensures Whole(c, events + [e], m) == |events| + if m == |Records(c, events)| + |Record(c, e)| then 1 else 0
    decreases |events|
  {
    hide Record;
    var more := events + [e];
    if events == [] {
      assert more[1..] == [];
    } else {
      assert more[1..] == events[1..] + [e];
      WholeMore(c, events[1..], e, m - |Record(c, events[0])|);
    }
  }

  // A file cut anywhere inside a new last record opens to the old events, and the
  // whole file to the new ones.
  lemma AppendOpens(c: Codec, events: seq<Event>, e: Event, n: nat)
    requires Faithful(c) && Fits(c, events) && |c.text(e)| <= MAX_PAYLOAD
    requires |Encoded(c, events)| <= n <= |Encoded(c, events + [e])|
    ensures Opens(c, Encoded(c, events + [e])[..n],
                  if n == |Encoded(c, events + [e])| then events + [e] else events)
  {
    hide HeaderSound, Scan, Found, Records, Record, Opens, FileHeader;
    RecordsMore(c, events, e);
    CutOpens(c, events + [e], n);
    WholeMore(c, events, e, n - FILE_HEADER);
    assert (events + [e])[..|events|] == events && (events + [e])[..|events| + 1] == events + [e];
  }

  lemma {:induction false} RecordsMore(c: Codec, events: seq<Event>, e: Event)
    ensures Records(c, events + [e]) == Records(c, events) + Record(c, e)
    ensures forall start: nat ::
      Ends(c, events + [e], start) == Ends(c, events, start) + [start + |Records(c, events)| + |Record(c, e)|]
  {
    hide Record;
    if events == [] {
      assert events + [e] == [e];
      assert Records(c, [e]) == Record(c, e) + Records(c, [e][1..]);
      assert Records(c, [e][1..]) == [];
    } else {
      RecordsMore(c, events[1..], e);
      assert (events + [e])[1..] == events[1..] + [e];
    }
  }

  // The first n records end where Ends says.
  lemma {:induction false} EndsAt(c: Codec, events: seq<Event>, start: nat, n: nat)
    requires n <= |events|
    ensures Ends(c, events[..n], start) == Ends(c, events, start)[..n]
    ensures n > 0 ==> Ends(c, events, start)[n - 1] == start + |Records(c, events[..n])|
    ensures |Records(c, events[..n])| <= |Records(c, events)| &&
            Records(c, events)[..|Records(c, events[..n])|] == Records(c, events[..n])
    decreases n
  {
    hide Record;
    if n > 0 {
      var end := start + |Record(c, events[0])|;
      EndsAt(c, events[1..], end, n - 1);
      assert events[..n][1..] == events[1..][..n - 1];
    }
  }

  // ---------------------------------------------------------------- the log object

  function Join(events: seq<Event>, ends: seq<nat>, s: Scanned): Scanned {
    match s
    case Corrupt => Corrupt
    case Good(more, tail, last) => Good(events + more, ends + tail, last)
  }

  // What becomes of a file operation: it takes effect, it does not, or it takes
  // effect and is still reported as failed because its flush failed.
  datatype Outcome = Done | Untouched | Unconfirmed

  class WriteAheadLog {
    const codec: Codec
    var file: Blob
    var events: seq<Event>
    var ends: seq<nat>
    // Bytes of torn tails dropped so far.
    var trimmed: nat

    // The file is the encoding of the events, and every end is known.
    ghost predicate Valid()
      reads this
    {
      Faithful(codec) && Fits(codec, events) && file == Encoded(codec, events) &&
      ends == Ends(codec, events, FILE_HEADER)
    }

    // Load whatever file there is.
    constructor (codec: Codec, file: Blob)
      ensures this.codec == codec && this.file == file && events == [] && ends == [] && trimmed == 0
    {
      this.codec, this.file := codec, file;
      events, ends, trimmed := [], [], 0;
    }

    // Read the file front to back; stop at a torn tail, refuse corruption.
    method Load() returns (ok: bool)
      modifies this
      ensures !old(HeaderSound(codec, file)) ==> !ok && file == old(file)
      ensures old(HeaderSound(codec, file)) ==>
        var s := Scan(codec, old(file), FILE_HEADER);
        ok == s.Good? && (!ok ==> file == old(file)) &&
        (ok ==>
          events == s.events && ends == s.ends && FILE_HEADER <= s.end <= |old(file)| && file == old(file)[..s.end] &&
          trimmed == old(trimmed) + |old(file)| - s.end)
    {
      hide RecordSound, HeaderSound, LaterMagic, Scan, FromLE;
      if !HeaderSound(codec, file) {
        return false;
      }
      HeaderLength(codec, file);
      var offset := FILE_HEADER;
      events, ends := [], [];
      var reading := true;
      while reading && offset < |file|
        invariant FILE_HEADER <= offset <= |file| && file == old(file) && trimmed == old(trimmed)
        invariant Scan(codec, file, FILE_HEADER) == Join(events, ends, Scan(codec, file, offset))
        invariant !reading ==> Scan(codec, file, offset) == Good([], [], offset)
        decreases reading, |file| - offset
      {
        ScanStep(codec, file, offset);
        if |file| - offset < RECORD_PREFIX + 4 {
          reading := false;
        } else if FromLE(file[offset..offset + 4]) != RECORD_MAGIC || FromLE(file[offset + 4..offset + 6]) != 1 {
          if LaterMagic(file, offset) {
            return false;
          }
          reading := false;
        } else {
          var length := FromLE(file[offset + 8..offset + 12]);
          if length > MAX_PAYLOAD {
            return false;
          }
          var total := RECORD_PREFIX + length + 4;
          if |file| - offset < total {
            reading := false;
          } else if !RecordSound(codec, file, offset) {
            return false;
          } else {
            SoundParses(codec, file, offset);
            var event := codec.parse(file[offset + RECORD_PREFIX..offset + RECORD_PREFIX + length]).value;
            JoinPush(events, ends, event, offset + total, Scan(codec, file, offset + total));
            events := events + [event];
            offset := offset + total;
            ends := ends + [offset];
          }
        }
      }
      ScanEnd(codec, file, offset);
      trimmed := trimmed + |file| - offset;
      file := file[..offset];
      ok := true;
    }

    // Opening a file that holds any cut of these records restores the log.
    method Reopen(ghost was: seq<Event>, ghost cut: nat) returns (ok: bool)
      requires Faithful(codec) && Fits(codec, was) && FILE_HEADER <= cut <= |Encoded(codec, was)|
      requires file == Encoded(codec, was)[..cut]
      modifies this
      ensures ok && Valid() && events == was[..Whole(codec, was, cut - FILE_HEADER)]
    {
      hide HeaderSound, Scan, Encoded, Records, Record;
      CutLoads(codec, was, cut);
      ok := Load();
      ghost var n := Whole(codec, was, cut - FILE_HEADER);
      CutEncoded(codec, was, cut, n);
    }

    // Opening a file restores what it opens to.
    method Restart(ghost was: seq<Event>) returns (ok: bool)
      requires Faithful(codec) && Opens(codec, file, was)
      modifies this
      ensures ok && Valid() && events == was
    {
      hide HeaderSound, Scan, Records, Record;
      ok := Load();
    }

    // Append one record; `landed` of its bytes reach the file, and the flush may
    // fail even then. What a crash leaves of it opens to the old events, or to the
    // new ones if the whole record is there.
    method Append(event: Event, landed: nat, flushed: bool) returns (ok: bool)
      requires Valid()
      modifies this
      ensures ok ==> Valid() && events == old(events) + [event]
      ensures !ok ==> events == old(events) && ends == old(ends)
      ensures |codec.text(event)| > MAX_PAYLOAD ==> file == old(file)
      ensures |codec.text(event)| <= MAX_PAYLOAD ==>
        var all := Encoded(codec, old(events) + [event]);
        old(file) <= file <= all && |file| == (if landed < |Record(codec, event)| then |old(file)| + landed else |all|) &&
        forall n :: |old(file)| <= n <= |file| ==>
          Opens(codec, file[..n], if n == |all| then old(events) + [event] else old(events))
      ensures ok <==> |codec.text(event)| <= MAX_PAYLOAD && landed >= |Record(codec, event)| && flushed
    {
      hide Record, FileHeader, Opens;
      if |codec.text(event)| > MAX_PAYLOAD {
        return false;
      }
      var record := Record(codec, event);
      RecordsMore(codec, events, event);
      ghost var all := Encoded(codec, events + [event]);
      assert all == file + record;
      var wrote := landed >= |record|;
      file := file + if wrote then record else record[..landed];
      forall n | |old(file)| <= n <= |file|
        ensures Opens(codec, file[..n], if n == |all| then old(events) + [event] else old(events))
      {
        AppendOpens(codec, old(events), event, n);
        assert file[..n] == all[..n];
      }
      if !wrote || !flushed {
        return false;
      }
      var previous := if ends == [] then FILE_HEADER else ends[|ends| - 1];
      LastEnd(codec, events, FILE_HEADER);
      events := events + [event];
      ends := ends + [previous + |record|];
      ok := true;
    }

    // Keep the leading records through index. A cut whose flush fails is visible
    // while the events still stand, and a crash may undo it.
    method TruncateAfter(index: U64, outcome: Outcome) returns (ok: bool, ghost kept: seq<Event>)
      requires Valid()
      modifies this
      ensures ok == outcome.Done? && kept <= old(events) && (forall e :: e in kept ==> e.index <= index)
      ensures |kept| < |old(events)| ==> old(events)[|kept|].index > index
      ensures file == if outcome.Untouched? then old(file) else Encoded(codec, kept)
      ensures if ok then Valid() && events == kept else events == old(events) && ends == old(ends)
      ensures Opens(codec, old(file), old(events)) && Opens(codec, file, if outcome.Untouched? then old(events) else kept)
    {
      hide Record, FileHeader, Opens;
      WholeOpens(codec, events);
      var keep := 0;
      while keep < |events| && events[keep].index <= index
        invariant 0 <= keep <= |events| && forall k :: 0 <= k < keep ==> events[k].index <= index
      {
        keep := keep + 1;
      }
      kept := events[..keep];
      WholeOpens(codec, kept);
      EndsAt(codec, events, FILE_HEADER, keep);
      var end := if keep == 0 then FILE_HEADER else ends[keep - 1];
      ResizedEncoded(codec, events, keep);
      if outcome.Untouched? {
        return false, kept;
      }
      file := file[..end];
      if outcome.Unconfirmed? {
        return false, kept;
      }
      events := events[..keep];
      ends := ends[..keep];
      ok := true;
    }

    // Replace the whole file at once and read it back. The file holds the old log
    // or the new one, never a mixture; a failed flush may leave either.
    method Rewrite(replacement: seq<Event>, outcome: Outcome) returns (ok: bool)
      requires Valid()
      modifies this
      ensures ok <==> outcome.Done? && Fits(codec, replacement)
      ensures if ok then Valid() && events == replacement else events == old(events) && ends == old(ends)
      ensures
        var replaced := !outcome.Untouched? && Fits(codec, replacement);
        file == (if replaced then Encoded(codec, replacement) else old(file)) &&
        Opens(codec, old(file), old(events)) && Opens(codec, file, if replaced then replacement else old(events))
    {
      hide HeaderSound, Scan, Record, Opens;
      WholeOpens(codec, events);
      if !Fits(codec, replacement) || outcome.Untouched? {
        return false;
      }
      WholeOpens(codec, replacement);
      file := Encoded(codec, replacement);
      if outcome.Unconfirmed? {
        return false;
      }
      ok := Restart(replacement);
    }
  }

  lemma HeaderLength(c: Codec, file: Blob)
    requires HeaderSound(c, file)
    ensures |file| >= FILE_HEADER
  {}

  // One round of the scan.
  lemma ScanStep(c: Codec, file: Blob, offset: nat)
    requires offset < |file|
    ensures
      var s := Scan(c, file, offset);
      if |file| - offset < RECORD_PREFIX + 4 then s == Good([], [], offset)
      else if FromLE(file[offset..offset + 4]) != RECORD_MAGIC || FromLE(file[offset + 4..offset + 6]) != 1 then
        s == if LaterMagic(file, offset) then Corrupt else Good([], [], offset)
      else
        var length := FromLE(file[offset + 8..offset + 12]);
        var next := offset + RECORD_PREFIX + length + 4;
        (length > MAX_PAYLOAD ==> s == Corrupt) &&
        (length <= MAX_PAYLOAD && next > |file| ==> s == Good([], [], offset)) &&
        (length <= MAX_PAYLOAD && next <= |file| && !RecordSound(c, file, offset) ==> s == Corrupt) &&
        (length <= MAX_PAYLOAD && next <= |file| && RecordSound(c, file, offset) ==>
          c.parse(file[offset + RECORD_PREFIX..offset + RECORD_PREFIX + length]).Some? &&
          s == Push(c.parse(file[offset + RECORD_PREFIX..offset + RECORD_PREFIX + length]).value, next,
                    Scan(c, file, next)))
  {
    hide FromLE, LaterMagic;
  }

  lemma ScanEnd(c: Codec, file: Blob, offset: nat)
    requires offset <= |file|
    ensures offset == |file| ==> Scan(c, file, offset) == Good([], [], offset)
  {}

  lemma SoundParses(c: Codec, file: Blob, offset: nat)
    requires offset + RECORD_PREFIX + 4 <= |file| && RecordSound(c, file, offset)
    ensures
      var end := offset + RECORD_PREFIX + FromLE(file[offset + 8..offset + 12]);
      end + 4 <= |file| && c.parse(file[offset + RECORD_PREFIX..end]).Some?
  {}

  lemma JoinPush(events: seq<Event>, ends: seq<nat>, e: Event, end: nat, s: Scanned)
    ensures Join(events, ends, Push(e, end, s)) == Join(events + [e], ends + [end], s)
  {
    if s.Good? {
      assert events + ([e] + s.events) == events + [e] + s.events;
      assert ends + ([end] + s.ends) == ends + [end] + s.ends;
    }
  }

  lemma ResizedEncoded(c: Codec, events: seq<Event>, n: nat)
    requires n <= |events|
    ensures FILE_HEADER + |Records(c, events[..n])| <= |Encoded(c, events)|
    ensures Encoded(c, events)[..FILE_HEADER + |Records(c, events[..n])|] == Encoded(c, events[..n])
  {
    hide FileHeader, Records;
    EndsAt(c, events, FILE_HEADER, n);
  }

  lemma CutEncoded(c: Codec, events: seq<Event>, cut: nat, n: nat)
    requires FILE_HEADER <= cut <= |Encoded(c, events)| && n <= |events| && n == Whole(c, events, cut - FILE_HEADER)
    ensures FILE_HEADER + |Records(c, events[..n])| <= cut
    ensures Encoded(c, events)[..cut][..FILE_HEADER + |Records(c, events[..n])|] == Encoded(c, events[..n])
  {
    hide FileHeader, Records;
    WholeFits(c, events, cut - FILE_HEADER);
    ResizedEncoded(c, events, n);
  }

  lemma {:induction false} WholeFits(c: Codec, events: seq<Event>, m: nat)
    ensures |Records(c, events[..Whole(c, events, m)])| <= m
    decreases |events|
  {
    hide Record;
    if events != [] && |Record(c, events[0])| <= m {
      var k := m - |Record(c, events[0])|;
      WholeFits(c, events[1..], k);
      var n := Whole(c, events[1..], k);
      assert events[..n + 1][1..] == events[1..][..n];
    }
  }

  lemma LastEnd(c: Codec, events: seq<Event>, start: nat)
    ensures events != [] ==> Ends(c, events, start)[|events| - 1] == start + |Records(c, events)|
  {
    EndsAt(c, events, start, |events|);
    assert events[..|events|] == events;
  }
}
