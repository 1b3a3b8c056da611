// Installing a snapshot through the redo journal, under process stops and power
// losses at any point of the install and of any number of recoveries.
module JournalInstall {
  import opened Logs
  import opened Bytes
  import opened Journal

  datatype Name = JournalFile | SnapshotFile(index: nat) | MetaFile | WalFile

  type Content = Option<Blob>

  // What a reader sees now, and everything a power loss could bring back.
  datatype File = File(visible: Content, maybe: set<Content>)

  type Files = map<Name, File>

  function At(f: Files, n: Name): File {
    if n in f then f[n] else File(None, {None})
  }

  // How one file operation ends: done and durable, without effect, or visible
  // but not yet durable.
  datatype Outcome = Done | Untouched | Unsynced

  function Written(f: Files, n: Name, c: Content, o: Outcome): Files {
    match o
    case Done => f[n := File(c, {c})]
    case Untouched => f
    case Unsynced => f[n := File(c, At(f, n).maybe + {c})]
  }

  // Deleting is visible at once and durable only after a directory sync.
  function Removed(f: Files, n: Name, o: Outcome): Files {
    if o == Untouched then f else f[n := File(None, At(f, n).maybe + {None})]
  }

  function Synced(f: Files): Files {
    map n | n in f :: File(f[n].visible, {f[n].visible})
  }

  // After a power loss every file is one of the contents it may have had.
  function Lost(f: Files, pick: map<Name, Content>): Files {
    map n | n in f ::
      var c := if n in pick && pick[n] in f[n].maybe then pick[n] else f[n].visible;
      File(c, {c})
  }

  // ---------------------------------------------------------------- states of an install

  datatype Images = Images(snapshot: Content, metadata: Content, wal: Content)

  // One install: the encoded decision, its index, the images before and after.
  datatype Plan = Plan(journal: Blob, index: nat, before: Images, after: Images)

  predicate Fixed(f: Files, n: Name, c: Content) {
    At(f, n) == File(c, {c})
  }

  predicate Among(f: Files, n: Name, a: Content, b: Content) {
    At(f, n).visible in {a, b} && At(f, n).maybe <= {a, b}
  }

  predicate ImagesFixed(f: Files, index: nat, im: Images) {
    Fixed(f, SnapshotFile(index), im.snapshot) && Fixed(f, MetaFile, im.metadata) && Fixed(f, WalFile, im.wal)
  }

  // No trace of a journal; the three files are these and durable.
  predicate Clean(f: Files, index: nat, im: Images) {
    Fixed(f, JournalFile, None) && ImagesFixed(f, index, im)
  }

  // The journal can be read but a power loss may still take it away.
  predicate Deciding(f: Files, p: Plan) {
    At(f, JournalFile).visible == Some(p.journal) && Among(f, JournalFile, None, Some(p.journal)) &&
    ImagesFixed(f, p.index, p.before)
  }

  // The journal is durable; each file is old or new.
  predicate Decided(f: Files, p: Plan) {
    Fixed(f, JournalFile, Some(p.journal)) &&
    Among(f, SnapshotFile(p.index), p.before.snapshot, p.after.snapshot) &&
    Among(f, MetaFile, p.before.metadata, p.after.metadata) && Among(f, WalFile, p.before.wal, p.after.wal)
  }

  // All files are new and durable; the journal's deletion may not be.
  predicate Applied(f: Files, p: Plan) {
    At(f, JournalFile).visible == None && Among(f, JournalFile, None, Some(p.journal)) &&
    ImagesFixed(f, p.index, p.after)
  }

  predicate Consistent(f: Files, p: Plan) {
    Clean(f, p.index, p.before) || Deciding(f, p) || Decided(f, p) || Applied(f, p)
  }

  // Once the decision is durable it stays decided.
  predicate Committed(f: Files, p: Plan) {
    Decided(f, p) || Applied(f, p)
  }

  // A power loss at any moment leaves a state recovery can handle, and cannot
  // take back a durable decision.
  lemma LossConsistent(f: Files, p: Plan, pick: map<Name, Content>)
    requires Consistent(f, p)
    ensures Consistent(Lost(f, pick), p)
    ensures Committed(f, p) ==> Committed(Lost(f, pick), p)
    ensures Clean(f, p.index, p.before) ==> Clean(Lost(f, pick), p.index, p.before)
  {
    var g := Lost(f, pick);
    forall n
      ensures At(g, n).maybe == {At(g, n).visible}
      ensures At(g, n).visible in At(f, n).maybe || At(g, n).visible == At(f, n).visible
    {}
  }

  // Without a journal, nothing a power loss does brings one back.
  lemma LossKeepsGone(f: Files, pick: map<Name, Content>)
    requires Fixed(f, JournalFile, None)
    ensures Fixed(Lost(f, pick), JournalFile, None)
  {}

  // The plan a transaction stands for, over the files f.
  function PlanOf(f: Files, crc: Checksum, v: Transaction): Plan
    requires Encodable(v)
  {
    Plan(Encode(crc, v).value, v.index,
         Images(At(f, SnapshotFile(v.index)).visible, At(f, MetaFile).visible, At(f, WalFile).visible),
         Images(Some(v.snapshot), Some(v.metadata), Some(v.wal)))
  }

  ghost predicate PlanFor(p: Plan, crc: Checksum, v: Transaction) {
    Encodable(v) && p.journal == Encode(crc, v).value && p.index == v.index &&
    p.after == Images(Some(v.snapshot), Some(v.metadata), Some(v.wal))
  }

  predicate AllDone(o: seq<Outcome>) {
    forall k :: 0 <= k < |o| ==> o[k] == Done
  }

  function Nth(o: seq<Outcome>, k: nat): Outcome {
    if k < |o| then o[k] else Done
  }

  // ---------------------------------------------------------------- the directory

  class Directory {
    var files: Files

    method WriteAtomic(n: Name, b: Blob, o: Outcome) returns (ok: bool)
      modifies this
      ensures files == Written(old(files), n, Some(b), o) && ok == (o == Done)
    {
      files := Written(files, n, Some(b), o);
      ok := o == Done;
    }

    method Remove(n: Name, o: Outcome) returns (ok: bool)
      modifies this
      ensures files == Removed(old(files), n, o) && ok == (o != Untouched)
    {
      files := Removed(files, n, o);
      ok := o != Untouched;
    }

    method SyncDirectory(o: Outcome) returns (ok: bool)
      modifies this
      ensures files == (if o == Done then Synced(old(files)) else old(files)) && ok == (o == Done)
    {
      if o == Done {
        files := Synced(files);
      }
      ok := o == Done;
    }

    // Make the decision durable, replace the three files, delete the journal.
    method Apply(v: Transaction, o: seq<Outcome>, ghost p: Plan, ghost crc: Checksum) returns (ok: bool)
      requires PlanFor(p, crc, v) && (Deciding(files, p) || Decided(files, p))
      modifies this
      ensures Consistent(files, p)
      ensures old(Decided(files, p)) ==> Committed(files, p)
      ensures ok ==> Clean(files, p.index, p.after)
      ensures AllDone(o) ==> ok
    {
      hide Deciding, Decided, Applied, Clean, ImagesFixed, Fixed, Written, Removed, Synced;
      Synchronised(files, p);
      ok := SyncDirectory(Nth(o, 0));
      if !ok {
        return;
      }
      SnapshotWritten(files, p, Nth(o, 1));
      ok := WriteAtomic(SnapshotFile(v.index), v.snapshot, Nth(o, 1));
      if !ok {
        return;
      }
      MetaWritten(files, p, Nth(o, 2));
      ok := WriteAtomic(MetaFile, v.metadata, Nth(o, 2));
      if !ok {
        return;
      }
      WalWritten(files, p, Nth(o, 3));
      ok := WriteAtomic(WalFile, v.wal, Nth(o, 3));
      if !ok {
        return;
      }
      JournalRemoved(files, p, Nth(o, 4));
      ok := Remove(JournalFile, Nth(o, 4));
      if !ok {
        return;
      }
      FinallySynced(files, p);
      ok := SyncDirectory(Nth(o, 5));
    }

    // Start an install; refused while another one is pending.
    method Commit(crc: Checksum, v: Transaction, o: seq<Outcome>, ghost p: Plan) returns (ok: bool)
      requires Encodable(v) ==> PlanFor(p, crc, v)
      requires Clean(files, p.index, p.before)
      modifies this
      ensures Consistent(files, p)
      ensures ok ==> Encodable(v) && Clean(files, p.index, p.after)
      ensures !Encodable(v) ==> !ok && files == old(files)
      // The ancestors are synced and the journal written durably: decided.
      ensures Encodable(v) && Nth(o, 0) == Done && Nth(o, 1) == Done ==> Committed(files, p)
      ensures Encodable(v) && AllDone(o) ==> ok
      // The journal never became visible: nothing happened.
      ensures Nth(o, 0) != Done || Nth(o, 1) == Untouched ==> Clean(files, p.index, p.before)
    {
      if At(files, JournalFile).visible.Some? {
        return false;
      }
      var bytes := Encode(crc, v);
      if bytes.None? {
        return false;
      }
      if Nth(o, 0) != Done {
        return false;
      }
      ok := WriteAtomic(JournalFile, bytes.value, Nth(o, 1));
      if !ok {
        return;
      }
      assert Decided(files, p);
      ok := Apply(v, if |o| > 2 then o[2..] else [], p, crc);
    }

    // Finish whatever a journal decided, or make sure there is none left.
    method Recover(crc: Checksum, o: seq<Outcome>, ghost p: Plan, ghost v: Transaction) returns (ok: bool)
      requires PlanFor(p, crc, v) && Consistent(files, p)
      modifies this
      ensures Consistent(files, p)
      ensures old(Committed(files, p)) ==> Committed(files, p)
      ensures old(Clean(files, p.index, p.before)) ==> Clean(files, p.index, p.before)
      ensures ok ==> Clean(files, p.index, p.before) || Clean(files, p.index, p.after)
      ensures ok && old(Committed(files, p)) ==> Clean(files, p.index, p.after)
      ensures AllDone(o) ==> ok
    {
      hide Encode, Decode;
      var journal := At(files, JournalFile).visible;
      if journal.None? {
        ok := SyncDirectory(Nth(o, 0));
        return;
      }
      DecodeEncode(crc, v);
      EncodedSome(crc, v);
      var value := Decode(crc, journal.value);
      if value.None? {
        return false;
      }
      ok := Apply(value.value, o, p, crc);
    }
  }

  // The first sync makes a readable journal durable.
  lemma Synchronised(f: Files, p: Plan)
    requires Deciding(f, p) || Decided(f, p)
    ensures Decided(Synced(f), p)
  {}

  lemma SnapshotWritten(f: Files, p: Plan, o: Outcome)
    requires Decided(f, p)
    ensures
      var g := Written(f, SnapshotFile(p.index), p.after.snapshot, o);
      Decided(g, p) && (o == Done ==> Fixed(g, SnapshotFile(p.index), p.after.snapshot))
  {}

  lemma MetaWritten(f: Files, p: Plan, o: Outcome)
    requires Decided(f, p) && Fixed(f, SnapshotFile(p.index), p.after.snapshot)
    ensures
      var g := Written(f, MetaFile, p.after.metadata, o);
      Decided(g, p) && Fixed(g, SnapshotFile(p.index), p.after.snapshot) &&
      (o == Done ==> Fixed(g, MetaFile, p.after.metadata))
  {}

  lemma WalWritten(f: Files, p: Plan, o: Outcome)
    requires Decided(f, p) && Fixed(f, SnapshotFile(p.index), p.after.snapshot) && Fixed(f, MetaFile, p.after.metadata)
    ensures
      var g := Written(f, WalFile, p.after.wal, o);
      Decided(g, p) && (o == Done ==> ImagesFixed(g, p.index, p.after))
  {}

  // Only once all three files are new and durable may the journal go.
  lemma JournalRemoved(f: Files, p: Plan, o: Outcome)
    requires Decided(f, p) && ImagesFixed(f, p.index, p.after)
    ensures if o == Untouched then Decided(Removed(f, JournalFile, o), p) else Applied(Removed(f, JournalFile, o), p)
  {}

  lemma FinallySynced(f: Files, p: Plan)
    requires Applied(f, p)
    ensures Clean(Synced(f), p.index, p.after) && Applied(Synced(f), p)
  {}

  lemma EncodedSome(crc: Checksum, v: Transaction)
    requires Encodable(v)
    ensures Encode(crc, v).Some?
  {}

  // ---------------------------------------------------------------- any number of crashes

  // The process stops; perhaps power is lost too; recovery runs with these
  // outcomes until one of its operations fails.
  datatype Incident = Incident(loss: Option<map<Name, Content>>, outcomes: seq<Outcome>)

  lemma CleanPlan(f: Files, crc: Checksum, v: Transaction)
    requires Encodable(v) && Fixed(f, JournalFile, None)
    requires ImagesFixed(f, v.index, PlanOf(f, crc, v).before)
    ensures PlanFor(PlanOf(f, crc, v), crc, v) && Clean(f, v.index, PlanOf(f, crc, v).before)
  {
    hide Encode;
  }

  // An install and every recovery after it, until the first one completes.
  method Survive(dir: Directory, crc: Checksum, v: Transaction, first: seq<Outcome>, incidents: seq<Incident>)
    returns (settled: bool)
    requires Encodable(v) && Fixed(dir.files, JournalFile, None)
    requires ImagesFixed(dir.files, v.index, PlanOf(dir.files, crc, v).before)
    modifies dir
    ensures
      var p := old(PlanOf(dir.files, crc, v));
      Consistent(dir.files, p) &&
      (settled ==> Clean(dir.files, v.index, p.before) || Clean(dir.files, v.index, p.after)) &&
      (Nth(first, 0) == Done && Nth(first, 1) == Done && settled ==> Clean(dir.files, v.index, p.after)) &&
      (Nth(first, 0) != Done || Nth(first, 1) == Untouched ==> Clean(dir.files, v.index, p.before))
    ensures (exists k :: 0 <= k < |incidents| && AllDone(incidents[k].outcomes)) ==> settled
  {
    hide Encode, Encodable, Consistent, Clean, Committed, ImagesFixed, PlanOf;
    ghost var p := PlanOf(dir.files, crc, v);
    CleanPlan(dir.files, crc, v);
    settled := dir.Commit(crc, v, first, p);
    var k := 0;
    while k < |incidents| && !settled
      invariant 0 <= k <= |incidents| && Consistent(dir.files, p)
      invariant settled ==> Clean(dir.files, p.index, p.before) || Clean(dir.files, p.index, p.after)
      invariant Nth(first, 0) == Done && Nth(first, 1) == Done ==>
        (settled ==> Clean(dir.files, p.index, p.after)) && (!settled ==> Committed(dir.files, p))
      invariant Nth(first, 0) != Done || Nth(first, 1) == Untouched ==> Clean(dir.files, p.index, p.before)
      invariant forall i :: 0 <= i < k && AllDone(incidents[i].outcomes) ==> settled
    {
      if incidents[k].loss.Some? {
        LossConsistent(dir.files, p, incidents[k].loss.value);
        dir.files := Lost(dir.files, incidents[k].loss.value);
      }
      settled := dir.Recover(crc, incidents[k].outcomes, p, v);
      k := k + 1;
    }
  }

  // ---------------------------------------------------------------- later writes

  // An ordinary write after the install has been settled.
  datatype Write = Write(name: Name, content: Content, outcome: Outcome)

  function Wrote(f: Files, writes: seq<Write>): Files {
    if writes == [] then f
    else
      var w := writes[|writes| - 1];
      Written(Wrote(f, writes[..|writes| - 1]), w.name, w.content, w.outcome)
  }

  lemma {:induction false} StaysGone(f: Files, writes: seq<Write>)
    requires Fixed(f, JournalFile, None) && forall w :: w in writes ==> w.name != JournalFile
    ensures Fixed(Wrote(f, writes), JournalFile, None)
    decreases |writes|
  {
    if writes != [] {
      StaysGone(f, writes[..|writes| - 1]);
    }
  }

  // A settled install cannot overwrite anything written after it: whatever a
  // power loss does, recovery finds no journal and leaves every file as it is.
  lemma LaterWritesSurvive(f: Files, writes: seq<Write>, pick: map<Name, Content>, n: Name)
    requires Fixed(f, JournalFile, None) && forall w :: w in writes ==> w.name != JournalFile
    ensures
      var g := Lost(Wrote(f, writes), pick);
      At(g, JournalFile).visible == None && At(Synced(g), n).visible == At(g, n).visible &&
      (At(g, n).visible in At(Wrote(f, writes), n).maybe || At(g, n).visible == At(Wrote(f, writes), n).visible)
  {
    StaysGone(f, writes);
    LossKeepsGone(Wrote(f, writes), pick);
  }
}
