// The adapter between the core's staged targets and the store.
module AdapterWrites {
  import opened Logs
  import opened Transition
  import opened Local
  import opened Cluster
  import opened SafetyDisks
  import opened Adapter

  // ---------------------------------------------------------------- crash points

  // What the files hold after term and vote, the cut and n appended entries.
  function Partway(c: Durable, delta: Delta, n: nat): Durable
    requires DeltaFits(c, delta) && c.snapshotIndex <= c.commit && n <= |delta.append|
  {
    c.(term := delta.term, votedFor := delta.votedFor,
       log := c.log[..delta.keepIndex - c.snapshotIndex] + delta.append[..n])
  }

  // Every image the files can hold while delta is written over c.
  ghost predicate DeltaPoint(c: Durable, delta: Delta, e: Durable)
    requires DeltaFits(c, delta) && c.snapshotIndex <= c.commit
  {
    e == c || e == c.(term := delta.term, votedFor := delta.votedFor) ||
    (exists n: nat :: n <= |delta.append| && e == Partway(c, delta, n)) ||
    e == DeltaResult(c, delta)
  }

  // Every crash point of a staged write is one the cluster model allows for.
  lemma DeltaPointRecoverable(d: Durable, target: Durable, token: nat, e: Durable)
    requires Staged(d, target) && DeltaFits(Replayed(d), DeltaOf(d, target))
    requires DeltaPoint(Replayed(d), DeltaOf(d, target), e)
    ensures Recoverable(d, Some(PersistRequest(token, target, StateUpdate)), e)
  {
    hide Target, ValidTerms, DeltaFits, ValidId;
    DeltaFaithful(d, target);
    var delta := DeltaOf(d, target);
    var common := CommonPrefix(d.log, target.log);
    if n: nat :| n <= |delta.append| && e == Partway(Replayed(d), delta, n) {
      assert d.log[..common] + target.log[common..][..n] == target.log[..common + n];
      assert e == Replayed(PartlyWritten(d, target, common + n));
    }
  }

  // ... and recovery from it is valid, not behind the old disk and still has the
  // committed prefix.
  lemma DeltaPointSafe(d: Durable, target: Durable, e: Durable)
    requires Staged(d, target) && DeltaFits(Replayed(d), DeltaOf(d, target))
    requires DeltaPoint(Replayed(d), DeltaOf(d, target), e)
    ensures ValidDurable(e) && Advances(d, e)
  {
    hide Advances, ValidTerms, DeltaFits, ValidId, DeltaPoint, Recoverable;
    DeltaPointRecoverable(d, target, 0, e);
    CrashAdvances(d, Some(PersistRequest(0, target, StateUpdate)), e);
  }

  // ---------------------------------------------------------------- the adapter

  class FileEngineAdapter {
    const store: Store
    var current: Durable
    var uncertain: bool

    ghost predicate Valid()
      reads this, store
    {
      !uncertain ==> FilesOK(store.files) && !store.recoveryRequired && current == Image(store.files)
    }

    constructor (store: Store)
      requires FilesOK(store.files)
      ensures Valid() && this.store == store && current == Image(store.files) && uncertain == store.recoveryRequired
    {
      this.store := store;
      current := Image(store.files);
      uncertain := store.recoveryRequired;
    }

    // Write term and vote if they change.
    method WriteMetadata(term: nat, vote: Option<Id>) returns (ok: bool)
      requires Valid() && !uncertain && term >= current.term
      modifies store
      ensures FilesOK(store.files)
      ensures ok ==> !store.recoveryRequired && Image(store.files) == current.(term := term, votedFor := vote)
      ensures Image(store.files) == current || Image(store.files) == current.(term := term, votedFor := vote)
      ensures old(store.fuel) > 0 ==> ok && store.fuel >= old(store.fuel) - 1
      ensures store.fuel <= old(store.fuel)
    {
      TermImage(store.files, term, vote);
      if term != current.term || vote != current.votedFor {
        ok := store.PersistConsensus(term, vote);
      } else {
        ok := true;
      }
    }

    // Cut the log back to what is kept.
    method CutLog(keep: nat) returns (ok: bool)
      requires FilesOK(store.files) && !store.recoveryRequired
      requires store.files.commit <= keep <= LastLogIndex(store.files)
      modifies store
      ensures FilesOK(store.files)
      ensures
        var c := old(Image(store.files));
        c.snapshotIndex <= keep <= LastIndex(c) &&
        (ok ==>
          !store.recoveryRequired && Image(store.files) == c.(log := c.log[..keep - c.snapshotIndex]) &&
          LastLogIndex(store.files) == keep) &&
        (Image(store.files) == c || Image(store.files) == c.(log := c.log[..keep - c.snapshotIndex]))
      ensures old(store.fuel) > 0 ==> ok && store.fuel >= old(store.fuel) - 1
      ensures store.fuel <= old(store.fuel)
    {
      hide Suffix, LogTermAt;
      KeptIndex(store.files, keep);
      TruncatedImage(store.files, keep);
      if keep < LastLogIndex(store.files) {
        ok := store.TruncateAfter(keep);
        if ok {
          KeptLength(old(store.files), keep);
        }
      } else {
        ok := true;
      }
    }

    // Append one record after the other.
    method AppendAll(append: Log) returns (ok: bool)
      requires FilesOK(store.files) && !store.recoveryRequired
      modifies store
      ensures FilesOK(store.files)
      ensures
        var c := old(Image(store.files));
        (ok ==>
          !store.recoveryRequired && Image(store.files) == c.(log := c.log + append) &&
          LastLogIndex(store.files) == old(LastLogIndex(store.files)) + |append|) &&
        exists n: nat :: n <= |append| && Image(store.files) == c.(log := c.log + append[..n])
      ensures old(store.fuel) >= |append| ==> ok && store.fuel >= old(store.fuel) - |append|
      ensures store.fuel <= old(store.fuel) && (!ok ==> store.fuel == 0)
    {
      hide FilesOK, Image, Appended, LastLogIndex;
      ghost var c, last := Image(store.files), LastLogIndex(store.files);
      ok := true;
      var n := 0;
      assert c.log + append[..0] == c.log;
      while n < |append|
        invariant 0 <= n <= |append| && FilesOK(store.files) && !store.recoveryRequired && ok
        invariant Image(store.files) == c.(log := c.log + append[..n])
        invariant LastLogIndex(store.files) == last + n
        invariant old(store.fuel) - n <= store.fuel <= old(store.fuel)
      {
        AppendedImage(store.files, append[n]);
        assert c.log + append[..n] + [append[n]] == c.log + append[..n + 1];
        ok := store.AppendEvent(LastLogIndex(store.files) + 1, append[n]);
        if !ok {
          return;
        }
        n := n + 1;
      }
      assert append[..n] == append;
    }

    // Metadata, cut, appends, commit: in this order.
    method WriteDelta(delta: Delta) returns (ok: bool)
      requires Valid() && !uncertain && DeltaFits(current, delta)
      modifies store
      ensures FilesOK(store.files) && current.snapshotIndex <= current.commit
      ensures ok ==> !store.recoveryRequired && Image(store.files) == DeltaResult(current, delta)
      ensures DeltaPoint(current, delta, Image(store.files))
      ensures old(store.fuel) > |delta.append| + 2 ==> ok
      ensures !ok ==> store.fuel == 0
    {
      hide FilesOK, Image, LastLogIndex, ValidId, Suffix;
      BaseBelow(store.files);
      ghost var c := current;
      ghost var kept := delta.keepIndex - c.snapshotIndex;
      ok := WriteMetadata(delta.term, delta.votedFor);
      if !ok {
        return;
      }
      SameFilesIndex(store.files, c, delta.term, delta.votedFor, delta.keepIndex);
      ok := CutLog(delta.keepIndex);
      assert c.log[..kept] + delta.append[..0] == c.log[..kept];
      assert Image(store.files) == c.(term := delta.term, votedFor := delta.votedFor) ||
             Image(store.files) == Partway(c, delta, 0);
      if !ok {
        return;
      }
      ghost var m := Image(store.files);
      ok := AppendAll(delta.append);
      ghost var n: nat :| n <= |delta.append| && Image(store.files) == m.(log := m.log + delta.append[..n]);
      assert Image(store.files) == Partway(c, delta, n);
      if !ok {
        return;
      }
      assert delta.append[..|delta.append|] == delta.append;
      if delta.commit > current.commit {
        CommitIndex(store.files, delta.commit);
        CommittedImage(store.files, delta.commit);
        ok := store.CommitThrough(delta.commit);
        assert Image(store.files) == Partway(c, delta, |delta.append|) || Image(store.files) == DeltaResult(c, delta);
      } else {
        ImageApplied(store.files);
      }
    }

    // Check everything first; a refused delta leaves no trace. domainOk is the
    // application's verdict on decoding and applying the new entries.
    method PersistDelta(delta: Delta, domainOk: bool) returns (ok: bool)
      requires Valid()
      modifies this`current, this`uncertain, store
      ensures Valid()
      ensures ok ==>
        !old(uncertain) && !uncertain && domainOk && DeltaAccepted(old(current), delta) &&
        old(current).snapshotIndex <= old(current).commit && current == DeltaResult(old(current), delta)
      ensures !ok && !uncertain ==> store.files == old(store.files) && current == old(current)
      ensures !ok && uncertain && !old(uncertain) ==>
        DeltaFits(old(current), delta) && old(current).snapshotIndex <= old(current).commit && FilesOK(store.files) &&
        DeltaPoint(old(current), delta, Image(store.files))
      ensures !old(uncertain) && domainOk && DeltaAccepted(old(current), delta) ==>
                (old(store.fuel) > |delta.append| + 2 ==> ok) && (!ok ==> store.fuel == 0)
    {
      hide FilesOK, Image, ValidId, AppendTermsFit, DeltaPoint;
      if uncertain || !DeltaFits(current, delta) || DurableTermAt(current, delta.keepIndex).None? {
        return false;
      }
      ok := CheckTerms(delta.append, DurableTermAt(current, delta.keepIndex).value, delta.term);
      if !ok || !domainOk {
        return false;
      }
      ok := WriteDelta(delta);
      uncertain := !ok;
      if ok {
        current := current.(term := delta.term, votedFor := delta.votedFor,
                            log := current.log[..delta.keepIndex - current.snapshotIndex] + delta.append,
                            commit := delta.commit, applied := delta.commit);
      }
    }

    method InstallSnapshot(snapshot: Snapshot, term: nat, vote: Option<Id>) returns (ok: bool)
      requires Valid()
      modifies this`current, this`uncertain, store
      ensures Valid()
      ensures ok ==>
        !old(uncertain) && !uncertain && InstallFits(old(current), snapshot, term, vote) &&
        old(current).snapshotIndex <= old(current).commit &&
        current == InstallTarget(old(current).(term := term, votedFor := vote), snapshot.index, snapshot.term)
      ensures !ok && !uncertain ==> store.files == old(store.files) && current == old(current)
      ensures !ok && uncertain && !old(uncertain) ==>
        FilesOK(store.files) && InstallFits(old(current), snapshot, term, vote) &&
        old(current).snapshotIndex <= old(current).commit &&
        InstallPoint(old(current), snapshot, term, vote, Image(store.files))
      ensures !old(uncertain) && InstallFits(old(current), snapshot, term, vote) ==>
                (old(store.fuel) > 1 ==> ok) && (!ok ==> store.fuel == 0)
    {
      hide FilesOK, Image, ValidId, Installed;
      if uncertain || !InstallFits(current, snapshot, term, vote) {
        return false;
      }
      BaseBelow(store.files);
      ok := WriteMetadata(term, vote);
      uncertain := true;
      if !ok {
        return;
      }
      FilesTerm(store.files);
      InstalledImage(store.files, snapshot.index, snapshot.term);
      ok := store.InstallSnapshot(snapshot.index, snapshot.term);
      if !ok {
        return;
      }
      current := Image(store.files);
      uncertain := false;
    }

    method Checkpoint() returns (ok: bool)
      requires Valid()
      modifies this`current, this`uncertain, store
      ensures Valid()
      ensures ok && old(current.commit) > 0 ==>
        !uncertain && old(current.snapshotIndex <= current.commit <= LastIndex(current)) &&
        current == CompactTarget(old(current))
      ensures !ok && !uncertain ==> store.files == old(store.files) && current == old(current)
      ensures !ok && uncertain && !old(uncertain) ==>
        FilesOK(store.files) && old(current.snapshotIndex <= current.commit <= LastIndex(current)) &&
        (Image(store.files) == old(current) || Image(store.files) == CompactTarget(old(current)))
      ensures !old(uncertain) ==> (old(store.fuel) > 1 ==> ok) && (!ok ==> store.fuel == 0)
    {
      hide FilesOK, Image, Snapshotted, Discarded;
      if uncertain {
        return false;
      }
      BaseBelow(store.files);
      if current.commit == 0 {
        return true;
      }
      uncertain := true;
      SnapshottedImage(store.files);
      ok := store.Checkpoint();
      if !ok {
        return;
      }
      DiscardedImage(store.files);
      ok := store.DiscardCompactedPrefix();
      if !ok {
        return;
      }
      current := Image(store.files);
      uncertain := false;
    }
  }

  lemma FilesTerm(f: Files)
    ensures f.term == Image(f).term && f.commit == Image(f).commit
  {}

  // Every image the files can hold while a snapshot is installed over c.
  predicate InstallPoint(c: Durable, snapshot: Snapshot, term: nat, vote: Option<Id>, e: Durable)
    requires c.snapshotIndex < snapshot.index
  {
    var adopted := c.(term := term, votedFor := vote);
    e == c || e == adopted || e == InstallTarget(adopted, snapshot.index, snapshot.term)
  }

  // A verified snapshot as the host hands it over.
  datatype Snapshot = Snapshot(index: nat, term: nat, verified: bool)

  predicate InstallFits(current: Durable, snapshot: Snapshot, term: nat, vote: Option<Id>) {
    current.commit < snapshot.index < MAX_U64 && snapshot.term <= term && current.term <= term && snapshot.verified &&
    !(term == current.term && current.votedFor.Some? && vote != current.votedFor) &&
    term != 0 && (vote.Some? ==> ValidId(vote.value))
  }

  method CheckTerms(append: Log, previous: nat, term: nat) returns (ok: bool)
    ensures ok == AppendTermsFit(append, previous, term)
  {
    var last, k := previous, 0;
    while k < |append|
      invariant 0 <= k <= |append|
      invariant AppendTermsFit(append, previous, term) == AppendTermsFit(append[k..], last, term)
    {
      if append[k].term < last || append[k].term > term {
        return false;
      }
      last, k := append[k].term, k + 1;
    }
    return true;
  }

  lemma BaseBelow(f: Files)
    requires FilesOK(f)
    ensures Image(f).snapshotIndex <= Image(f).commit && f.commit == Image(f).commit && Image(f).applied == Image(f).commit
  {}

  lemma SameFilesIndex(f: Files, c: Durable, term: nat, vote: Option<Id>, keep: nat)
    requires FilesOK(f) && Image(f) == c.(term := term, votedFor := vote) && c.commit <= keep <= LastIndex(c)
    ensures f.commit <= keep <= LastLogIndex(f)
  {
    LookupsAgree(f, f.commit);
  }

  lemma CommitIndex(f: Files, index: nat)
    requires FilesOK(f) && Image(f).commit <= index <= LastIndex(Image(f))
    ensures f.commit <= index <= LastLogIndex(f)
  {
    LookupsAgree(f, f.commit);
  }

  lemma ImageApplied(f: Files)
    ensures Image(f).applied == Image(f).commit
  {}

  lemma KeptIndex(f: Files, keep: nat)
    requires FilesOK(f) && f.commit <= keep <= LastLogIndex(f)
    ensures Image(f).snapshotIndex <= keep <= LastIndex(Image(f)) && LastLogIndex(f) == LastIndex(Image(f))
    ensures keep == LastLogIndex(f) ==> Image(f) == Image(f).(log := Image(f).log[..keep - Image(f).snapshotIndex])
  {
    LookupsAgree(f, keep);
  }

  lemma KeptLength(f: Files, keep: nat)
    requires FilesOK(f) && f.commit <= keep <= LastLogIndex(f)
    ensures LastLogIndex(Truncated(f, keep)) == keep
  {
    TruncatedImage(f, keep);
    KeptIndex(f, keep);
    KeptIndex(Truncated(f, keep), f.commit);
  }
}
