// From a staged target to the store: metadata, truncation, appends, commit.
module Adapter {
  import opened Logs
  import opened Transition
  import opened Local
  import opened Cluster
  import opened SafetyDisks

  // What has to change on disk: keep everything through keepIndex, then append.
  datatype Delta = Delta(
    baseIndex: nat,
    baseTerm: nat,
    term: nat,
    votedFor: Option<Id>,
    keepIndex: nat,
    append: Log,
    commit: nat)

  // Every index, capacity and vote check made before anything is written.
  predicate DeltaFits(current: Durable, delta: Delta) {
    delta.baseIndex == current.snapshotIndex && delta.baseTerm == current.snapshotTerm &&
    delta.term >= current.term &&
    current.commit <= delta.keepIndex <= LastIndex(current) &&
    |delta.append| <= MAX_ENTRIES && |delta.append| < MAX_U64 - delta.keepIndex &&
    delta.keepIndex - current.snapshotIndex <= MAX_ENTRIES - |delta.append| &&
    current.commit <= delta.commit <= delta.keepIndex + |delta.append| &&
    !(delta.term == current.term && current.votedFor.Some? && delta.votedFor != current.votedFor) &&
    (delta.votedFor.Some? ==> ValidId(delta.votedFor.value))
  }

  // Terms of the appended entries neither decrease nor exceed the new term.
  predicate AppendTermsFit(append: Log, previous: nat, term: nat) {
    append == [] ||
    (previous <= append[0].term <= term && AppendTermsFit(append[1..], append[0].term, term))
  }

  predicate DeltaAccepted(current: Durable, delta: Delta) {
    DeltaFits(current, delta) && DurableTermAt(current, delta.keepIndex).Some? &&
    AppendTermsFit(delta.append, DurableTermAt(current, delta.keepIndex).value, delta.term)
  }

  // The image a successful write leaves. The store applies what it commits.
  function DeltaResult(current: Durable, delta: Delta): Durable
    requires DeltaFits(current, delta) && current.snapshotIndex <= current.commit
  {
    current.(term := delta.term,
             votedFor := delta.votedFor,
             log := current.log[..delta.keepIndex - current.snapshotIndex] + delta.append,
             commit := delta.commit,
             applied := delta.commit)
  }

  // The delta between the node's disk image and a staged target.
  function DeltaOf(d: Durable, target: Durable): Delta {
    var common := CommonPrefix(d.log, target.log);
    Delta(target.snapshotIndex, target.snapshotTerm, target.term, target.votedFor, target.snapshotIndex + common,
          target.log[common..], target.commit)
  }

  // A write of the core that stays within its snapshot boundary.
  ghost predicate Staged(d: Durable, target: Durable) {
    ValidDurable(d) && Target(d, target) && target.snapshotIndex == d.snapshotIndex &&
    target.snapshotTerm == d.snapshotTerm && (target.votedFor.Some? ==> ValidId(target.votedFor.value))
  }

  lemma {:induction false} TermsFit(append: Log, previous: nat, term: nat)
    requires ValidTerms(append, previous, term)
    ensures AppendTermsFit(append, previous, term)
    decreases |append|
  {
    if append != [] {
      var rest := append[1..];
      assert forall k :: 0 <= k < |rest| ==> rest[k] == append[k + 1];
      TermsFit(rest, append[0].term, term);
    }
  }

  // Every staged target passes all checks of the write path, and the write
  // rebuilds exactly the target.
  lemma DeltaFaithful(d: Durable, target: Durable)
    requires Staged(d, target)
    ensures DeltaAccepted(Replayed(d), DeltaOf(d, target))
    ensures DeltaResult(Replayed(d), DeltaOf(d, target)) == Replayed(target)
  {
    hide ValidTerms, AppendTermsFit, ValidId, CommonPrefix, KeepsCommitted;
    var k := CommonPrefix(d.log, target.log);
    CommitShared(d, target);
    TargetTerms(d, target, k);
    assert d.log[..k] + target.log[k..] == target.log;
  }

  lemma TargetTerms(d: Durable, target: Durable, k: nat)
    requires Staged(d, target) && k <= |target.log| && k <= |d.log| && d.log[..k] == target.log[..k]
    ensures DurableTermAt(Replayed(d), d.snapshotIndex + k).Some?
    ensures AppendTermsFit(target.log[k..], DurableTermAt(Replayed(d), d.snapshotIndex + k).value, target.term)
  {
    hide Advances;
    SuffixTerms(target.log, k, target.snapshotTerm, target.term);
    TermsFit(target.log[k..], DurableTermAt(Replayed(d), d.snapshotIndex + k).value, target.term);
    assert k > 0 ==> d.log[k - 1] == d.log[..k][k - 1] == target.log[..k][k - 1];
  }

  // The term check is what it should be: terms are ordered and within bounds.
  lemma {:induction false} TermsChecked(append: Log, previous: nat, term: nat, k: nat)
    requires AppendTermsFit(append, previous, term) && k < |append|
    ensures previous <= append[k].term <= term && forall j :: 0 <= j < k ==> append[j].term <= append[k].term
    decreases |append|
  {
    if k > 0 {
      TermsChecked(append[1..], append[0].term, term, k - 1);
      assert forall j :: 0 < j < |append| ==> append[j] == append[1..][j - 1];
    }
  }

  lemma JoinedTerms(log: Log, append: Log, base: nat, k: nat, term: nat, newTerm: nat)
    requires ValidTerms(log, base, term) && k <= |log| && base <= term <= newTerm
    requires AppendTermsFit(append, if k == 0 then base else log[k - 1].term, newTerm)
    requires forall e :: e in append ==> e.term > 0
    ensures ValidTerms(log[..k] + append, base, newTerm)
  {
    hide AppendTermsFit;
    var l := log[..k] + append;
    forall j | 0 <= j < |append|
      ensures (if k == 0 then base else log[k - 1].term) <= append[j].term <= newTerm
      ensures forall i :: 0 <= i < j ==> append[i].term <= append[j].term
    {
      TermsChecked(append, if k == 0 then base else log[k - 1].term, newTerm, j);
    }
    forall j | 0 <= j < |l|
      ensures l[j].term > 0
    {
      assert j >= k ==> l[j] in append;
    }
  }

  // Whatever the checks let through, from anybody, leaves a valid state that is
  // not behind the old one.
  lemma AcceptedAdvances(c: Durable, delta: Delta)
    requires ValidDurable(c) && c.applied == c.commit && DeltaAccepted(c, delta)
    requires forall e :: e in delta.append ==> e.term > 0
    ensures ValidDurable(DeltaResult(c, delta)) && Advances(c, DeltaResult(c, delta))
  {
    hide AppendTermsFit, ValidId, OrderedTerms;
    var k := delta.keepIndex - c.snapshotIndex;
    assert DurableTermAt(c, delta.keepIndex).value == if k == 0 then c.snapshotTerm else c.log[k - 1].term;
    JoinedTerms(c.log, delta.append, c.snapshotTerm, k, c.term, delta.term);
  }

  // ---------------------------------------------------------------- the store

  // Contents of metadata, log file and snapshot. The log file may still hold
  // records up to the snapshot boundary. appliedTerm is the term of the last
  // applied entry, kept by the application state.
  datatype Files = Files(
    term: nat,
    votedFor: Option<Id>,
    commit: nat,
    first: nat,
    wal: Log,
    snapshotIndex: nat,
    snapshotTerm: nat,
    appliedTerm: nat)

  function LastLogIndex(f: Files): nat {
    if f.wal == [] || f.first + |f.wal| == 0 then f.commit else f.first + |f.wal| - 1
  }

  // The records after the boundary.
  function Suffix(f: Files): Log {
    if f.first > f.snapshotIndex + 1 then f.wal
    else if f.snapshotIndex + 1 - f.first <= |f.wal| then f.wal[f.snapshotIndex + 1 - f.first..]
    else []
  }

  // What recovery rebuilds from the files.
  function Image(f: Files): Durable {
    Durable(f.term, f.votedFor, Suffix(f), f.commit, f.commit, f.snapshotIndex, f.snapshotTerm)
  }

  function LogTermAt(f: Files, index: nat): Option<nat> {
    if index == 0 then Some(0)
    else if f.wal != [] && f.first <= index <= f.first + |f.wal| - 1 then Some(f.wal[index - f.first].term)
    else if f.snapshotIndex == index then Some(f.snapshotTerm)
    else None
  }

  predicate Anchored(f: Files) {
    f.snapshotIndex <= f.commit && (f.snapshotIndex == 0 ==> f.snapshotTerm == 0) &&
    (f.wal == [] ==> f.commit == f.snapshotIndex) &&
    (f.wal != [] ==> 1 <= f.first <= f.snapshotIndex + 1 && f.commit <= f.first + |f.wal| - 1) &&
    (f.wal != [] && f.snapshotIndex >= f.first ==> f.wal[f.snapshotIndex - f.first].term == f.snapshotTerm)
  }

  // The log joins the snapshot and reaches the commit index.
  predicate FilesOK(f: Files) {
    Anchored(f) && LogTermAt(f, f.commit) == Some(f.appliedTerm)
  }

  // The store's own lookups answer like the image.
  lemma LookupsAgree(f: Files, index: nat)
    requires Anchored(f) && f.snapshotIndex <= index <= LastLogIndex(f)
    ensures LastLogIndex(f) == LastIndex(Image(f)) && LogTermAt(f, index) == DurableTermAt(Image(f), index)
  {}

  // Keep the records through index.
  function Truncated(f: Files, index: nat): Files {
    f.(wal := if index + 1 < f.first then []
              else if index + 1 - f.first <= |f.wal| then f.wal[..index + 1 - f.first]
              else f.wal)
  }

  lemma TruncatedSuffix(f: Files, index: nat)
    requires Anchored(f) && f.commit <= index <= LastLogIndex(f)
    ensures index - f.snapshotIndex <= |Suffix(f)|
    ensures Suffix(Truncated(f, index)) == Suffix(f)[..index - f.snapshotIndex]
  {}

  lemma TruncatedOK(f: Files, index: nat)
    requires FilesOK(f) && f.commit <= index <= LastLogIndex(f)
    ensures FilesOK(Truncated(f, index))
  {}

  lemma TruncatedImage(f: Files, index: nat)
    requires FilesOK(f) && f.commit <= index <= LastLogIndex(f)
    ensures FilesOK(Truncated(f, index)) && index - f.snapshotIndex <= |Image(f).log|
    ensures Image(Truncated(f, index)) == Image(f).(log := Image(f).log[..index - f.snapshotIndex])
  {
    hide Suffix, LogTermAt, LastLogIndex;
    TruncatedSuffix(f, index);
    TruncatedOK(f, index);
  }

  function Appended(f: Files, entry: Entry): Files {
    f.(first := if f.wal == [] then LastLogIndex(f) + 1 else f.first, wal := f.wal + [entry])
  }

  lemma AppendedSuffix(f: Files, entry: Entry)
    requires Anchored(f)
    ensures Suffix(Appended(f, entry)) == Suffix(f) + [entry]
  {}

  lemma AppendedOK(f: Files, entry: Entry)
    requires FilesOK(f)
    ensures FilesOK(Appended(f, entry)) && LastLogIndex(Appended(f, entry)) == LastLogIndex(f) + 1
  {}

  lemma AppendedImage(f: Files, entry: Entry)
    requires FilesOK(f)
    ensures FilesOK(Appended(f, entry)) && LastLogIndex(Appended(f, entry)) == LastLogIndex(f) + 1
    ensures Image(Appended(f, entry)) == Image(f).(log := Image(f).log + [entry])
  {
    hide Suffix, LogTermAt, LastLogIndex;
    AppendedSuffix(f, entry);
    AppendedOK(f, entry);
  }

  function CommittedAt(f: Files, index: nat): Files {
    f.(commit := index, appliedTerm := if LogTermAt(f, index).Some? then LogTermAt(f, index).value else f.appliedTerm)
  }

  lemma LoggedTerm(f: Files, index: nat)
    requires Anchored(f) && f.commit <= index <= LastLogIndex(f)
    ensures LogTermAt(f, index).Some?
  {
    hide Suffix;
  }

  lemma SameSuffix(f: Files, g: Files)
    requires g.first == f.first && g.wal == f.wal && g.snapshotIndex == f.snapshotIndex
    ensures Suffix(g) == Suffix(f)
  {}

  lemma CommittedImage(f: Files, index: nat)
    requires FilesOK(f) && f.commit <= index <= LastLogIndex(f)
    ensures FilesOK(CommittedAt(f, index)) && Image(CommittedAt(f, index)) == Image(f).(commit := index, applied := index)
  {
    hide Suffix;
    LoggedTerm(f, index);
    assert LogTermAt(CommittedAt(f, index), index) == LogTermAt(f, index);
    SameSuffix(f, CommittedAt(f, index));
  }

  function WithTerm(f: Files, term: nat, vote: Option<Id>): Files {
    f.(term := term, votedFor := vote)
  }

  lemma TermImage(f: Files, term: nat, vote: Option<Id>)
    requires FilesOK(f)
    ensures FilesOK(WithTerm(f, term, vote)) && Image(WithTerm(f, term, vote)) == Image(f).(term := term, votedFor := vote)
  {
    hide Suffix;
    SameSuffix(f, WithTerm(f, term, vote));
    assert LogTermAt(WithTerm(f, term, vote), f.commit) == LogTermAt(f, f.commit);
  }

  predicate AnchorMatches(f: Files, index: nat, term: nat) {
    f.wal != [] && f.first <= index <= f.first + |f.wal| - 1 && f.wal[index - f.first].term == term
  }

  // A received snapshot replaces all three files at once: the log keeps the
  // boundary record and what follows it when that record carries the right term.
  function Installed(f: Files, index: nat, term: nat): Files {
    f.(snapshotIndex := index,
       snapshotTerm := term,
       commit := index,
       appliedTerm := term,
       term := Max(f.term, term),
       first := index,
       wal := if AnchorMatches(f, index, term) then f.wal[index - f.first..] else [])
  }

  lemma InstalledSuffix(f: Files, index: nat, term: nat)
    requires Anchored(f) && index > f.commit && AnchorMatches(f, index, term)
    ensures index - f.snapshotIndex <= |Suffix(f)|
    ensures Suffix(Installed(f, index, term)) == Suffix(f)[index - f.snapshotIndex..]
  {}

  lemma InstalledOK(f: Files, index: nat, term: nat)
    requires FilesOK(f) && index > f.commit
    ensures FilesOK(Installed(f, index, term))
    ensures !AnchorMatches(f, index, term) ==> Suffix(Installed(f, index, term)) == []
  {}

  lemma AnchorHits(f: Files, index: nat, term: nat)
    requires FilesOK(f) && index > f.commit && AnchorMatches(f, index, term)
    ensures DurableTermAt(Image(f), index) == Some(term)
  {
    LookupsAgree(f, index);
  }

  lemma InstalledImage(f: Files, index: nat, term: nat)
    requires FilesOK(f) && index > f.commit && term <= f.term
    ensures FilesOK(Installed(f, index, term))
    ensures Image(Installed(f, index, term)) == InstallTarget(Image(f), index, term)
  {
    hide Suffix, LogTermAt, LastLogIndex, DurableTermAt, AnchorMatches;
    InstalledOK(f, index, term);
    if AnchorMatches(f, index, term) {
      AnchorHits(f, index, term);
      InstalledSuffix(f, index, term);
    } else {
      AnchorMisses(f, index, term);
    }
  }

  lemma AnchorMisses(f: Files, index: nat, term: nat)
    requires FilesOK(f) && index > f.commit && !AnchorMatches(f, index, term)
    ensures DurableTermAt(Image(f), index) != Some(term)
  {
    LookupsAgree(f, f.commit);
    if index <= LastLogIndex(f) {
      LookupsAgree(f, index);
    }
  }

  // A local snapshot moves the boundary to the applied index; dropping the
  // records before it is a separate step that changes no image.
  function Snapshotted(f: Files): Files {
    f.(snapshotIndex := f.commit, snapshotTerm := f.appliedTerm)
  }

  function Discarded(f: Files): Files {
    if f.wal == [] || f.first >= f.snapshotIndex || f.snapshotIndex > f.first + |f.wal| - 1 then f
    else f.(first := f.snapshotIndex, wal := f.wal[f.snapshotIndex - f.first..])
  }

  lemma SnapshottedImage(f: Files)
    requires FilesOK(f) && f.commit > 0
    ensures FilesOK(Snapshotted(f)) && Image(f).snapshotIndex <= Image(f).commit <= LastIndex(Image(f))
    ensures Image(Snapshotted(f)) == CompactTarget(Image(f))
  {
    LookupsAgree(f, f.commit);
    assert Suffix(Snapshotted(f)) == Suffix(f)[f.commit - f.snapshotIndex..];
  }

  lemma DiscardedImage(f: Files)
    requires FilesOK(f)
    ensures FilesOK(Discarded(f)) && Image(Discarded(f)) == Image(f)
  {
    assert Suffix(Discarded(f)) == Suffix(f);
  }

  // The files behind one store object. `fuel` operations succeed before the
  // device fails; the failing one takes effect or not (`torn`).
  class Store {
    var files: Files
    var recoveryRequired: bool
    var fuel: nat
    var torn: bool

    ghost predicate Valid()
      reads this
    {
      FilesOK(files)
    }

    // Open what is on the device.
    constructor (files: Files, fuel: nat, torn: bool)
      ensures this.files == files && this.fuel == fuel && this.torn == torn && !recoveryRequired
    {
      this.files, this.fuel, this.torn, recoveryRequired := files, fuel, torn, false;
    }

    // One device operation that would leave `next`.
    method Operate(next: Files) returns (ok: bool)
      modifies this`files, this`fuel, this`recoveryRequired
      ensures ok == (old(fuel) > 0) && recoveryRequired == !ok
      ensures fuel == if ok then old(fuel) - 1 else 0
      ensures ok ==> files == next
      ensures files == next || files == old(files)
    {
      ok := fuel > 0;
      if ok || torn {
        files := next;
      }
      if ok {
        fuel := fuel - 1;
      }
      recoveryRequired := !ok;
    }

    method PersistConsensus(term: nat, vote: Option<Id>) returns (ok: bool)
      modifies this`files, this`fuel, this`recoveryRequired
      ensures ok ==> files == old(files).(term := term, votedFor := vote) && !recoveryRequired
      ensures files == old(files) || files == old(files).(term := term, votedFor := vote)
      ensures ok ==> term >= old(files).term
      ensures fuel <= old(fuel)
      ensures old(!recoveryRequired && fuel > 0 && term >= files.term) ==> ok && fuel >= old(fuel) - 1
    {
      if recoveryRequired || term < files.term {
        return false;
      }
      ok := Operate(files.(term := term, votedFor := vote));
    }

    method TruncateAfter(index: nat) returns (ok: bool)
      modifies this`files, this`fuel, this`recoveryRequired
      ensures ok ==> files == Truncated(old(files), index) && !recoveryRequired
      ensures files == old(files) || files == Truncated(old(files), index)
      ensures old(!recoveryRequired && fuel > 0 && index >= files.commit) ==> ok && fuel >= old(fuel) - 1
      ensures fuel <= old(fuel)
    {
      if recoveryRequired || index < files.commit {
        return false;
      }
      var keep := 0;
      while keep < |files.wal| && files.first + keep <= index
        invariant 0 <= keep <= |files.wal| && (keep > 0 ==> files.first + keep - 1 <= index)
      {
        keep := keep + 1;
      }
      ok := Operate(files.(wal := files.wal[..keep]));
    }

    // Only the next index can be appended.
    method AppendEvent(index: nat, entry: Entry) returns (ok: bool)
      modifies this`files, this`fuel, this`recoveryRequired
      ensures ok ==> files == Appended(old(files), entry) && !recoveryRequired
      ensures files == old(files) || files == Appended(old(files), entry)
      ensures ok ==> index == old(LastLogIndex(files)) + 1
      ensures fuel <= old(fuel)
      ensures old(!recoveryRequired && fuel > 0 && index == LastLogIndex(files) + 1) ==> ok && fuel >= old(fuel) - 1
    {
      if recoveryRequired || index != LastLogIndex(files) + 1 {
        return false;
      }
      ok := Operate(Appended(files, entry));
    }

    // Nothing is committed unless every index through it is in the log.
    method CommitThrough(index: nat) returns (ok: bool)
      modifies this`files, this`fuel, this`recoveryRequired
      ensures ok && index >= old(files).commit ==> files == CommittedAt(old(files), index) && !recoveryRequired
      ensures files == old(files) || files == CommittedAt(old(files), index)
      ensures old(!recoveryRequired && fuel > 0 && files.commit <= index <= LastLogIndex(files)) ==>
                ok && fuel >= old(fuel) - 1
      ensures old(index > LastLogIndex(files) && index >= files.commit) ==> files == old(files)
      ensures fuel <= old(fuel)
    {
      if recoveryRequired {
        return false;
      }
      if index < files.commit {
        return true;
      }
      if index > LastLogIndex(files) {
        return false;
      }
      ok := Operate(CommittedAt(files, index));
    }

    // The redo journal makes the three replacements one step.
    method InstallSnapshot(index: nat, term: nat) returns (ok: bool)
      modifies this`files, this`fuel, this`recoveryRequired
      ensures ok && index > old(files).commit ==> files == Installed(old(files), index, term) && !recoveryRequired
      ensures files == old(files) || files == Installed(old(files), index, term)
      ensures old(!recoveryRequired && fuel > 0) ==> ok
      ensures fuel <= old(fuel)
    {
      if recoveryRequired {
        return false;
      }
      if index <= files.commit {
        return true;
      }
      ok := Operate(Installed(files, index, term));
    }

    method Checkpoint() returns (ok: bool)
      modifies this`files, this`fuel, this`recoveryRequired
      ensures ok && old(files).commit > 0 ==> files == Snapshotted(old(files)) && !recoveryRequired
      ensures files == old(files) || files == Snapshotted(old(files))
      ensures old(!recoveryRequired && fuel > 0) ==> ok && fuel >= old(fuel) - 1
      ensures fuel <= old(fuel)
    {
      if recoveryRequired {
        return false;
      }
      if files.commit == 0 {
        return true;
      }
      ok := Operate(Snapshotted(files));
    }

    method DiscardCompactedPrefix() returns (ok: bool)
      modifies this`files, this`fuel, this`recoveryRequired
      ensures ok ==> files == Discarded(old(files)) && !recoveryRequired
      ensures files == old(files) || files == Discarded(old(files))
      ensures old(!recoveryRequired && fuel > 0) ==> ok
      ensures fuel <= old(fuel)
    {
      if recoveryRequired {
        return false;
      }
      if files == Discarded(files) {
        return true;
      }
      ok := Operate(Discarded(files));
    }
  }
}
