// What every step keeps on one node, whatever inputs and messages it is given.
module Local {
  import opened Logs
  import opened Transition

  // The retained entry at absolute index k.
  function EntryAt(d: Durable, k: nat): Entry
    requires d.snapshotIndex < k <= LastIndex(d)
  {
    d.log[k - d.snapshotIndex - 1]
  }

  ghost predicate KeepsCommitted(d: Durable, e: Durable) {
    e.snapshotIndex <= LastIndex(e) && d.commit <= LastIndex(e) && d.commit <= LastIndex(d) &&
    (forall k: nat {:trigger EntryAt(e, k)} :: e.snapshotIndex < k <= d.commit && d.snapshotIndex < k ==>
      EntryAt(e, k) == EntryAt(d, k)) &&
    (forall k: nat {:trigger DurableTermAt(e, k)} :: e.snapshotIndex <= k <= d.commit ==>
      DurableTermAt(e, k) == DurableTermAt(d, k))
  }

  // e can replace d on disk: nothing goes backwards, a vote is kept for its
  // term and no committed entry that is still retained changes.
  ghost predicate Advances(d: Durable, e: Durable) {
    d.term <= e.term && d.commit <= e.commit && d.applied <= e.applied && d.snapshotIndex <= e.snapshotIndex &&
    (d.term == e.term && d.votedFor.Some? ==> e.votedFor == d.votedFor) &&
    KeepsCommitted(d, e)
  }

  lemma AdvancesRefl(d: Durable)
    requires ValidDurable(d)
    ensures Advances(d, d)
  {}

  lemma AdvancesTrans(d: Durable, e: Durable, f: Durable)
    requires Advances(d, e) && Advances(e, f)
    ensures Advances(d, f)
  {
    forall k: nat | f.snapshotIndex < k <= d.commit && d.snapshotIndex < k
      ensures EntryAt(f, k) == EntryAt(d, k)
    {
      assert EntryAt(e, k) == EntryAt(d, k);
    }
    forall k: nat | f.snapshotIndex <= k <= d.commit
      ensures DurableTermAt(f, k) == DurableTermAt(d, k)
    {
      assert DurableTermAt(e, k) == DurableTermAt(d, k);
    }
  }

  // ---------------------------------------------------------------- staged targets

  // A target that may be staged over d.
  ghost predicate Target(d: Durable, e: Durable) {
    ValidDurable(e) && Advances(d, e)
  }

  // The log is untouched.
  lemma TargetSameLog(d: Durable, e: Durable)
    requires ValidDurable(d) && d.term <= e.term
    requires d.commit <= e.commit <= LastIndex(d) && d.applied <= e.applied <= e.commit
    requires e.log == d.log && e.snapshotIndex == d.snapshotIndex && e.snapshotTerm == d.snapshotTerm
    requires d.term == e.term && d.votedFor.Some? ==> e.votedFor == d.votedFor
    ensures Target(d, e)
  {}

  lemma SuffixTerms(log: Log, k: nat, before: nat, term: nat)
    requires ValidTerms(log, before, term) && k <= |log|
    ensures ValidTerms(log[k..], if k == 0 then before else log[k - 1].term, term)
  {}

  // Moving the boundary to an index nothing beyond it was committed at.
  lemma BoundaryKeeps(d: Durable, e: Durable)
    requires d.snapshotIndex <= d.commit <= LastIndex(d) && d.commit <= e.snapshotIndex
    requires e.snapshotIndex == d.commit ==> DurableTermAt(d, d.commit) == Some(e.snapshotTerm)
    ensures KeepsCommitted(d, e)
  {}

  lemma TargetCompact(d: Durable)
    requires ValidDurable(d) && d.applied == d.commit
    ensures Target(d, CompactTarget(d))
  {
    hide ValidTerms, KeepsCommitted;
    var o := d.commit - d.snapshotIndex;
    SuffixTerms(d.log, o, d.snapshotTerm, d.term);
    BoundaryKeeps(d, CompactTarget(d));
    BoundaryTerm(d, d.commit);
  }

  // The term at a retained index is positive (unless it is index zero) and not
  // beyond the current term.
  lemma BoundaryTerm(d: Durable, k: nat)
    requires ValidDurable(d) && d.snapshotIndex <= k <= LastIndex(d)
    ensures DurableTermAt(d, k).Some? && DurableTermAt(d, k).value <= d.term
    ensures DurableTermAt(d, k).value == 0 <==> k == 0
  {}

  lemma PrevInRange(d: Durable, k: nat)
    requires DurableTermAt(d, k).Some?
    ensures d.snapshotIndex <= k <= LastIndex(d)
  {}

  lemma TargetInstall(d: Durable, index: nat, term: nat)
    requires ValidDurable(d) && d.commit < index < MAX_U64 && 0 < term <= d.term
    ensures Target(d, InstallTarget(d, index, term))
    ensures
      var e := InstallTarget(d, index, term);
      if DurableTermAt(d, index) == Some(term)
      then LastIndex(e) == LastIndex(d) && forall k: nat :: index < k <= LastIndex(d) ==> EntryAt(e, k) == EntryAt(d, k)
      else LastIndex(e) == index
  {
    hide ValidTerms, KeepsCommitted;
    var e := InstallTarget(d, index, term);
    BoundaryKeeps(d, e);
    if DurableTermAt(d, index) == Some(term) {
      SuffixTerms(d.log, index - d.snapshotIndex, d.snapshotTerm, d.term);
    } else {
      NoTerms(term, d.term);
    }
  }

  lemma NoTerms(before: nat, term: nat)
    ensures ValidTerms([], before, term)
  {}

  // Laying entries over a log that already holds them changes nothing;
  // otherwise everything after `prev` becomes exactly those entries.
  lemma {:induction false} MergeShape(log: Log, base: nat, commit: nat, prev: nat, entries: Log)
    requires base <= prev <= base + |log| && Merge(log, base, commit, prev, entries).ok
    ensures Merge(log, base, commit, prev, entries).log ==
            if Holds(log, prev - base, entries) then log else log[..prev - base] + entries
    decreases |entries|
  {
    var o := prev - base;
    if entries == [] {
    } else if o == |log| {
      MergeTail(log, base, commit, prev, entries);
    } else if log[o] != entries[0] {
      MergeTail(log[..o] + [entries[0]], base, commit, prev + 1, entries[1..]);
      assert log[..o] + [entries[0]] + entries[1..] == log[..o] + entries;
      HoldsRest(log, o, entries);
    } else {
      MergeShape(log, base, commit, prev + 1, entries[1..]);
      HoldsRest(log, o, entries);
      assert log[..o + 1] + entries[1..] == log[..o] + entries;
    }
  }

  predicate Holds(log: Log, o: nat, entries: Log) {
    o + |entries| <= |log| && log[o..o + |entries|] == entries
  }

  lemma HoldsRest(log: Log, o: nat, entries: Log)
    requires o < |log| && entries != []
    ensures Holds(log, o, entries) <==> log[o] == entries[0] && Holds(log, o + 1, entries[1..])
  {
    if o + |entries| <= |log| {
      assert log[o..o + |entries|] == [log[o]] + log[o + 1..o + |entries|];
      assert entries == [entries[0]] + entries[1..];
      assert Holds(log, o, entries) ==> log[o + 1..o + |entries|] == log[o..o + |entries|][1..];
    }
  }

  // An accepted merge leaves the committed prefix alone.
  lemma {:induction false} MergeKeepsCommitted(log: Log, base: nat, commit: nat, prev: nat, entries: Log)
    requires base <= prev <= base + |log| && Merge(log, base, commit, prev, entries).ok
    requires base <= commit <= base + |log|
    ensures
      var l := Merge(log, base, commit, prev, entries).log;
      commit <= base + |l| && l[..commit - base] == log[..commit - base]
    decreases |entries|
  {
    var o, c := prev - base, commit - base;
    if entries != [] {
      var e, rest := entries[0], entries[1..];
      if o == |log| {
        MergeTail(log, base, commit, prev, entries);
      } else if log[o] != e {
        MergeTail(log[..o] + [e], base, commit, prev + 1, rest);
        assert (log[..o] + [e] + rest)[..c] == log[..c];
      } else {
        MergeKeepsCommitted(log, base, commit, prev + 1, rest);
      }
    }
  }

  // Past the end of the log the entries are simply appended.
  lemma {:induction false} MergeTail(log: Log, base: nat, commit: nat, prev: nat, entries: Log)
    requires prev == base + |log|
    ensures Merge(log, base, commit, prev, entries) == Merged(log + entries, true)
    decreases |entries|
  {
    if entries == [] {
      assert log + entries == log;
    } else {
      MergeTail(log + [entries[0]], base, commit, prev + 1, entries[1..]);
      assert log + [entries[0]] + entries[1..] == log + entries;
    }
  }

  lemma {:induction false} EntriesOrdered(entries: Log, previous: nat, maximum: nat)
    requires EntriesAcceptable(entries, previous, maximum)
    ensures ValidTerms(entries, previous, maximum)
    ensures forall k :: 0 <= k < |entries| ==> previous <= entries[k].term <= maximum
    decreases |entries|
  {
    if entries != [] {
      EntriesOrdered(entries[1..], entries[0].term, maximum);
      assert forall k :: 0 < k < |entries| ==> entries[k] == entries[1..][k - 1];
    }
  }

  lemma OrderedJoin(log: Log, entries: Log)
    requires OrderedTerms(log) && OrderedTerms(entries)
    requires log != [] && entries != [] ==> log[|log| - 1].term <= entries[0].term
    ensures OrderedTerms(log + entries)
  {
    var l := log + entries;
    forall j, k | 0 <= j < k < |l|
      ensures l[j].term <= l[k].term
    {
      if j < |log| <= k {
        LastIsLargest(log, j);
        FirstIsSmallest(entries, k - |log|);
      }
    }
  }

  lemma LastIsLargest(l: Log, j: nat)
    requires OrderedTerms(l) && j < |l|
    ensures l[j].term <= l[|l| - 1].term
  {}

  lemma FirstIsSmallest(l: Log, k: nat)
    requires OrderedTerms(l) && k < |l|
    ensures l[0].term <= l[k].term
  {}

  lemma AppendedTerms(log: Log, entries: Log, before: nat, term: nat)
    requires ValidTerms(log, before, term)
    requires ValidTerms(entries, if log == [] then before else log[|log| - 1].term, term)
    ensures ValidTerms(log + entries, before, term)
  {
    hide OrderedTerms;
    OrderedJoin(log, entries);
    if log != [] && entries != [] {
      LastIsLargest(log, 0);
    }
  }

  lemma PrefixTerms(log: Log, k: nat, before: nat, term: nat)
    requires ValidTerms(log, before, term) && k <= |log|
    ensures ValidTerms(log[..k], before, term)
  {}

  // The merged log's terms.
  lemma MergedTerms(d: Durable, m: Message)
    requires ValidDurable(d) && m.AppendEntries? && d.term == m.term
    requires EntriesAcceptable(m.entries, m.prevTerm, m.term) && DurableTermAt(d, m.prevIndex) == Some(m.prevTerm)
    ensures d.snapshotIndex <= m.prevIndex <= LastIndex(d)
    ensures ValidTerms(d.log[..m.prevIndex - d.snapshotIndex] + m.entries, d.snapshotTerm, d.term)
  {
    hide ValidTerms;
    var o := m.prevIndex - d.snapshotIndex;
    PrefixTerms(d.log, o, d.snapshotTerm, d.term);
    EntriesOrdered(m.entries, m.prevTerm, m.term);
    AppendedTerms(d.log[..o], m.entries, d.snapshotTerm, d.term);
  }

  // d already has the message's term.
  lemma TargetAppend(d: Durable, m: Message, commit: nat)
    requires ValidDurable(d) && m.AppendEntries? && d.term == m.term
    requires m.prevIndex + |m.entries| <= MAX_U64 - 1 && EntriesAcceptable(m.entries, m.prevTerm, m.term)
    requires DurableTermAt(d, m.prevIndex) == Some(m.prevTerm)
    requires m.prevIndex + |m.entries| - d.snapshotIndex <= MAX_ENTRIES
    requires Merge(d.log, d.snapshotIndex, d.commit, m.prevIndex, m.entries).ok
    requires d.commit <= commit && (commit == d.commit || commit <= m.prevIndex + |m.entries|)
    ensures Target(d, d.(log := Merge(d.log, d.snapshotIndex, d.commit, m.prevIndex, m.entries).log, commit := commit))
  {
    hide Merge, ValidTerms, EntriesAcceptable, KeepsCommitted, Holds;
    var l := Merge(d.log, d.snapshotIndex, d.commit, m.prevIndex, m.entries).log;
    MergedTerms(d, m);
    MergeShape(d.log, d.snapshotIndex, d.commit, m.prevIndex, m.entries);
    MergeKeepsCommitted(d.log, d.snapshotIndex, d.commit, m.prevIndex, m.entries);
    HeldLength(d.log, m.prevIndex - d.snapshotIndex, m.entries);
    SharedKeeps(d, d.(log := l, commit := commit));
  }

  lemma HeldLength(log: Log, o: nat, entries: Log)
    ensures Holds(log, o, entries) ==> o + |entries| <= |log|
  {}

  lemma SharedKeeps(d: Durable, e: Durable)
    requires ValidDurable(d) && e.snapshotIndex == d.snapshotIndex && e.snapshotTerm == d.snapshotTerm
    requires d.commit <= LastIndex(e) && e.log[..d.commit - d.snapshotIndex] == d.log[..d.commit - d.snapshotIndex]
    ensures KeepsCommitted(d, e)
  {
    var c := d.commit - d.snapshotIndex;
    assert forall k :: 0 <= k < c ==> e.log[k] == e.log[..c][k] && d.log[k] == d.log[..c][k];
    MergedKeeps(d, e);
  }

  lemma MergedKeeps(d: Durable, e: Durable)
    requires ValidDurable(d) && e.snapshotIndex == d.snapshotIndex && e.snapshotTerm == d.snapshotTerm
    requires d.commit <= LastIndex(e)
    requires forall k :: 0 <= k < d.commit - d.snapshotIndex ==> e.log[k] == d.log[k]
    ensures KeepsCommitted(d, e)
  {}

  // ---------------------------------------------------------------- steps

  ghost predicate LocalInv(node: Node) {
    ValidNode(node) && node.durable.term >= 1 &&
    (node.pending.Some? ==> Advances(node.durable, node.pending.value.target))
  }

  // Messages held back until the write in flight completes.
  function HeldBack(node: Node): seq<Outbound> {
    if node.pending.Some? then node.pending.value.after else []
  }

  // What the node has, durable or staged.
  function Newest(node: Node): Durable {
    if node.pending.Some? then node.pending.value.target else node.durable
  }

  // One step: the disk image changes only to the staged target; a step that
  // stages a write releases nothing; staging and the persist request agree.
  ghost predicate StepOK(node: Node, next: Node, effects: Effects) {
    LocalInv(next) &&
    (next.durable == node.durable ||
     (node.pending.Some? && !node.halted && next.pending.None? && next.durable == node.pending.value.target)) &&
    (effects.persist.Some? ==>
      node.pending.None? && !node.halted && next.durable == node.durable &&
      next.pending.Some? && next.pending.value.token == effects.persist.value.token &&
      next.pending.value.target == effects.persist.value.target &&
      effects.send == [] && effects.apply == [] && effects.snapshotNeeded == []) &&
    (effects.persist.None? ==> next.pending == node.pending || next.pending.None?) &&
    (effects.apply != [] ==> node.pending.Some? && next.durable == node.pending.value.target)
  }

  ghost predicate Idling(node: Node) {
    LocalInv(node) && node.pending.None? && !node.halted
  }

  // Sending touches progress, request identifiers and the read barrier only.
  ghost predicate SameDisk(a: Node, b: Node) {
    a.durable == b.durable && a.pending == b.pending && a.halted == b.halted && a.nextToken == b.nextToken &&
    a.vol.role == b.vol.role && a.vol.votes == b.vol.votes && a.vol.peers.Keys == b.vol.peers.Keys
  }

  lemma SendOneFrame(config: Config, s: Sending, log: Durable, peer: Id)
    ensures SameDisk(s.node, SendAppend(config, s, log, peer).node)
  {}

  lemma {:induction false} SendAllFrame(config: Config, s: Sending, log: Durable, peers: seq<Id>)
    ensures SameDisk(s.node, SendAll(config, s, log, peers).node)
    decreases |peers|
  {
    if peers != [] {
      SendOneFrame(config, s, log, peers[0]);
      SendAllFrame(config, SendAppend(config, s, log, peers[0]), log, peers[1..]);
    }
  }

  lemma {:induction false} BeatAllFrame(config: Config, s: Sending, peers: seq<Id>)
    ensures SameDisk(s.node, BeatAll(config, s, peers).node)
    decreases |peers|
  {
    if peers != [] {
      SendOneFrame(config, s, s.node.durable, peers[0]);
      BeatAllFrame(config, BeatOne(config, s, peers[0]), peers[1..]);
    }
  }

  lemma LeaderFrame(config: Config, node: Node, effects: Effects)
    ensures
      var (next, out) := BecomeLeader(config, node, effects);
      next.durable == node.durable && next.pending == node.pending && next.halted == node.halted &&
      out.persist == effects.persist && out.apply == effects.apply && out.halt == effects.halt
  {
    SendAllFrame(config, Sending(Crowned(node), effects.send, effects.snapshotNeeded), node.durable,
                 Sorted(config.peers));
  }

  // Completing a read touches nothing but the read.
  lemma ReadFrame(config: Config, node: Node, effects: Effects)
    ensures
      var (next, out) := CompleteRead(config, node, effects);
      next == node.(vol := node.vol.(read := next.vol.read)) && out == effects.(read := out.read)
  {}

  lemma LocalCompact(node: Node)
    requires Idling(node)
    ensures StepOK(node, OnCompact(node).0, OnCompact(node).1)
  {
    if node.durable.applied == node.durable.commit {
      TargetCompact(node.durable);
    }
  }

  lemma TargetAdopt(d: Durable, term: nat)
    requires ValidDurable(d) && term >= d.term
    ensures Target(d, AdoptTerm(d, term))
  {
    TargetSameLog(d, AdoptTerm(d, term));
  }

  lemma TargetVia(d: Durable, term: nat, e: Durable)
    requires ValidDurable(d) && term >= d.term && Target(AdoptTerm(d, term), e)
    ensures Target(d, e)
  {
    TargetAdopt(d, term);
    AdvancesTrans(d, AdoptTerm(d, term), e);
  }

  lemma LocalSnapshot(config: Config, node: Node, m: Message)
    requires Idling(node) && m.SnapshotRequest?
    ensures StepOK(node, OnSnapshot(config, node, m).0, OnSnapshot(config, node, m).1)
  {
    hide Advances, ValidDurable;
    if SnapshotAcceptable(node, m) && m.term >= node.durable.term {
      var adopted := AdoptTerm(node.durable, m.term);
      TargetAdopt(node.durable, m.term);
      if m.index > adopted.commit {
        InstallOver(node.durable, m);
      }
    }
  }

  lemma InstallOver(d: Durable, m: Message)
    requires ValidDurable(d) && m.SnapshotRequest? && m.term >= d.term
    requires d.commit < m.index < MAX_U64 && 0 < m.snapshotTerm <= m.term
    ensures AdoptTerm(d, m.term).snapshotIndex < m.index
    ensures Target(d, InstallTarget(AdoptTerm(d, m.term), m.index, m.snapshotTerm))
  {
    TargetAdopt(d, m.term);
    TargetInstall(AdoptTerm(d, m.term), m.index, m.snapshotTerm);
    TargetVia(d, m.term, InstallTarget(AdoptTerm(d, m.term), m.index, m.snapshotTerm));
  }

  lemma LocalDeposed(node: Node, term: nat)
    requires Idling(node) && term > node.durable.term
    ensures StepOK(node, Deposed(node, term).0, Deposed(node, term).1)
  {
    TargetAdopt(node.durable, term);
  }

  lemma LocalElection(config: Config, node: Node)
    requires Idling(node)
    ensures StepOK(node, OnElectionTimeout(config, node).0, OnElectionTimeout(config, node).1)
  {
    hide KeepsCommitted, ValidTerms, VoteRequests;
    TargetSameLog(node.durable, node.durable.(term := node.durable.term + 1, votedFor := Some(config.self)));
  }

  lemma TargetVote(d: Durable, term: nat, candidate: Id)
    requires ValidDurable(d) && term >= d.term
    requires AdoptTerm(d, term).votedFor == None || AdoptTerm(d, term).votedFor == Some(candidate)
    ensures Target(d, AdoptTerm(d, term).(votedFor := Some(candidate)))
  {
    var adopted := AdoptTerm(d, term);
    TargetAdopt(d, term);
    TargetSameLog(adopted, adopted.(votedFor := Some(candidate)));
    TargetVia(d, term, adopted.(votedFor := Some(candidate)));
  }

  lemma LocalRequestVote(config: Config, node: Node, m: Message)
    requires Idling(node) && m.RequestVote?
    ensures StepOK(node, OnRequestVote(config, node, m).0, OnRequestVote(config, node, m).1)
  {
    hide Advances, ValidDurable, UpToDate;
    if m.term >= node.durable.term {
      var adopted := AdoptTerm(node.durable, m.term);
      TargetAdopt(node.durable, m.term);
      if adopted.votedFor == None || adopted.votedFor == Some(m.candidate) {
        TargetVote(node.durable, m.term, m.candidate);
      }
    }
  }

  lemma LocalCountVote(config: Config, node: Node, effects: Effects, voter: Id)
    ensures
      var (next, out) := CountVote(config, node, effects, voter);
      next.durable == node.durable && next.pending == node.pending && next.halted == node.halted &&
      out.persist == effects.persist && out.apply == effects.apply && out.halt == effects.halt
  {
    LeaderFrame(config, node.(vol := node.vol.(votes := node.vol.votes + {voter})), effects);
  }

  lemma LocalPropose(config: Config, node: Node, command: string)
    requires Idling(node)
    ensures StepOK(node, OnPropose(config, node, command).0, OnPropose(config, node, command).1)
  {
    hide ValidTerms, Advances;
    var d := node.durable;
    if |d.log| < MAX_ENTRIES && LastIndex(d) < MAX_U64 - 1 {
      TargetGrow(d, Entry(d.term, command));
      SendAllFrame(config, Sending(node, [], []), d.(log := d.log + [Entry(d.term, command)]), config.peers);
    }
  }

  lemma TargetGrow(d: Durable, e: Entry)
    requires ValidDurable(d) && e.term == d.term >= 1 && |d.log| < MAX_ENTRIES && LastIndex(d) < MAX_U64 - 1
    ensures Target(d, d.(log := d.log + [e]))
  {
    AppendedTerms(d.log, [e], d.snapshotTerm, d.term);
  }

  lemma LocalHeartbeat(config: Config, node: Node)
    requires Idling(node)
    ensures StepOK(node, OnHeartbeat(config, node).0, OnHeartbeat(config, node).1)
  {
    BeatAllFrame(config, Sending(node, [], []), Sorted(config.peers));
  }

  lemma LocalAppendHit(node: Node, m: Message)
    requires ValidDurable(node.durable) && m.AppendEntries? && AppendAcceptable(node, m) && m.term >= node.durable.term
    requires
      var d := AdoptTerm(node.durable, m.term);
      DurableTermAt(d, m.prevIndex) == Some(m.prevTerm) &&
      m.prevIndex + |m.entries| - d.snapshotIndex <= MAX_ENTRIES &&
      Merge(d.log, d.snapshotIndex, d.commit, m.prevIndex, m.entries).ok
    ensures
      var d := AdoptTerm(node.durable, m.term);
      Target(node.durable, d.(log := Merge(d.log, d.snapshotIndex, d.commit, m.prevIndex, m.entries).log,
                              commit := Max(d.commit, Min(m.leaderCommit, m.prevIndex + |m.entries|))))
  {
    var d := AdoptTerm(node.durable, m.term);
    TargetAdopt(node.durable, m.term);
    var commit := Max(d.commit, Min(m.leaderCommit, m.prevIndex + |m.entries|));
    TargetAppend(d, m, commit);
    TargetVia(node.durable, m.term,
              d.(log := Merge(d.log, d.snapshotIndex, d.commit, m.prevIndex, m.entries).log, commit := commit));
  }

  lemma LocalAppendFull(d: Durable, m: Message)
    requires ValidDurable(d) && m.AppendEntries? && m.term >= d.term
    requires DurableTermAt(AdoptTerm(d, m.term), m.prevIndex) == Some(m.prevTerm)
    ensures Target(d, AdoptTerm(d, m.term).(commit := Max(d.commit, Min(m.leaderCommit, m.prevIndex))))
  {
    TargetAdopt(d, m.term);
    var a := AdoptTerm(d, m.term);
    TargetSameLog(a, a.(commit := Max(d.commit, Min(m.leaderCommit, m.prevIndex))));
    TargetVia(d, m.term, a.(commit := Max(d.commit, Min(m.leaderCommit, m.prevIndex))));
  }

  lemma LocalAppend(config: Config, node: Node, m: Message)
    requires Idling(node) && m.AppendEntries?
    ensures StepOK(node, OnAppend(config, node, m).0, OnAppend(config, node, m).1)
  {
    hide Advances, ValidTerms, Merge, EntriesAcceptable;
    if AppendAcceptable(node, m) && m.term >= node.durable.term {
      var d := AdoptTerm(node.durable, m.term);
      TargetAdopt(node.durable, m.term);
      if DurableTermAt(d, m.prevIndex) == Some(m.prevTerm) {
        LocalAppendFull(node.durable, m);
        if m.prevIndex + |m.entries| - d.snapshotIndex <= MAX_ENTRIES &&
           Merge(d.log, d.snapshotIndex, d.commit, m.prevIndex, m.entries).ok {
          LocalAppendHit(node, m);
        }
      }
    }
  }

  lemma LocalAppendReply(config: Config, node: Node, m: Message)
    requires Idling(node) && m.AppendReply?
    ensures StepOK(node, OnAppendReply(config, node, m).0, OnAppendReply(config, node, m).1)
  {
    hide Advances, ValidDurable;
    if m.term > node.durable.term {
      LocalDeposed(node, m.term);
    }
  }

  lemma {:induction false} HighestBounds(config: Config, node: Node, n: nat)
    requires ValidDurable(node.durable) && n <= LastIndex(node.durable)
    ensures node.durable.commit <= HighestFrom(config, node, n) <= LastIndex(node.durable)
    decreases n
  {
    if n > node.durable.commit && !Committable(config, node, n) {
      HighestBounds(config, node, n - 1);
    }
  }

  lemma LocalAdvance(config: Config, node: Node)
    requires Idling(node)
    ensures StepOK(node, OnAdvanceCommit(config, node).0, OnAdvanceCommit(config, node).1)
  {
    var n := HighestFrom(config, node, LastIndex(node.durable));
    HighestBounds(config, node, LastIndex(node.durable));
    TargetSameLog(node.durable, node.durable.(commit := n));
  }

  lemma LocalApply(node: Node)
    requires Idling(node)
    ensures StepOK(node, OnApply(node).0, OnApply(node).1)
  {
    if node.durable.applied < node.durable.commit {
      TargetSameLog(node.durable, node.durable.(applied := node.durable.applied + 1));
    }
  }

  lemma LocalMessage(config: Config, node: Node, m: Message)
    requires Idling(node)
    ensures StepOK(node, OnMessage(config, node, m).0, OnMessage(config, node, m).1)
  {
    hide Advances, ValidDurable, OnRequestVote, OnAppend, OnAppendReply, OnSnapshot, Deposed, CountVote;
    match m
    case RequestVote(_, _, _, _, _) => LocalRequestVote(config, node, m);
    case VoteReply(_, _, _, _) =>
      LocalCountVote(config, node, NO_EFFECTS, m.voter);
      if m.term > node.durable.term { LocalDeposed(node, m.term); }
    case AppendEntries(_, _, _, _, _, _, _) => LocalAppend(config, node, m);
    case AppendReply(_, _, _, _, _, _) => LocalAppendReply(config, node, m);
    case SnapshotRequest(_, _, _, _, _, _) => LocalSnapshot(config, node, m);
    case SnapshotReply(_, _, _, _, _) =>
      if m.term > node.durable.term { LocalDeposed(node, m.term); }
  }

  lemma LocalCompleted(config: Config, node: Node, token: nat)
    requires LocalInv(node)
    ensures StepOK(node, OnPersistCompleted(config, node, token).0, OnPersistCompleted(config, node, token).1)
  {
    hide ValidDurable, KeepsCommitted, CountVote;
    if node.pending.Some? && node.pending.value.token == token && !node.halted {
      var pending := node.pending.value;
      var (read, effects) := CompleteRead(config, node.(pending := None, durable := pending.target),
        NO_EFFECTS.(send := pending.after, apply := pending.applyAfter, snapshotNeeded := pending.snapshotAfter));
      LocalCountVote(config, read, effects, config.self);
    }
  }

  lemma LocalBeginRead(config: Config, node: Node, context: nat)
    requires LocalInv(node)
    ensures StepOK(node, OnBeginRead(config, node, context).0, OnBeginRead(config, node, context).1)
  {
    hide Advances, ValidDurable, SendAll;
    SendAllFrame(config, Sending(AdmitRead(config, node, context), [], []), node.durable, config.peers);
  }

  // Every step, for every input: the invalid-state stop is never taken and
  // StepOK holds.
  lemma StepKeeps(config: Config, node: Node, input: Input)
    requires LocalInv(node)
    ensures StepOK(node, Step(config, node, input).0, Step(config, node, input).1)
    ensures Step(config, node, input).1.halt ==>
              node.pending.Some? && !node.halted && input == PersistFailed(node.pending.value.token)
  {
    hide Advances, ValidDurable, OnPersistCompleted, OnBeginRead, OnMessage, OnElectionTimeout, OnPropose, OnHeartbeat,
      OnAdvanceCommit, OnApply, OnCompact;
    match input
    case PersistCompleted(token) => LocalCompleted(config, node, token); HaltFrame(config, node, input);
    case BeginRead(context) => LocalBeginRead(config, node, context); HaltFrame(config, node, input);
    case PersistFailed(_) =>
    case Restart =>
    case CancelRead(_) =>
    case _ =>
      if !node.halted && node.pending.None? {
        LocalIdle(config, node, input);
        HaltFrame(config, node, input);
      }
  }

  lemma LocalIdle(config: Config, node: Node, input: Input)
    requires Idling(node)
    ensures StepOK(node, StepIdle(config, node, input).0, StepIdle(config, node, input).1)
  {
    hide Advances, ValidDurable, OnMessage, OnElectionTimeout, OnPropose, OnHeartbeat, OnAdvanceCommit, OnApply,
      OnCompact;
    match input
    case CompactCommitted => LocalCompact(node);
    case Receive(m) => LocalMessage(config, node, m);
    case ElectionTimeout => LocalElection(config, node);
    case ClientPropose(command) => LocalPropose(config, node, command);
    case HeartbeatTimeout => LocalHeartbeat(config, node);
    case AdvanceCommit => LocalAdvance(config, node);
    case ApplyCommitted => LocalApply(node);
    case _ =>
  }

  lemma HaltFrame(config: Config, node: Node, input: Input)
    requires ValidNode(node) && !input.PersistFailed?
    ensures !Step(config, node, input).1.halt
  {
    hide ValidDurable, SendAll, BeatAll, HighestFrom, OnMessage, CountVote, VoteRequests;
    match input
    case Receive(m) => MessageHalts(config, node, m);
    case PersistCompleted(token) =>
      if node.pending.Some? {
        var pending := node.pending.value;
        var (read, effects) := CompleteRead(config, node.(pending := None, durable := pending.target),
          NO_EFFECTS.(send := pending.after, apply := pending.applyAfter, snapshotNeeded := pending.snapshotAfter));
        LocalCountVote(config, read, effects, config.self);
      }
    case _ =>
  }

  lemma MessageHalts(config: Config, node: Node, m: Message)
    requires ValidDurable(node.durable)
    ensures !OnMessage(config, node, m).1.halt
  {
    hide ValidDurable, OnAppend, CountVote, UpToDate;
    if m.AppendEntries? {
      AppendHalts(config, node, m);
    }
    if m.VoteReply? {
      LocalCountVote(config, node, NO_EFFECTS, m.voter);
    }
  }

  lemma AppendHalts(config: Config, node: Node, m: Message)
    requires m.AppendEntries?
    ensures !OnAppend(config, node, m).1.halt
  {
    hide Merge, AppendAcceptable, MissHint, DurableTermAt;
  }
}
