// What the core does with each request it receives, stated on the node, the
// message and the replies alone.
module StepFollower {
  import opened Logs
  import opened Transition
  import opened Local
  import opened TransitionLoops
  import opened StepSends

  // Everything a step sends, at once or when its write is durable.
  function Replied(next: Node, effects: Effects): seq<Outbound> {
    effects.send + HeldBack(next)
  }

  // Following whoever leads: nothing awaited, an open read is over.
  ghost predicate StoodDown(node: Node, next: Node, effects: Effects) {
    next.vol == node.vol.(role := Follower, votes := {}, peers := next.vol.peers, read := None) &&
    next.vol.peers.Keys == node.vol.peers.Keys &&
    (forall p :: p in node.vol.peers ==>
      next.vol.peers[p] == node.vol.peers[p].(inFlight := None, snapshotInFlight := None)) &&
    effects.read == if node.vol.read.None? then None
                    else Some(ReadResult(node.vol.read.value.context, NotLeader, 0, 0))
  }

  // e has d's term and vote, or the later term and no vote yet.
  predicate Adopted(d: Durable, term: nat, e: Durable) {
    e.term == Max(d.term, term) && e.votedFor == if term > d.term then None else d.votedFor
  }

  // The single reply is sent at once exactly if nothing has to be written first.
  ghost predicate AnswersOnce(node: Node, next: Node, effects: Effects, to: Id) {
    next.durable == node.durable && |Replied(next, effects)| == 1 && Replied(next, effects)[0].to == to &&
    (next.pending.None? <==> Newest(next) == node.durable) && (effects.send == [] <==> next.pending.Some?) &&
    !next.halted && next.nextRequestId == node.nextRequestId
  }

  // ---------------------------------------------------------------- appends

  // The k-th entry has a term, not below the one before it and not above the sender's.
  predicate SoundEntry(entries: Log, previous: nat, maximum: nat, k: nat)
    requires k < |entries|
  {
    0 < entries[k].term <= maximum && (if k == 0 then previous else entries[k - 1].term) <= entries[k].term
  }

  // Appends the core looks at all.
  ghost predicate SoundAppend(node: Node, m: Message)
    requires m.AppendEntries?
  {
    m.leader in node.vol.peers && 0 < m.term && m.prevIndex + |m.entries| < MAX_U64 && m.prevTerm <= m.term &&
    (m.prevIndex == 0 <==> m.prevTerm == 0) &&
    forall k: nat :: k < |m.entries| ==> SoundEntry(m.entries, m.prevTerm, m.term, k)
  }

  lemma {:induction false} EntriesSound(entries: Log, previous: nat, maximum: nat)
    ensures EntriesAcceptable(entries, previous, maximum) <==>
      forall k: nat :: k < |entries| ==> SoundEntry(entries, previous, maximum, k)
    decreases |entries|
  {
    if entries != [] {
      var rest := entries[1..];
      EntriesSound(rest, entries[0].term, maximum);
      forall k: nat | k < |rest|
        ensures SoundEntry(rest, entries[0].term, maximum, k) <==> SoundEntry(entries, previous, maximum, k + 1)
      {
        assert rest[k] == entries[k + 1] && (k > 0 ==> rest[k - 1] == entries[k]);
      }
      if EntriesAcceptable(entries, previous, maximum) {
        forall k: nat | k < |entries|
          ensures SoundEntry(entries, previous, maximum, k)
        {
          if k > 0 {
            assert SoundEntry(rest, entries[0].term, maximum, k - 1);
          }
        }
      } else if k: nat :| k < |rest| && !SoundEntry(rest, entries[0].term, maximum, k) {
        assert !SoundEntry(entries, previous, maximum, k + 1);
      } else {
        assert !SoundEntry(entries, previous, maximum, 0);
      }
    }
  }

  lemma SoundAppends(node: Node, m: Message)
    requires m.AppendEntries?
    ensures AppendAcceptable(node, m) <==> SoundAppend(node, m)
  {
    EntriesSound(m.entries, m.prevTerm, m.term);
  }

  // An entry of the append contradicts a committed one.
  predicate Contradicts(d: Durable, prev: nat, entries: Log)
    requires d.snapshotIndex <= prev && d.commit <= LastIndex(d)
  {
    exists k :: 0 <= k < |entries| && prev + 1 + k <= d.commit && EntryAt(d, prev + 1 + k) != entries[k]
  }

  // d has all these entries already.
  predicate HasEntries(d: Durable, prev: nat, entries: Log)
    requires d.snapshotIndex <= prev
  {
    prev + |entries| <= LastIndex(d) && forall k :: 0 <= k < |entries| ==> EntryAt(d, prev + 1 + k) == entries[k]
  }

  // e is d with these entries after prev; what follows them stays only if d had
  // them all.
  ghost predicate Extended(d: Durable, prev: nat, entries: Log, e: Durable)
    requires d.snapshotIndex <= prev <= LastIndex(d)
  {
    e.snapshotIndex == d.snapshotIndex &&
    LastIndex(e) == (if HasEntries(d, prev, entries) then LastIndex(d) else prev + |entries|) &&
    (forall k: nat :: d.snapshotIndex < k <= prev ==> EntryAt(e, k) == EntryAt(d, k)) &&
    (forall k :: 0 <= k < |entries| ==> EntryAt(e, prev + 1 + k) == entries[k]) &&
    (HasEntries(d, prev, entries) ==> e.log == d.log)
  }

  lemma MergedOutcome(d: Durable, prev: nat, entries: Log)
    requires d.snapshotIndex <= prev <= LastIndex(d) && d.snapshotIndex <= d.commit <= LastIndex(d)
    ensures
      var merged := Merge(d.log, d.snapshotIndex, d.commit, prev, entries);
      (merged.ok <==> !Contradicts(d, prev, entries)) &&
      (merged.ok ==> forall e: Durable :: e.snapshotIndex == d.snapshotIndex && e.log == merged.log ==>
        Extended(d, prev, entries, e))
  {
    hide Merge;
    var base, o := d.snapshotIndex, prev - d.snapshotIndex;
    MergeAccepts(d.log, base, d.commit, prev, entries);
    ConflictsAgree(d, prev, entries);
    HeldAgree(d, prev, entries);
    if Merge(d.log, base, d.commit, prev, entries).ok {
      MergeShape(d.log, base, d.commit, prev, entries);
    }
  }

  lemma ConflictsAgree(d: Durable, prev: nat, entries: Log)
    requires d.snapshotIndex <= prev && d.commit <= LastIndex(d)
    ensures NoCommittedConflict(d.log, d.snapshotIndex, d.commit, prev, entries) <==> !Contradicts(d, prev, entries)
  {
    if Contradicts(d, prev, entries) {
      var k :| 0 <= k < |entries| && prev + 1 + k <= d.commit && EntryAt(d, prev + 1 + k) != entries[k];
      assert d.log[prev + k - d.snapshotIndex] != entries[k];
    }
    if !NoCommittedConflict(d.log, d.snapshotIndex, d.commit, prev, entries) {
      var k :| 0 <= k < |entries| && prev + k < d.commit && prev + k - d.snapshotIndex < |d.log| &&
               d.log[prev + k - d.snapshotIndex] != entries[k];
      assert EntryAt(d, prev + 1 + k) != entries[k];
    }
  }

  lemma HeldAgree(d: Durable, prev: nat, entries: Log)
    requires d.snapshotIndex <= prev <= LastIndex(d)
    ensures Holds(d.log, prev - d.snapshotIndex, entries) <==> HasEntries(d, prev, entries)
  {
    var o := prev - d.snapshotIndex;
    if o + |entries| <= |d.log| {
      if HasEntries(d, prev, entries) {
        forall k | 0 <= k < |entries|
          ensures d.log[o..o + |entries|][k] == entries[k]
        {
          assert EntryAt(d, prev + 1 + k) == entries[k];
        }
      }
      if Holds(d.log, o, entries) {
        forall k | 0 <= k < |entries|
          ensures EntryAt(d, prev + 1 + k) == entries[k]
        {
          assert d.log[o..o + |entries|][k] == entries[k];
        }
      }
    }
  }

  // An append that is not sound is ignored; one of an earlier term is refused.
  lemma AppendRefused(config: Config, node: Node, m: Message)
    requires Free(node) && m.AppendEntries?
    ensures !SoundAppend(node, m) ==> Step(config, node, Receive(m)) == (node, NO_EFFECTS)
    ensures SoundAppend(node, m) && m.term < node.durable.term ==>
      Step(config, node, Receive(m)) ==
        (node, NO_EFFECTS.(send := [Outbound(m.leader, AppendReply(node.durable.term, config.self, false,
                                                                   LastIndex(node.durable), m.requestId, 0))]))
  {
    hide ValidDurable, AppendAcceptable, SoundAppend, Merge;
    SoundAppends(node, m);
    var refusal := AppendReply(node.durable.term, config.self, false, LastIndex(node.durable), m.requestId, 0);
    assert [] + [Outbound(m.leader, refusal)] == [Outbound(m.leader, refusal)];
  }

  // Where the leader should look next after a miss.
  function LookBelow(d: Durable, prev: nat): nat {
    if prev < d.snapshotIndex then d.snapshotIndex
    else if prev <= LastIndex(d) && prev > d.snapshotIndex then prev - 1
    else LastIndex(d)
  }

  // What a sound append of the current or a later term leaves in the log and the
  // commit index, and what the reply says about it.
  ghost predicate AppendDone(d: Durable, m: Message, e: Durable, reply: Message, full: bool)
    requires m.AppendEntries? && d.snapshotIndex <= d.commit <= LastIndex(d)
  {
    Adopted(d, m.term, e) && e.snapshotIndex == d.snapshotIndex && e.snapshotTerm == d.snapshotTerm &&
    e.applied == d.applied && reply.AppendReply? && reply.term == e.term && reply.requestId == m.requestId &&
    var covered := m.prevIndex + |m.entries|;
    if DurableTermAt(d, m.prevIndex) != Some(m.prevTerm) then
      e.log == d.log && e.commit == d.commit && !full && !reply.success && reply.matched == 0 &&
      reply.hint == LookBelow(d, m.prevIndex)
    else if covered > d.snapshotIndex + MAX_ENTRIES then
      e.log == d.log && e.commit == Max(d.commit, Min(m.leaderCommit, m.prevIndex)) && full &&
      !reply.success && reply.matched == 0 && reply.hint == LastIndex(d)
    else
      d.snapshotIndex <= m.prevIndex <= LastIndex(d) && !full &&
      if Contradicts(d, m.prevIndex, m.entries) then
        e.log == d.log && e.commit == d.commit && !reply.success && reply.matched == 0 && reply.hint == d.commit
      else
        Extended(d, m.prevIndex, m.entries, e) && e.commit == Max(d.commit, Min(m.leaderCommit, covered)) &&
        reply.success && reply.matched == covered
  }

  // Accepting or refusing an append: the log, the commit index and the reply.
  lemma AppendOutcome(config: Config, node: Node, m: Message)
    requires Free(node) && m.AppendEntries? && SoundAppend(node, m) && m.term >= node.durable.term
    ensures
      var (next, effects) := Step(config, node, Receive(m));
      StoodDown(node, next, effects) && AnswersOnce(node, next, effects, m.leader) &&
      AppendDone(node.durable, m, Newest(next), Replied(next, effects)[0].message, effects.capacityExhausted) &&
      Replied(next, effects)[0].message.follower == config.self
  {
    hide ValidDurable, AppendAcceptable, SoundAppend, AnswerWith, StoodDown, AppendDone, MissHint, Merge, DurableTermAt;
    SoundAppends(node, m);
    ValidCommit(node.durable);
    var d := node.durable;
    var a := AdoptTerm(d, m.term);
    var effects := StepDown(node, NO_EFFECTS).1;
    AdoptedTerms(d, m.term, m.prevIndex);
    if DurableTermAt(a, m.prevIndex) != Some(m.prevTerm) {
      MissDone(d, m, config.self);
      AnsweredDown(node, effects, a, m.leader, AppendReply(a.term, config.self, false, MissHint(a, m), m.requestId, 0));
    } else if m.prevIndex + |m.entries| - a.snapshotIndex > MAX_ENTRIES {
      FullDone(d, m, config.self);
      AnsweredDown(node, effects.(capacityExhausted := true), a.(commit := Max(a.commit, Min(m.leaderCommit, m.prevIndex))),
                m.leader, AppendReply(a.term, config.self, false, LastIndex(a), m.requestId, 0));
    } else {
      PrevInRange(a, m.prevIndex);
      MergedDone(d, m, config.self);
      var merged := Merge(a.log, a.snapshotIndex, a.commit, m.prevIndex, m.entries);
      var covered := m.prevIndex + |m.entries|;
      if merged.ok {
        AnsweredDown(node, effects, a.(log := merged.log, commit := Max(a.commit, Min(m.leaderCommit, covered))), m.leader,
                  AppendReply(a.term, config.self, true, LastIndex(a), m.requestId, covered));
      } else {
        AnsweredDown(node, effects, a, m.leader, AppendReply(a.term, config.self, false, a.commit, m.requestId, 0));
      }
    }
  }

  lemma ValidCommit(d: Durable)
    requires ValidDurable(d)
    ensures d.snapshotIndex <= d.applied <= d.commit <= LastIndex(d)
  {}

  lemma AdoptedTerms(d: Durable, term: nat, k: nat)
    ensures DurableTermAt(AdoptTerm(d, term), k) == DurableTermAt(d, k)
  {}

  lemma MissDone(d: Durable, m: Message, self: Id)
    requires m.AppendEntries? && d.snapshotIndex <= d.commit <= LastIndex(d) && m.term >= d.term
    requires DurableTermAt(d, m.prevIndex) != Some(m.prevTerm)
    ensures
      var a := AdoptTerm(d, m.term);
      AppendDone(d, m, a, AppendReply(a.term, self, false, MissHint(a, m), m.requestId, 0), false)
  {}

  lemma FullDone(d: Durable, m: Message, self: Id)
    requires m.AppendEntries? && d.snapshotIndex <= d.commit <= LastIndex(d) && m.term >= d.term
    requires DurableTermAt(d, m.prevIndex) == Some(m.prevTerm)
    requires m.prevIndex + |m.entries| > d.snapshotIndex + MAX_ENTRIES
    ensures
      var a := AdoptTerm(d, m.term);
      AppendDone(d, m, a.(commit := Max(a.commit, Min(m.leaderCommit, m.prevIndex))),
                 AppendReply(a.term, self, false, LastIndex(a), m.requestId, 0), true)
  {}

  lemma MergedDone(d: Durable, m: Message, self: Id)
    requires m.AppendEntries? && d.snapshotIndex <= d.commit <= LastIndex(d) && m.term >= d.term
    requires DurableTermAt(d, m.prevIndex) == Some(m.prevTerm) && d.snapshotIndex <= m.prevIndex <= LastIndex(d)
    requires m.prevIndex + |m.entries| <= d.snapshotIndex + MAX_ENTRIES
    ensures
      var a := AdoptTerm(d, m.term);
      var merged := Merge(d.log, d.snapshotIndex, d.commit, m.prevIndex, m.entries);
      var covered := m.prevIndex + |m.entries|;
      if merged.ok
      then
        AppendDone(d, m, a.(log := merged.log, commit := Max(a.commit, Min(m.leaderCommit, covered))),
                   AppendReply(a.term, self, true, LastIndex(a), m.requestId, covered), false)
      else AppendDone(d, m, a, AppendReply(a.term, self, false, a.commit, m.requestId, 0), false)
  {
    hide Merge, Extended, Contradicts;
    MergedOutcome(d, m.prevIndex, m.entries);
  }

  lemma AnsweredDown(node: Node, effects: Effects, target: Durable, to: Id, reply: Message)
    requires node.pending.None? && !node.halted
    requires effects == StepDown(node, NO_EFFECTS).1.(capacityExhausted := effects.capacityExhausted)
    ensures
      var (next, out) := AnswerWith(StepDown(node, NO_EFFECTS).0, effects, target, Outbound(to, reply));
      StoodDown(node, next, out) && AnswersOnce(node, next, out, to) && Newest(next) == target &&
      Replied(next, out)[0].message == reply && out.capacityExhausted == effects.capacityExhausted
  {}

  // ---------------------------------------------------------------- votes

  // Vote requests the core looks at all.
  predicate SoundVoteRequest(node: Node, m: Message)
    requires m.RequestVote?
  {
    m.candidate in node.vol.peers && 0 < m.term && m.lastTerm <= m.term && (m.lastIndex == 0 <==> m.lastTerm == 0)
  }

  // The candidate's log ends no earlier than d's.
  predicate NotBehind(d: Durable, m: Message)
    requires m.RequestVote?
  {
    var mine := DurableTermAt(d, LastIndex(d));
    mine.Some? && (m.lastTerm > mine.value || (m.lastTerm == mine.value && m.lastIndex >= LastIndex(d)))
  }

  // d's owner may vote for the candidate in this term.
  predicate VoteFree(d: Durable, m: Message)
    requires m.RequestVote?
  {
    m.term > d.term || d.votedFor == None || d.votedFor == Some(m.candidate)
  }

  lemma VoteRefused(config: Config, node: Node, m: Message)
    requires Free(node) && m.RequestVote?
    ensures !SoundVoteRequest(node, m) ==> Step(config, node, Receive(m)) == (node, NO_EFFECTS)
    ensures SoundVoteRequest(node, m) && m.term < node.durable.term ==>
      Step(config, node, Receive(m)) ==
        (node, NO_EFFECTS.(send := [Outbound(m.candidate, VoteReply(node.durable.term, config.self, false, m.requestId))]))
  {
    hide ValidDurable, UpToDate;
    var refusal := Outbound(m.candidate, VoteReply(node.durable.term, config.self, false, m.requestId));
    assert [] + [refusal] == [refusal];
  }

  // A vote is granted exactly if the term allows it, the vote is free and the
  // candidate's log is not behind; nothing else on disk changes.
  lemma VoteOutcome(config: Config, node: Node, m: Message)
    requires Free(node) && m.RequestVote? && SoundVoteRequest(node, m) && m.term >= node.durable.term
    ensures
      var (next, effects) := Step(config, node, Receive(m));
      var d, e := node.durable, Newest(next);
      var granted := VoteFree(d, m) && NotBehind(d, m);
      AnswersOnce(node, next, effects, m.candidate) &&
      Replied(next, effects)[0].message == VoteReply(m.term, config.self, granted, m.requestId) &&
      e == d.(term := m.term,
              votedFor := if granted then Some(m.candidate) else if m.term > d.term then None else d.votedFor) &&
      if m.term > d.term then StoodDown(node, next, effects) else next.vol == node.vol && effects.read == None
  {
    hide ValidDurable, StoodDown, UpToDate, AnswerWith;
    LastTermAt(node.durable);
    UpToDateMeans(AdoptTerm(node.durable, m.term), m);
    var d := AdoptTerm(node.durable, m.term);
    var grant := (d.votedFor == None || d.votedFor == Some(m.candidate)) && UpToDate(d, m.lastTerm, m.lastIndex);
    var target := if grant then d.(votedFor := Some(m.candidate)) else d;
    var reply := VoteReply(target.term, config.self, grant, m.requestId);
    if m.term > node.durable.term {
      AnsweredDown(node, StepDown(node, NO_EFFECTS).1, target, m.candidate, reply);
    } else {
      AnsweredHere(node, target, m.candidate, reply);
    }
  }

  lemma LastTermAt(d: Durable)
    ensures DurableTermAt(d, LastIndex(d)) == Some(DurableLastTerm(d))
  {}

  lemma UpToDateMeans(d: Durable, m: Message)
    requires m.RequestVote?
    ensures UpToDate(d, m.lastTerm, m.lastIndex) <==> NotBehind(d, m)
  {
    LastTermAt(d);
  }

  lemma AnsweredHere(node: Node, target: Durable, to: Id, reply: Message)
    requires node.pending.None? && !node.halted
    ensures
      var (next, out) := AnswerWith(node, NO_EFFECTS, target, Outbound(to, reply));
      next.vol == node.vol && out.read == None && AnswersOnce(node, next, out, to) && Newest(next) == target &&
      Replied(next, out)[0].message == reply
  {}

  // ---------------------------------------------------------------- snapshots

  // Snapshot requests the core looks at all: none that would lower the term of
  // the commit index.
  ghost predicate SoundOffer(node: Node, m: Message)
    requires m.SnapshotRequest?
  {
    m.leader in node.vol.peers && 0 < m.index < MAX_U64 && 0 < m.snapshotTerm <= m.term &&
    (m.index <= node.durable.commit ||
     forall t :: DurableTermAt(node.durable, node.durable.commit) == Some(t) ==> t <= m.snapshotTerm)
  }

  lemma OfferRefused(config: Config, node: Node, m: Message)
    requires Free(node) && m.SnapshotRequest?
    ensures !SoundOffer(node, m) ==> Step(config, node, Receive(m)) == (node, NO_EFFECTS)
    ensures SoundOffer(node, m) && m.term < node.durable.term ==>
      Step(config, node, Receive(m)) ==
        (node, NO_EFFECTS.(send := [Outbound(m.leader, SnapshotReply(node.durable.term, config.self, false, 0,
                                                                     m.requestId))]))
  {
    hide ValidTerms, InstallTarget;
    var refusal := Outbound(m.leader, SnapshotReply(node.durable.term, config.self, false, 0, m.requestId));
    assert [] + [refusal] == [refusal];
  }

  // A request that is not ready only makes the term known.
  lemma OfferObserved(config: Config, node: Node, m: Message)
    requires Free(node) && m.SnapshotRequest? && SoundOffer(node, m) && m.term >= node.durable.term && !m.ready
    ensures
      var (next, effects) := Step(config, node, Receive(m));
      var d, e := node.durable, Newest(next);
      StoodDown(node, next, effects) && Replied(next, effects) == [] && next.durable == d &&
      Adopted(d, m.term, e) && e == d.(term := e.term, votedFor := e.votedFor)
  {
    hide ValidTerms, InstallTarget;
  }

  // d's boundary moved to (index, term): later entries stay exactly if the entry
  // there had that term.
  ghost predicate MovedTo(d: Durable, index: nat, term: nat, e: Durable) {
    e.snapshotIndex == index && e.snapshotTerm == term && e.commit == index && e.applied == index &&
    if DurableTermAt(d, index) == Some(term)
    then
      LastIndex(e) == LastIndex(d) &&
      forall k: nat :: index < k <= LastIndex(d) && d.snapshotIndex < k ==> EntryAt(e, k) == EntryAt(d, k)
    else e.log == []
  }

  // A ready request beyond the commit index installs the boundary; otherwise it
  // is confirmed exactly if the boundary carries the offered term.
  lemma OfferOutcome(config: Config, node: Node, m: Message)
    requires Free(node) && m.SnapshotRequest? && SoundOffer(node, m) && m.term >= node.durable.term && m.ready
    ensures
      var (next, effects) := Step(config, node, Receive(m));
      var d, e := node.durable, Newest(next);
      var has := m.index > d.commit || DurableTermAt(d, m.index) == Some(m.snapshotTerm);
      StoodDown(node, next, effects) && AnswersOnce(node, next, effects, m.leader) && Adopted(d, m.term, e) &&
      Replied(next, effects)[0].message ==
        SnapshotReply(m.term, config.self, has, if has then m.index else 0, m.requestId) &&
      if m.index > d.commit
      then
        MovedTo(d, m.index, m.snapshotTerm, e) && effects.persist.Some? && effects.persist.value.kind == SnapshotInstall
      else e == d.(term := e.term, votedFor := e.votedFor)
  {
    hide ValidTerms, StoodDown, MovedTo, DurableTermAt;
    var d := AdoptTerm(node.durable, m.term);
    AdoptedTerms(node.durable, m.term, m.index);
    DownStands(node);
    if m.index > d.commit {
      InstallMoves(node.durable, m.term, m.index, m.snapshotTerm);
    }
  }

  lemma DownStands(node: Node)
    ensures
      var (down, effects) := StepDown(node, NO_EFFECTS);
      forall next: Node, out: Effects {:trigger StoodDown(node, next, out)} ::
        next.vol == down.vol && out.read == effects.read ==> StoodDown(node, next, out)
  {}

  lemma InstallMoves(d: Durable, t: nat, index: nat, term: nat)
    requires d.snapshotIndex <= d.commit < index
    ensures MovedTo(d, index, term, InstallTarget(AdoptTerm(d, t), index, term))
  {}
}
