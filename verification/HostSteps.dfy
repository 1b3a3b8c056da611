// What the host relies on about the writes and applications the core asks for.
module HostSteps {
  import opened Logs
  import opened Transition
  import opened Local
  import opened Cluster
  import opened SafetyDisks

  // ---------------------------------------------------------------- kinds of writes

  // What each kind of write may do to the image d.
  predicate KindFits(d: Durable, w: PersistRequest) {
    var target := w.target;
    match w.kind
    case StateUpdate => target.snapshotIndex == d.snapshotIndex && target.snapshotTerm == d.snapshotTerm
    case LocalCompaction =>
      d.applied == d.commit && d.snapshotIndex < d.commit <= LastIndex(d) && target == CompactTarget(d)
    case SnapshotInstall =>
      d.snapshotIndex <= d.commit < target.snapshotIndex < MAX_U64 && target.snapshotTerm <= target.term &&
      target == InstallTarget(WithMeta(d, target), target.snapshotIndex, target.snapshotTerm)
  }

  predicate VoteKnown(config: Config, d: Durable) {
    d.votedFor.Some? ==> d.votedFor.value == config.self || d.votedFor.value in config.peers
  }

  // Votes on disk and in the staged target name configured members.
  predicate VotesKnown(config: Config, node: Node) {
    VoteKnown(config, node.durable) && (node.pending.Some? ==> VoteKnown(config, node.pending.value.target)) &&
    forall p :: p in node.vol.peers ==> p in config.peers
  }

  // A request fits the image it is made from, and every vote stays known.
  predicate AsksRight(config: Config, node: Node, next: Node, effects: Effects) {
    (effects.persist.Some? ==> KindFits(node.durable, effects.persist.value)) && VotesKnown(config, next)
  }

  lemma AsksCompact(config: Config, node: Node)
    requires ValidDurable(node.durable) && VotesKnown(config, node)
    ensures AsksRight(config, node, OnCompact(node).0, OnCompact(node).1)
  {
    hide ValidTerms;
  }

  lemma AsksSnapshot(config: Config, node: Node, m: Message)
    requires ValidDurable(node.durable) && VotesKnown(config, node) && m.SnapshotRequest?
    ensures AsksRight(config, node, OnSnapshot(config, node, m).0, OnSnapshot(config, node, m).1)
  {
    hide ValidTerms;
  }

  lemma AsksDeposed(config: Config, node: Node, term: nat)
    requires VotesKnown(config, node) && term > node.durable.term
    ensures AsksRight(config, node, Deposed(node, term).0, Deposed(node, term).1)
  {}

  lemma AsksRequestVote(config: Config, node: Node, m: Message)
    requires VotesKnown(config, node) && m.RequestVote? && node.pending.None?
    ensures AsksRight(config, node, OnRequestVote(config, node, m).0, OnRequestVote(config, node, m).1)
  {
    hide UpToDate;
  }

  lemma AsksCount(config: Config, node: Node, effects: Effects, voter: Id)
    requires VotesKnown(config, node) && effects.persist.None?
    ensures AsksRight(config, node, CountVote(config, node, effects, voter).0, CountVote(config, node, effects, voter).1)
  {
    hide SendAll;
    var counted := node.(vol := node.vol.(votes := node.vol.votes + {voter}));
    SendAllFrame(config, Sending(Crowned(counted), effects.send, effects.snapshotNeeded), node.durable,
                 Sorted(config.peers));
  }

  // Same boundary, same applied index, same vote or none.
  predicate SameBase(d: Durable, target: Durable) {
    target.snapshotIndex == d.snapshotIndex && target.snapshotTerm == d.snapshotTerm && target.applied == d.applied &&
    (target.votedFor == d.votedFor || target.votedFor == None)
  }

  // An append is ignored, answered at once, or answered with a target.
  datatype Form = Ignored | Refused(reply: Outbound) | Handled(effects: Effects, target: Durable, reply: Outbound)

  lemma AppendForm(config: Config, node: Node, m: Message) returns (f: Form)
    requires m.AppendEntries?
    ensures f.Ignored? ==> OnAppend(config, node, m) == Quiet(node)
    ensures f.Refused? ==> OnAppend(config, node, m) == Answer(node, NO_EFFECTS, f.reply)
    ensures f.Handled? ==>
      OnAppend(config, node, m) == AnswerWith(StepDown(node, NO_EFFECTS).0, f.effects, f.target, f.reply) &&
      f.effects.persist.None? && f.effects.apply == [] && f.effects.snapshotNeeded == [] &&
      SameBase(node.durable, f.target)
  {
    hide Merge, AppendAcceptable, MissHint, AnswerWith, DurableTermAt;
    var d := AdoptTerm(node.durable, m.term);
    var effects := StepDown(node, NO_EFFECTS).1;
    if !AppendAcceptable(node, m) {
      f := Ignored;
    } else if m.term < node.durable.term {
      f := Refused(Outbound(m.leader, AppendReply(node.durable.term, config.self, false, LastIndex(node.durable),
                                                  m.requestId, 0)));
    } else if DurableTermAt(d, m.prevIndex) != Some(m.prevTerm) {
      f := Handled(effects, d,
                   Outbound(m.leader, AppendReply(d.term, config.self, false, MissHint(d, m), m.requestId, 0)));
    } else if m.prevIndex + |m.entries| - d.snapshotIndex > MAX_ENTRIES {
      f := Handled(effects.(capacityExhausted := true), d.(commit := Max(d.commit, Min(m.leaderCommit, m.prevIndex))),
                   Outbound(m.leader, AppendReply(d.term, config.self, false, LastIndex(d), m.requestId, 0)));
    } else {
      PrevInRange(d, m.prevIndex);
      var merged := Merge(d.log, d.snapshotIndex, d.commit, m.prevIndex, m.entries);
      var covered := m.prevIndex + |m.entries|;
      if merged.ok {
        f := Handled(effects, d.(log := merged.log, commit := Max(d.commit, Min(m.leaderCommit, covered))),
                     Outbound(m.leader, AppendReply(d.term, config.self, true, LastIndex(d), m.requestId, covered)));
      } else {
        f := Handled(effects, d, Outbound(m.leader, AppendReply(d.term, config.self, false, d.commit, m.requestId, 0)));
      }
    }
  }

  lemma AsksAppend(config: Config, node: Node, m: Message)
    requires VotesKnown(config, node) && m.AppendEntries? && node.pending.None?
    ensures AsksRight(config, node, OnAppend(config, node, m).0, OnAppend(config, node, m).1)
  {
    hide OnAppend;
    var f := AppendForm(config, node, m);
  }

  lemma AsksAppendReply(config: Config, node: Node, m: Message)
    requires VotesKnown(config, node) && m.AppendReply? && node.pending.None?
    ensures AsksRight(config, node, OnAppendReply(config, node, m).0, OnAppendReply(config, node, m).1)
  {
    hide Answered, QuorumSize;
  }

  lemma AsksMessage(config: Config, node: Node, m: Message)
    requires ValidDurable(node.durable) && VotesKnown(config, node) && node.pending.None?
    ensures AsksRight(config, node, OnMessage(config, node, m).0, OnMessage(config, node, m).1)
  {
    hide ValidDurable, OnRequestVote, OnAppend, OnAppendReply, OnSnapshot, CountVote, Deposed, KindFits, VoteKnown;
    match m
    case RequestVote(_, _, _, _, _) => AsksRequestVote(config, node, m);
    case VoteReply(t, _, _, _) =>
      if t > node.durable.term {
        AsksDeposed(config, node, t);
      }
      AsksCount(config, node, NO_EFFECTS, m.voter);
    case AppendEntries(_, _, _, _, _, _, _) => AsksAppend(config, node, m);
    case AppendReply(_, _, _, _, _, _) => AsksAppendReply(config, node, m);
    case SnapshotRequest(_, _, _, _, _, _) => AsksSnapshot(config, node, m);
    case SnapshotReply(t, _, _, _, _) =>
      if t > node.durable.term {
        AsksDeposed(config, node, t);
      }
  }

  lemma AsksIdle(config: Config, node: Node, input: Input)
    requires ValidDurable(node.durable) && VotesKnown(config, node) && node.pending.None?
    ensures AsksRight(config, node, StepIdle(config, node, input).0, StepIdle(config, node, input).1)
  {
    hide ValidTerms, OnMessage, OnCompact, SendAll, BeatAll, HighestFrom, VoteRequests;
    match input
    case CompactCommitted => AsksCompact(config, node);
    case Receive(m) => AsksMessage(config, node, m);
    case ClientPropose(command) =>
      SendAllFrame(config, Sending(node, [], []),
                   node.durable.(log := node.durable.log + [Entry(node.durable.term, command)]), config.peers);
    case HeartbeatTimeout => BeatAllFrame(config, Sending(node, [], []), Sorted(config.peers));
    case _ =>
  }

  lemma AsksCompleted(config: Config, node: Node, token: nat)
    requires VotesKnown(config, node)
    ensures AsksRight(config, node, OnPersistCompleted(config, node, token).0, OnPersistCompleted(config, node, token).1)
    ensures OnPersistCompleted(config, node, token).1.persist.None?
  {
    hide CountVote, QuorumSize;
    if node.pending.Some? {
      var pending := node.pending.value;
      var (read, effects) := CompleteRead(config, node.(pending := None, durable := pending.target),
        NO_EFFECTS.(send := pending.after, apply := pending.applyAfter, snapshotNeeded := pending.snapshotAfter));
      AsksCount(config, read, effects, config.self);
      CountPersist(config, read, effects, config.self);
    }
  }

  lemma CountPersist(config: Config, node: Node, effects: Effects, voter: Id)
    ensures CountVote(config, node, effects, voter).1.persist == effects.persist
  {}

  // Every step asks for writes that fit its own image.
  lemma StepAsks(config: Config, node: Node, input: Input)
    requires ValidNode(node) && VotesKnown(config, node)
    ensures AsksRight(config, node, Step(config, node, input).0, Step(config, node, input).1)
  {
    hide ValidDurable, StepIdle, OnPersistCompleted, SendAll, KindFits;
    match input
    case PersistCompleted(token) => AsksCompleted(config, node, token);
    case BeginRead(context) =>
      SendAllFrame(config, Sending(AdmitRead(config, node, context), [], []), node.durable, config.peers);
    case PersistFailed(_) =>
    case Restart =>
    case CancelRead(_) =>
    case _ =>
      if !node.halted && node.pending.None? {
        AsksIdle(config, node, input);
      }
  }

  // Only a snapshot request asks for an install, and for that very snapshot.
  ghost predicate AsksInstall(node: Node, input: Input, w: Option<PersistRequest>) {
    w.Some? && w.value.kind == SnapshotInstall ==>
      input.Receive? && input.message.SnapshotRequest? && input.message.ready &&
      input.message.index > node.durable.commit && w.value.target.snapshotIndex == input.message.index &&
      w.value.target.snapshotTerm == input.message.snapshotTerm
  }

  lemma InstallMessage(config: Config, node: Node, m: Message)
    requires ValidDurable(node.durable)
    ensures AsksInstall(node, Receive(m), OnMessage(config, node, m).1.persist)
  {
    hide ValidDurable, OnAppend, CountVote, UpToDate, SnapshotAcceptable, DurableTermAt, Answered, QuorumSize;
    match m
    case VoteReply(_, _, _, _) => CountPersist(config, node, NO_EFFECTS, m.voter);
    case AppendEntries(_, _, _, _, _, _, _) => var f := AppendForm(config, node, m);
    case _ =>
  }

  lemma StepInstalls(config: Config, node: Node, input: Input)
    requires ValidNode(node)
    ensures AsksInstall(node, input, Step(config, node, input).1.persist)
  {
    hide ValidDurable, OnPersistCompleted, OnMessage, SendAll, BeatAll, HighestFrom, VoteRequests, ReadAdmissible,
      CompleteRead;
    match input
    case PersistCompleted(token) => CompletedAsks(config, node, token);
    case BeginRead(context) =>
      var s := SendAll(config, Sending(AdmitRead(config, node, context), [], []), node.durable, config.peers);
      ReadFrame(config, s.node, NO_EFFECTS.(send := s.out, snapshotNeeded := s.snapshots));
    case Receive(m) => InstallMessage(config, node, m);
    case _ =>
  }

  lemma CompletedAsks(config: Config, node: Node, token: nat)
    ensures OnPersistCompleted(config, node, token).1.persist.None?
  {
    hide CountVote, CompleteRead;
    if node.pending.Some? {
      var pending := node.pending.value;
      var done := node.(pending := None, durable := pending.target);
      var effects := NO_EFFECTS.(send := pending.after, apply := pending.applyAfter,
                                 snapshotNeeded := pending.snapshotAfter);
      ReadFrame(config, done, effects);
      var (read, out) := CompleteRead(config, done, effects);
      CountPersist(config, read, out, config.self);
    }
  }

  // ---------------------------------------------------------------- applications

  // A staged write either applies the next committed entry, or applies nothing,
  // or replaces the applied prefix by a snapshot beyond the commit index.
  predicate Applies(d: Durable, w: PendingWrite) {
    if w.applyAfter == [] then
      w.target.applied == d.applied || (w.target.applied == w.target.snapshotIndex && d.commit < w.target.snapshotIndex)
    else
      d.snapshotIndex <= d.applied < d.commit <= LastIndex(d) && w.applyAfter == [EntryAt(d, d.applied + 1)] &&
      w.target == d.(applied := d.applied + 1)
  }

  predicate ApplyInv(node: Node) {
    node.pending.Some? ==> Applies(node.durable, node.pending.value)
  }

  // What one step does to the applied index, and what it releases.
  predicate ReleasesNext(node: Node, next: Node, effects: Effects) {
    if effects.apply == [] then
      next.durable.applied == node.durable.applied ||
      (next.durable.applied == next.durable.snapshotIndex && node.durable.commit < next.durable.snapshotIndex)
    else
      node.durable.snapshotIndex <= node.durable.applied < node.durable.commit <= LastIndex(node.durable) &&
      effects.apply == [EntryAt(node.durable, node.durable.applied + 1)] &&
      next.durable == node.durable.(applied := node.durable.applied + 1)
  }

  predicate AppliesRight(node: Node, next: Node, effects: Effects) {
    ApplyInv(next) && ReleasesNext(node, next, effects)
  }

  lemma AppliesMessage(config: Config, node: Node, m: Message)
    requires ValidDurable(node.durable) && node.pending.None?
    ensures AppliesRight(node, OnMessage(config, node, m).0, OnMessage(config, node, m).1)
  {
    hide ValidDurable, OnAppend, OnSnapshot, OnAppendReply, OnRequestVote, CountVote;
    match m
    case RequestVote(_, _, _, _, _) => AppliesRequestVote(config, node, m);
    case VoteReply(_, _, _, _) => AppliesCount(config, node, NO_EFFECTS, m.voter);
    case AppendEntries(_, _, _, _, _, _, _) => AppliesAppend(config, node, m);
    case AppendReply(_, _, _, _, _, _) => AppliesAppendReply(config, node, m);
    case SnapshotRequest(_, _, _, _, _, _) => AppliesSnapshot(config, node, m);
    case SnapshotReply(_, _, _, _, _) =>
  }

  lemma AppliesRequestVote(config: Config, node: Node, m: Message)
    requires m.RequestVote? && node.pending.None?
    ensures AppliesRight(node, OnRequestVote(config, node, m).0, OnRequestVote(config, node, m).1)
  {
    hide UpToDate;
  }

  lemma AppliesAppend(config: Config, node: Node, m: Message)
    requires m.AppendEntries? && node.pending.None?
    ensures AppliesRight(node, OnAppend(config, node, m).0, OnAppend(config, node, m).1)
  {
    hide OnAppend;
    var f := AppendForm(config, node, m);
  }

  lemma AppliesAppendReply(config: Config, node: Node, m: Message)
    requires m.AppendReply? && node.pending.None?
    ensures AppliesRight(node, OnAppendReply(config, node, m).0, OnAppendReply(config, node, m).1)
  {
    hide Answered, QuorumSize;
  }

  lemma AppliesSnapshot(config: Config, node: Node, m: Message)
    requires ValidDurable(node.durable) && m.SnapshotRequest? && node.pending.None?
    ensures AppliesRight(node, OnSnapshot(config, node, m).0, OnSnapshot(config, node, m).1)
  {
    hide ValidTerms, SnapshotAcceptable;
  }

  lemma AppliesCount(config: Config, node: Node, effects: Effects, voter: Id)
    ensures CountVote(config, node, effects, voter).0.durable == node.durable
    ensures CountVote(config, node, effects, voter).0.pending == node.pending
    ensures CountVote(config, node, effects, voter).1.apply == effects.apply
  {
    hide BecomeLeader;
    LeaderFrame(config, node.(vol := node.vol.(votes := node.vol.votes + {voter})), effects);
  }

  lemma AppliesIdle(config: Config, node: Node, input: Input)
    requires ValidDurable(node.durable) && node.pending.None?
    ensures AppliesRight(node, StepIdle(config, node, input).0, StepIdle(config, node, input).1)
  {
    hide ValidTerms, OnMessage, SendAll, BeatAll, HighestFrom, VoteRequests;
    match input
    case Receive(m) => AppliesMessage(config, node, m);
    case ClientPropose(command) =>
      SendAllFrame(config, Sending(node, [], []),
                   node.durable.(log := node.durable.log + [Entry(node.durable.term, command)]), config.peers);
    case HeartbeatTimeout => BeatAllFrame(config, Sending(node, [], []), Sorted(config.peers));
    case _ =>
  }

  lemma AppliesCompleted(config: Config, node: Node, token: nat)
    requires ApplyInv(node)
    ensures AppliesRight(node, OnPersistCompleted(config, node, token).0, OnPersistCompleted(config, node, token).1)
  {
    hide CountVote, QuorumSize;
    if node.pending.Some? {
      var pending := node.pending.value;
      var (read, effects) := CompleteRead(config, node.(pending := None, durable := pending.target),
        NO_EFFECTS.(send := pending.after, apply := pending.applyAfter, snapshotNeeded := pending.snapshotAfter));
      AppliesCount(config, read, effects, config.self);
    }
  }

  lemma StepApplies(config: Config, node: Node, input: Input)
    requires ValidNode(node) && ApplyInv(node)
    ensures AppliesRight(node, Step(config, node, input).0, Step(config, node, input).1)
  {
    hide ValidDurable, StepIdle, OnPersistCompleted, SendAll, Applies;
    match input
    case PersistCompleted(token) => AppliesCompleted(config, node, token);
    case BeginRead(context) =>
      SendAllFrame(config, Sending(AdmitRead(config, node, context), [], []), node.durable, config.peers);
    case PersistFailed(_) =>
    case Restart =>
    case CancelRead(_) =>
    case _ =>
      if !node.halted && node.pending.None? {
        AppliesIdle(config, node, input);
      }
  }

  // Step k releases the entry at this index.
  ghost predicate Released(config: Config, nodes: seq<Node>, inputs: seq<Input>, k: nat, index: nat)
    requires |nodes| == |inputs| + 1
  {
    k < |inputs| && Step(config, nodes[k], inputs[k]).1.apply != [] && nodes[k].durable.applied + 1 == index
  }

  // Step k replaces the applied prefix through this index by a snapshot.
  predicate Covered(nodes: seq<Node>, k: nat, index: nat) {
    k + 1 < |nodes| && nodes[k].durable.applied < index <= nodes[k + 1].durable.applied &&
    nodes[k + 1].durable.applied == nodes[k + 1].durable.snapshotIndex
  }

  lemma {:induction false} DrivenApplies(config: Config, nodes: seq<Node>, inputs: seq<Input>, k: nat)
    requires Driven(config, nodes, inputs) && k < |nodes| && LocalInv(nodes[0]) && ApplyInv(nodes[0])
    ensures LocalInv(nodes[k]) && ApplyInv(nodes[k])
    decreases k
  {
    hide LocalInv, Step, ReleasesNext;
    DrivenValid(config, nodes, inputs, k);
    if k > 0 {
      DrivenApplies(config, nodes, inputs, k - 1);
      NodeValid(nodes[k - 1]);
      StepApplies(config, nodes[k - 1], inputs[k - 1]);
      assert nodes[k - 1 + 1] == Step(config, nodes[k - 1], inputs[k - 1]).0;
    }
  }

  lemma NodeValid(node: Node)
    requires LocalInv(node)
    ensures ValidNode(node)
  {}

  // A released entry is the committed one at the next index, and is applied by
  // that very step.
  lemma ReleaseIsNext(config: Config, nodes: seq<Node>, inputs: seq<Input>, k: nat, index: nat)
    requires Driven(config, nodes, inputs) && LocalInv(nodes[0]) && ApplyInv(nodes[0])
    requires Released(config, nodes, inputs, k, index)
    ensures nodes[k].durable.snapshotIndex < index <= nodes[k].durable.commit <= LastIndex(nodes[k].durable)
    ensures Step(config, nodes[k], inputs[k]).1.apply == [EntryAt(nodes[k].durable, index)]
    ensures nodes[k + 1].durable.applied == index
  {
    hide LocalInv, Step;
    DrivenApplies(config, nodes, inputs, k);
    NodeValid(nodes[k]);
    StepApplies(config, nodes[k], inputs[k]);
  }

  // Each index is released at most once, and in increasing order.
  lemma AppliedInOrder(config: Config, nodes: seq<Node>, inputs: seq<Input>, j: nat, k: nat, x: nat, y: nat)
    requires Driven(config, nodes, inputs) && LocalInv(nodes[0]) && ApplyInv(nodes[0]) && j < k
    requires Released(config, nodes, inputs, j, x) && Released(config, nodes, inputs, k, y)
    ensures x < y
  {
    hide LocalInv, Step;
    ReleaseIsNext(config, nodes, inputs, j, x);
    LocalRun(config, nodes, inputs, j + 1, k);
  }

  // Between two moments every index that became applied was released by some
  // step or covered by a snapshot install.
  lemma {:induction false} NothingSkipped(config: Config, nodes: seq<Node>, inputs: seq<Input>, j: nat, k: nat, x: nat)
    returns (m: nat)
    requires Driven(config, nodes, inputs) && LocalInv(nodes[0]) && ApplyInv(nodes[0]) && j <= k < |nodes|
    requires nodes[j].durable.applied < x <= nodes[k].durable.applied
    ensures j <= m < k && (Released(config, nodes, inputs, m, x) || Covered(nodes, m, x))
    decreases k
  {
    hide LocalInv, Step;
    var n := k - 1;
    DrivenApplies(config, nodes, inputs, n);
    NodeValid(nodes[n]);
    StepApplies(config, nodes[n], inputs[n]);
    assert nodes[n + 1] == Step(config, nodes[n], inputs[n]).0;
    if x <= nodes[n].durable.applied {
      m := NothingSkipped(config, nodes, inputs, j, n, x);
    } else {
      m := n;
    }
  }
}
