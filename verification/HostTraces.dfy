// Sequences of core steps as a host drives them: what they release, which write
// they leave in flight and what they keep.
module HostTraces {
  import opened Logs
  import opened Transition
  import opened Local
  import opened Cluster
  import opened SafetyDisks
  import opened HostSteps
  import opened HostPins
  import opened StepSends
  import opened StepElection
  import opened StepLeader

  datatype HostEffects = HostEffects(
    send: seq<Outbound>,
    snapshots: seq<SnapshotNeeded>,
    capacityExhausted: bool,
    results: seq<ReadResult>)

  const NO_OUTPUT := HostEffects([], [], false, [])

  // ---------------------------------------------------------------- traces

  // output with what one step released, in order.
  function Gathered(output: HostEffects, effects: Effects): HostEffects {
    HostEffects(output.send + effects.send,
                output.snapshots + effects.snapshotNeeded,
                output.capacityExhausted || effects.capacityExhausted,
                output.results + if effects.read.Some? then [effects.read.value] else [])
  }

  // Everything the core released along a sequence of steps, in order.
  function Output(config: Config, nodes: seq<Node>, inputs: seq<Input>): HostEffects
    requires Driven(config, nodes, inputs)
    decreases |inputs|
  {
    if inputs == [] then NO_OUTPUT
    else
      var n := |inputs| - 1;
      assert Driven(config, nodes[..n + 1], inputs[..n]);
      Gathered(Output(config, nodes[..n + 1], inputs[..n]), Step(config, nodes[n], inputs[n]).1)
  }

  // The write in flight after one more step.
  function WriteAfter(w: Option<PersistRequest>, node: Node, input: Input, effects: Effects): Option<PersistRequest> {
    if effects.persist.Some? then effects.persist else if Completes(node, input) then None else w
  }

  // The write in flight after a sequence of steps that began without one.
  function Writing(config: Config, nodes: seq<Node>, inputs: seq<Input>): Option<PersistRequest>
    requires Driven(config, nodes, inputs)
    decreases |inputs|
  {
    if inputs == [] then None
    else
      var n := |inputs| - 1;
      assert Driven(config, nodes[..n + 1], inputs[..n]);
      WriteAfter(Writing(config, nodes[..n + 1], inputs[..n]), nodes[n], inputs[n],
                 Step(config, nodes[n], inputs[n]).1)
  }

  // Inputs the host makes up itself.
  predicate Internal(input: Input) {
    input.AdvanceCommit? || input.ApplyCommitted? || input.CompactCommitted? || input.PersistCompleted?
  }

  // Steps from start: the given input, then only the host's own.
  ghost predicate Trace(config: Config, start: Node, input: Input, nodes: seq<Node>, inputs: seq<Input>) {
    Driven(config, nodes, inputs) && nodes[0] == start && inputs != [] && inputs[0] == input &&
    forall k :: 0 < k < |inputs| ==> Internal(inputs[k])
  }

  lemma OneMore(config: Config, nodes: seq<Node>, inputs: seq<Input>, input: Input)
    requires Driven(config, nodes, inputs)
    ensures
      var (next, effects) := Step(config, nodes[|inputs|], input);
      Driven(config, nodes + [next], inputs + [input]) &&
      Output(config, nodes + [next], inputs + [input]) == Gathered(Output(config, nodes, inputs), effects) &&
      Writing(config, nodes + [next], inputs + [input]) ==
        WriteAfter(Writing(config, nodes, inputs), nodes[|inputs|], input, effects)
  {
    hide Step;
    var next := Step(config, nodes[|inputs|], input).0;
    var ns, more := nodes + [next], inputs + [input];
    forall k: nat | k < |more|
      ensures ns[k + 1] == Step(config, ns[k], more[k]).0
    {
      if k < |inputs| {
        assert nodes[k + 1] == Step(config, nodes[k], inputs[k]).0;
      }
    }
    assert ns[..|inputs| + 1] == nodes && more[..|inputs|] == inputs;
  }

  lemma Nothing(config: Config, node: Node)
    ensures Driven(config, [node], []) && Output(config, [node], []) == NO_OUTPUT && Writing(config, [node], []) == None
  {}

  // ---------------------------------------------------------------- steps

  // Everything the host needs to know about its node between two steps.
  ghost predicate NodeFit(config: Config, node: Node) {
    LocalInv(node) && VotesKnown(config, node) && ApplyInv(node) && FlightInv(node)
  }

  lemma StepFits(config: Config, node: Node, input: Input)
    requires NodeFit(config, node)
    ensures NodeFit(config, Step(config, node, input).0)
    ensures StepOK(node, Step(config, node, input).0, Step(config, node, input).1)
    ensures AsksRight(config, node, Step(config, node, input).0, Step(config, node, input).1)
    ensures ReleasesNext(node, Step(config, node, input).0, Step(config, node, input).1)
    ensures Flown(node, Step(config, node, input).0, Step(config, node, input).1)
    ensures Step(config, node, input).1.halt ==> node.pending.Some? && input.PersistFailed?
    ensures Advances(node.durable, Step(config, node, input).0.durable)
  {
    hide Step, LocalInv, Advances, KindFits, VoteKnown, Flies, Fresh;
    StepKeeps(config, node, input);
    NodeValid(node);
    StepFlown(config, node, input);
    StepAsks(config, node, input);
    StepApplies(config, node, input);
    StepAdvances(config, node, input);
  }

  ghost predicate ConfigIds(config: Config) {
    ValidId(config.self) && forall p :: p in config.peers ==> ValidId(p)
  }

  lemma StepHalts(config: Config, node: Node, input: Input)
    requires ValidNode(node)
    ensures Step(config, node, input).0.halted ==> node.halted || Step(config, node, input).1.halt
  {
    hide ValidDurable, StepIdle, CountVote, SendAll, CompleteRead;
    match input
    case PersistCompleted(token) => CompletedFrame(config, node, token);
    case BeginRead(context) =>
      var s := Sending(AdmitRead(config, node, context), [], []);
      SendAllFrame(config, s, node.durable, config.peers);
      var t := SendAll(config, s, node.durable, config.peers);
      ReadFrame(config, t.node, NO_EFFECTS.(send := t.out, snapshotNeeded := t.snapshots));
    case PersistFailed(_) =>
    case Restart =>
    case CancelRead(_) =>
    case _ =>
      if !node.halted && node.pending.None? {
        IdleHalts(config, node, input);
      }
  }

  lemma IdleHalts(config: Config, node: Node, input: Input)
    requires ValidDurable(node.durable)
    ensures StepIdle(config, node, input).0.halted == node.halted
  {
    hide ValidTerms, SendAll, BeatAll, HighestFrom, VoteRequests, OnMessage;
    match input
    case Receive(m) => MessageStops(config, node, m);
    case ClientPropose(command) =>
      SendAllFrame(config, Sending(node, [], []),
                   node.durable.(log := node.durable.log + [Entry(node.durable.term, command)]), config.peers);
    case HeartbeatTimeout => BeatAllFrame(config, Sending(node, [], []), Sorted(config.peers));
    case _ =>
  }

  lemma MessageStops(config: Config, node: Node, m: Message)
    requires ValidDurable(node.durable)
    ensures OnMessage(config, node, m).0.halted == node.halted
  {
    hide ValidDurable, OnAppend, UpToDate, Answered, QuorumSize, CountVote;
    if m.VoteReply? {
      CountHalts(config, node, NO_EFFECTS, m.voter);
    }
    if m.AppendEntries? {
      AppendStops(config, node, m);
    }
  }

  lemma AppendStops(config: Config, node: Node, m: Message)
    requires m.AppendEntries?
    ensures OnAppend(config, node, m).0.halted == node.halted
  {
    hide Merge, AppendAcceptable, MissHint, DurableTermAt;
  }

  lemma CountHalts(config: Config, node: Node, effects: Effects, voter: Id)
    ensures CountVote(config, node, effects, voter).0.halted == node.halted
    ensures CountVote(config, node, effects, voter).0.durable == node.durable
    ensures CountVote(config, node, effects, voter).0.pending == node.pending
    ensures CountVote(config, node, effects, voter).1.persist == effects.persist
  {
    hide BecomeLeader;
    LeaderFrame(config, node.(vol := node.vol.(votes := node.vol.votes + {voter})), effects);
  }

  // Completing the write in flight makes its target the disk image.
  lemma CompletedFrame(config: Config, node: Node, token: nat)
    ensures
      var (next, effects) := OnPersistCompleted(config, node, token);
      next.halted == node.halted && effects.persist.None? &&
      (node.pending.Some? && node.pending.value.token == token && !node.halted ==>
        next.durable == node.pending.value.target && next.pending.None?)
  {
    hide CountVote, CompleteRead;
    if node.pending.Some? {
      var pending := node.pending.value;
      var done := node.(pending := None, durable := pending.target);
      var effects := NO_EFFECTS.(send := pending.after, apply := pending.applyAfter,
                                 snapshotNeeded := pending.snapshotAfter);
      ReadFrame(config, done, effects);
      var (read, out) := CompleteRead(config, done, effects);
      CountHalts(config, read, out, config.self);
    }
  }

  // The node after one input and the write it may stage.
  function Drain(config: Config, node: Node, input: Input): Node {
    var (next, effects) := Step(config, node, input);
    if effects.persist.Some? then Step(config, next, PersistCompleted(effects.persist.value.token)).0 else next
  }

  // A round whose write carries no own vote ends with the target on disk and at
  // most the open read changed.
  lemma DrainShape(config: Config, node: Node, input: Input)
    requires LocalInv(node) && Free(node)
    requires
      var next := Step(config, node, input).0;
      next.vol == node.vol && !next.halted && (next.pending.Some? ==> !next.pending.value.selfVote) &&
      (next.pending.Some? <==> Step(config, node, input).1.persist.Some?)
    ensures
      var next, done := Step(config, node, input).0, Drain(config, node, input);
      done.durable == Newest(next) && done.vol == node.vol.(read := done.vol.read) && !done.halted && done.pending == None
  {
    hide Step, LocalInv, ValidDurable, Settled, Counted;
    StepKeeps(config, node, input);
    var (next, effects) := Step(config, node, input);
    if effects.persist.Some? {
      NodeValid(next);
      CompletedOutcome(config, next, effects.persist.value.token);
    }
  }

  // After a commit round nothing more can be committed.
  lemma DrainAdvances(config: Config, node: Node)
    requires LocalInv(node) && Free(node)
    ensures AllCommitted(config, Drain(config, node, AdvanceCommit))
  {
    hide LocalInv, ValidDurable, StoredByMost, Drain;
    AdvanceOutcome(config, node);
    AdvanceAsks(config, node);
    DrainShape(config, node, AdvanceCommit);
    FreeBounds(node);
    var done := Drain(config, node, AdvanceCommit);
    forall n: nat | n > done.durable.commit
      ensures StoredByMost(config, done, n) ==> StoredByMost(config, node, n)
    {
      StoredAlike(config, node, done, n);
    }
  }

  lemma AdvanceAsks(config: Config, node: Node)
    requires Free(node)
    ensures
      var (next, effects) := Step(config, node, AdvanceCommit);
      next.pending.Some? <==> effects.persist.Some?
  {
    hide ValidTerms, HighestFrom;
  }

  lemma StoredAlike(config: Config, node: Node, done: Node, n: nat)
    requires done.vol.peers == node.vol.peers && done.durable.term == node.durable.term && n > done.durable.snapshotIndex
    requires node.durable.snapshotIndex <= done.durable.snapshotIndex && LastIndex(done.durable) == LastIndex(node.durable)
    requires n <= LastIndex(node.durable) ==> EntryAt(done.durable, n) == EntryAt(node.durable, n)
    ensures StoredByMost(config, done, n) <==> StoredByMost(config, node, n)
  {
    assert (set p | p in node.vol.peers && node.vol.peers[p].matched >= n) ==
           (set p | p in done.vol.peers && done.vol.peers[p].matched >= n);
  }

  // Applying and compacting change nothing about that.
  lemma DrainStaysCommitted(config: Config, node: Node, input: Input)
    requires LocalInv(node) && Free(node) && AllCommitted(config, node)
    requires input.ApplyCommitted? || input.CompactCommitted?
    ensures AllCommitted(config, Drain(config, node, input))
  {
    hide LocalInv, ValidDurable, StoredByMost, Drain, Step;
    ApplyOutcome(config, node);
    CompactOutcome(config, node);
    HouseAsks(config, node, input);
    DrainShape(config, node, input);
    FreeBounds(node);
    var done := Drain(config, node, input);
    forall n: nat | n > done.durable.commit
      ensures StoredByMost(config, done, n) <==> StoredByMost(config, node, n)
    {
      StoredAlike(config, node, done, n);
    }
  }

  lemma FreeBounds(node: Node)
    requires Free(node)
    ensures node.durable.snapshotIndex <= node.durable.applied <= node.durable.commit <= LastIndex(node.durable)
  {}

  lemma HouseAsks(config: Config, node: Node, input: Input)
    requires Free(node) && (input.ApplyCommitted? || input.CompactCommitted?)
    ensures
      var (next, effects) := Step(config, node, input);
      next.pending.Some? <==> effects.persist.Some?
  {
    hide ValidTerms;
  }

  // A compaction round that is due moves the boundary to the commit index.
  lemma DrainTrims(config: Config, node: Node)
    requires LocalInv(node) && Free(node) && node.durable.applied == node.durable.commit
    ensures
      var d := Drain(config, node, CompactCommitted).durable;
      d.commit == node.durable.commit == d.applied && d.snapshotIndex == node.durable.commit
  {
    hide LocalInv, ValidDurable, Drain, Step;
    CompactOutcome(config, node);
    HouseAsks(config, node, CompactCommitted);
    DrainShape(config, node, CompactCommitted);
    FreeBounds(node);
  }

  // One application step applies exactly the next committed entry.
  lemma DrainApplies(config: Config, node: Node)
    requires NodeFit(config, node) && node.pending.None? && !node.halted && node.durable.applied < node.durable.commit
    ensures Drain(config, node, ApplyCommitted).durable == node.durable.(applied := node.durable.applied + 1)
  {
    hide ValidTerms, Applies, VoteKnown, Advances, CountVote, CompleteRead;
    StepFits(config, node, ApplyCommitted);
    var (next, effects) := Step(config, node, ApplyCommitted);
    NodeValid(next);
    CompletedFrame(config, next, effects.persist.value.token);
  }
}
