// The read barrier over whole runs.
module SafetyReads {
  import opened Logs
  import opened Transition
  import opened Local
  import opened Protocol
  import opened Cluster
  import opened Simulation
  import opened SimFollower
  import opened SimSend
  import opened SimLeader
  import opened SimDisk
  import opened SimSteps
  import opened Safety

  // ---------------------------------------------------------------- where a read comes from

  predicate SameBarrier(a: ReadBarrier, b: ReadBarrier) {
    a.context == b.context && a.term == b.term && a.index == b.index
  }

  // b has no read, or the one a had.
  predicate KeepsRead(a: Node, b: Node) {
    b.vol.read.None? || (a.vol.read.Some? && SameBarrier(a.vol.read.value, b.vol.read.value))
  }

  lemma SendOneRead(config: Config, s: Sending, log: Durable, peer: Id)
    ensures SameRead(s.node.vol.read, SendAppend(config, s, log, peer).node.vol.read)
  {}

  lemma {:induction false} SendAllRead(config: Config, s: Sending, log: Durable, peers: seq<Id>)
    ensures SameRead(s.node.vol.read, SendAll(config, s, log, peers).node.vol.read)
    decreases |peers|
  {
    hide SendAppend;
    if peers != [] {
      SendOneRead(config, s, log, peers[0]);
      SendAllRead(config, SendAppend(config, s, log, peers[0]), log, peers[1..]);
    }
  }

  lemma {:induction false} BeatAllRead(config: Config, s: Sending, peers: seq<Id>)
    ensures SameRead(s.node.vol.read, BeatAll(config, s, peers).node.vol.read)
    decreases |peers|
  {
    hide SendAppend;
    if peers != [] {
      SendOneRead(config, s, s.node.durable, peers[0]);
      BeatAllRead(config, BeatOne(config, s, peers[0]), peers[1..]);
    }
  }

  predicate NoneReady(effects: Effects) {
    effects.read.Some? ==> effects.read.value.status != Ready
  }

  lemma LeaderRead(config: Config, node: Node, effects: Effects)
    ensures KeepsRead(node, BecomeLeader(config, node, effects).0)
    ensures BecomeLeader(config, node, effects).1.read == effects.read
  {
    hide SendAll;
    SendAllRead(config, Sending(Crowned(node), effects.send, effects.snapshotNeeded), node.durable,
                Sorted(config.peers));
  }

  lemma CountRead(config: Config, node: Node, effects: Effects, voter: Id)
    ensures KeepsRead(node, CountVote(config, node, effects, voter).0)
    ensures CountVote(config, node, effects, voter).1.read == effects.read
  {
    hide BecomeLeader;
    LeaderRead(config, node.(vol := node.vol.(votes := node.vol.votes + {voter})), effects);
  }

  lemma MessageRead(config: Config, node: Node, m: Message)
    requires ValidDurable(node.durable) && !m.AppendReply?
    ensures KeepsRead(node, OnMessage(config, node, m).0) && NoneReady(OnMessage(config, node, m).1)
  {
    hide ValidDurable, CountVote, OnAppend, UpToDate;
    if m.VoteReply? {
      CountRead(config, node, NO_EFFECTS, m.voter);
    }
    if m.AppendEntries? {
      AppendRead(config, node, m);
    }
  }

  lemma AppendRead(config: Config, node: Node, m: Message)
    requires m.AppendEntries?
    ensures KeepsRead(node, OnAppend(config, node, m).0) && NoneReady(OnAppend(config, node, m).1)
  {
    hide Merge, AppendAcceptable, MissHint, DurableTermAt;
  }

  lemma AppendReplyRead(config: Config, node: Node, m: Message)
    requires m.AppendReply?
    ensures KeepsRead(node, OnAppendReply(config, node, m).0)
  {}

  lemma IdleRead(config: Config, node: Node, input: Input)
    requires ValidDurable(node.durable)
    ensures KeepsRead(node, StepIdle(config, node, input).0)
    ensures !(input.Receive? && input.message.AppendReply?) ==> NoneReady(StepIdle(config, node, input).1)
  {
    hide ValidDurable, SendAll, BeatAll, VoteRequests, HighestFrom, OnRequestVote, OnVoteReply, OnAppend, OnSnapshot,
      OnSnapshotReply, OnAppendReply;
    match input
    case Receive(m) =>
      if m.AppendReply? {
        AppendReplyRead(config, node, m);
      } else {
        MessageRead(config, node, m);
      }
    case ClientPropose(command) =>
      SendAllRead(config, Sending(node, [], []), node.durable.(log := node.durable.log + [Entry(node.durable.term, command)]),
                  config.peers);
    case HeartbeatTimeout => BeatAllRead(config, Sending(node, [], []), Sorted(config.peers));
    case _ =>
  }

  lemma CompletedRead(config: Config, node: Node, token: nat)
    ensures KeepsRead(node, OnPersistCompleted(config, node, token).0)
  {
    hide CountVote;
    if node.pending.Some? {
      var pending := node.pending.value;
      var (read, effects) := CompleteRead(config, node.(pending := None, durable := pending.target),
        NO_EFFECTS.(send := pending.after, apply := pending.applyAfter, snapshotNeeded := pending.snapshotAfter));
      CountRead(config, read, effects, config.self);
    }
  }

  // A read is opened by admission and by nothing else.
  lemma ReadOrigin(config: Config, node: Node, input: Input)
    requires ValidNode(node)
    ensures
      var next := Step(config, node, input).0;
      (Admits(node, input) ==>
        node.vol.read.None? && (next.vol.read.Some? ==> next.vol.read.value.context == input.context)) &&
      (!Admits(node, input) ==> KeepsRead(node, next))
  {
    hide ValidDurable, StepIdle, OnPersistCompleted, SendAll;
    match input
    case PersistCompleted(token) => CompletedRead(config, node, token);
    case BeginRead(context) =>
      SendAllRead(config, Sending(AdmitRead(config, node, context), [], []), node.durable, config.peers);
    case PersistFailed(_) =>
    case Restart =>
    case CancelRead(_) =>
    case _ => IdleRead(config, node, input);
  }

  // ---------------------------------------------------------------- why a ready read is fresh

  // A confirmed read has seen every commit index there was.
  lemma ReadySafe(r: Raft, config: Config, i: Id, read: ReadBarrier, f: ReadFloor)
    requires FloorOK(r, read, f) && ConfigOK(config, i, r.members) && |read.acknowledgements| >= QuorumSize(config)
    ensures forall k :: k in f.commits ==> f.commits[k] <= read.index
  {
    QuorumMembers(config, i, r.members);
    forall k | k in f.commits
      ensures f.commits[k] <= read.index
    {
      if q :| Outvoted(r.members, f, read.term, q) {
        var e := QuorumsMeet(r.members, q, read.acknowledgements);
      }
    }
  }

  // What a ready result guarantees, given the floor taken at admission.
  ghost predicate ReadyOK(f: ReadFloor, node: Node, result: ReadResult) {
    result.status == Ready ==>
      (forall k :: k in f.commits ==> f.commits[k] <= result.index) && result.index <= node.durable.applied
  }

  lemma CompleteOK(r: Raft, config: Config, i: Id, node: Node, effects: Effects, f: ReadFloor)
    requires ConfigOK(config, i, r.members) && NoneReady(effects)
    requires node.vol.read.Some? ==> FloorOK(r, node.vol.read.value, f)
    ensures
      var (next, out) := CompleteRead(config, node, effects);
      out.read.Some? ==>
        ReadyOK(f, next, out.read.value) &&
        (out.read.value.status == Ready ==> node.vol.read.Some? && out.read.value.context == node.vol.read.value.context)
  {
    hide FloorOK, ConfigOK;
    if node.vol.read.Some? && |node.vol.read.value.acknowledgements| >= QuorumSize(config) {
      ReadySafe(r, config, i, node.vol.read.value, f);
    }
  }

  // The read node had, or the one just admitted, with the floor taken for it.
  ghost predicate Answers(g: Ghost, i: Id, node: Node, input: Input, next: Node, result: ReadResult) {
    result.status == Ready ==>
      i in Floored(g, i, node, input).floors && ReadyOK(Floored(g, i, node, input).floors[i], next, result) &&
      if Admits(node, input) then result.context == input.context
      else node.vol.read.Some? && result.context == node.vol.read.value.context
  }

  lemma ReadyAdmitted(g: Ghost, net: set<Outbound>, i: Id, config: Config, node: Node, context: nat)
    requires Steady(g, net, i, node) && ReadAdmissible(node) && ConfigOK(config, i, g.r.members)
    requires forall p :: p in net ==> MsgOK(g, p)
    ensures
      var (next, out) := OnBeginRead(config, node, context);
      out.read.Some? ==> Answers(g, i, node, BeginRead(context), next, out.read.value)
  {
    hide Inv, ConfigOK, SendAll, DiskOK, PendingOK, LeaderOK, CandidateOK, FreshReplies, MsgOK, QuorumSize, FloorOf;
    ConfigMember(config, i, g.r.members);
    Admitted(g, net, i, config, node, context);
    var h := Opened(g, i, node);
    var admitted := AdmitRead(config, node, context);
    var s := SendAll(config, Sending(admitted, [], []), node.durable, config.peers);
    SendAllRead(config, Sending(admitted, [], []), node.durable, config.peers);
    SendAllFrame(config, Sending(admitted, [], []), node.durable, config.peers);
    FloorProbes(h.r, admitted.vol.read.value, s.node.vol.read.value, h.floors[i]);
    if |s.node.vol.read.value.acknowledgements| >= QuorumSize(config) {
      ReadySafe(h.r, config, i, admitted.vol.read.value, h.floors[i]);
    }
  }

  // Acknowledgements, not probes, decide.
  lemma FloorProbes(r: Raft, a: ReadBarrier, b: ReadBarrier, f: ReadFloor)
    requires FloorOK(r, a, f) && b == a.(probes := b.probes)
    ensures FloorOK(r, b.(probes := a.probes), f) && b.acknowledgements == a.acknowledgements
  {}

  lemma ReadyReply(g: Ghost, net: set<Outbound>, i: Id, config: Config, node: Node, m: Message)
    requires Steady(g, net, i, node) && ConfigOK(config, i, g.r.members) && m.AppendReply? && Outbound(i, m) in net
    ensures
      var (next, out) := OnAppendReply(config, node, m);
      out.read.Some? ==> Answers(g, i, node, Receive(m), next, out.read.value)
  {
    hide Steady, Inv, ConfigOK, QuorumSize, FloorOK, Answered, NoteReadAck, CompleteRead;
    OpenFloor(g, net, i, node);
    if KnownPeer(node, m.follower) && m.term > node.durable.term {
      CompleteOK(g.r, config, i, Deposed(node, m.term).0, Deposed(node, m.term).1,
                 if i in g.floors then g.floors[i] else ReadFloor(0, map[], map[]));
    } else if ReplyMatches(node, m) {
      var progress := node.vol.peers[m.follower];
      var probe := progress.inFlight.value;
      if m.success {
        ReadAcked(g, net, i, node, m, probe);
        OpenFloor(g, net, i, NoteReadAck(node, m, probe));
        NotedRead(node, m, probe);
      }
      var noted := if m.success then NoteReadAck(node, m, probe) else node;
      CompleteOK(g.r, config, i, SetProgress(noted, m.follower, Answered(progress, m, probe)), NO_EFFECTS,
                 if i in g.floors then g.floors[i] else ReadFloor(0, map[], map[]));
    } else {
      CompleteOK(g.r, config, i, node, NO_EFFECTS,
                 if i in g.floors then g.floors[i] else ReadFloor(0, map[], map[]));
    }
  }

  lemma NotedRead(node: Node, m: Message, probe: Probe)
    requires m.AppendReply?
    ensures KeepsRead(node, NoteReadAck(node, m, probe))
  {}

  lemma OpenFloor(g: Ghost, net: set<Outbound>, i: Id, node: Node)
    requires Steady(g, net, i, node)
    ensures node.vol.read.Some? ==> i in g.floors && FloorOK(g.r, node.vol.read.value, g.floors[i])
  {
    hide Inv, DiskOK, PendingOK, LeaderOK, CandidateOK, FreshReplies, FloorOK;
  }

  lemma ReadyCompleted(g: Ghost, net: set<Outbound>, i: Id, config: Config, node: Node, w: Option<PersistRequest>,
                       token: nat)
    requires MemberOK(g, net, i, node, w) && ConfigOK(config, i, g.r.members)
    ensures
      var (next, out) := OnPersistCompleted(config, node, token);
      out.read.Some? ==> Answers(g, i, node, PersistCompleted(token), next, out.read.value)
  {
    hide DiskOK, PendingOK, LeaderOK, CandidateOK, FreshReplies, FloorOK, ConfigOK, QuorumSize, CountVote, CompleteRead;
    if node.pending.Some? && node.pending.value.token == token && !node.halted {
      var pending := node.pending.value;
      var done := node.(pending := None, durable := pending.target);
      var effects := NO_EFFECTS.(send := pending.after, apply := pending.applyAfter,
                                 snapshotNeeded := pending.snapshotAfter);
      CompleteOK(g.r, config, i, done, effects, if i in g.floors then g.floors[i] else ReadFloor(0, map[], map[]));
      var (read, out) := CompleteRead(config, done, effects);
      CountRead(config, read, out, config.self);
      CountFrame(config, read, out);
    }
  }

  lemma CountFrame(config: Config, node: Node, effects: Effects)
    ensures CountVote(config, node, effects, config.self).0.durable == node.durable
  {
    hide BecomeLeader;
    LeaderFrame(config, node.(vol := node.vol.(votes := node.vol.votes + {config.self})), effects);
  }

  lemma StepReady(g: Ghost, net: set<Outbound>, i: Id, config: Config, node: Node, w: Option<PersistRequest>,
                  input: Input)
    requires Inv(g.r) && SentLed(g) && MemberOK(g, net, i, node, w) && ConfigOK(config, i, g.r.members)
    requires forall p :: p in net ==> MsgOK(g, p)
    requires (input.Receive? ==> Outbound(i, input.message) in net) && !input.Restart?
    ensures
      var (next, out) := Step(config, node, input);
      out.read.Some? ==> Answers(g, i, node, input, next, out.read.value)
  {
    hide Inv, SentLed, MemberOK, ConfigOK, MsgOK, ValidDurable, StepIdle, OnPersistCompleted, OnBeginRead, Answers, Steady;
    MemberFacts(g, net, i, config, node, w);
    match input
    case PersistCompleted(token) => ReadyCompleted(g, net, i, config, node, w, token);
    case PersistFailed(token) => NotReadyAnswers(g, i, config, node, input);
    case CancelRead(context) => NotReadyAnswers(g, i, config, node, input);
    case BeginRead(context) =>
      if ReadAdmissible(node) {
        ReadyAdmitted(g, net, i, config, node, context);
      } else {
        NotReadyAnswers(g, i, config, node, input);
      }
    case Receive(m) =>
      if m.AppendReply? && !node.halted && node.pending.None? {
        ReadyReply(g, net, i, config, node, m);
        ReplyStep(config, node, m);
      } else {
        NotReadyAnswers(g, i, config, node, input);
      }
    case _ => NotReadyAnswers(g, i, config, node, input);
  }

  lemma ReplyStep(config: Config, node: Node, m: Message)
    requires ValidNode(node) && m.AppendReply? && !node.halted && node.pending.None?
    ensures Step(config, node, Receive(m)) == OnAppendReply(config, node, m)
  {
    hide ValidDurable, OnAppendReply;
  }

  lemma NotReadyAnswers(g: Ghost, i: Id, config: Config, node: Node, input: Input)
    requires ValidNode(node) && !input.PersistCompleted? && !Admits(node, input)
    requires !(input.Receive? && input.message.AppendReply? && !node.halted && node.pending.None?)
    ensures
      var (next, out) := Step(config, node, input);
      out.read.Some? ==> Answers(g, i, node, input, next, out.read.value)
  {
    hide ValidDurable, StepIdle, SendAll, CompleteRead;
    IdleRead(config, node, input);
  }

  // ---------------------------------------------------------------- the barrier in runs

  // Member i admits a read with this context in step k.
  predicate AdmitsAt(states: seq<State>, labels: seq<Label>, k: nat, i: Id, context: nat)
    requires |states| == |labels| + 1
  {
    k < |labels| && labels[k] == Label(i, Handle(BeginRead(context))) && i in states[k].nodes &&
    ReadAdmissible(states[k].nodes[i])
  }

  // The floor of i's read is the state of the cluster in step k.
  ghost predicate FloorFrom(gs: seq<Ghost>, f: ReadFloor, k: nat) {
    k < |gs| && f.commits == map j | j in gs[k].r.disks :: gs[k].r.disks[j].commit
  }

  lemma BootRead(config: Config, d: Durable)
    ensures Boot(config, d).vol.read.None?
  {}

  lemma OthersKeep(s: State, s': State, l: Label, i: Id)
    requires Next(s, s', l) && i in s'.nodes
    ensures i in s.nodes
    ensures l.who != i || l.action.Offer? || l.action.RefuseChunk? ==> s'.nodes[i] == s.nodes[i]
    ensures l.who == i && l.action.Crash? ==> s'.nodes[i].vol.read.None?
    ensures l.who == i && l.action.Handle? ==>
              i in s.configs && s'.nodes[i] == Step(s.configs[i], s.nodes[i], l.action.input).0
  {
    hide Step, Boot, Recoverable;
    if l.action.Crash? && l.who in s.configs {
      BootRead(s.configs[l.who], l.action.recovered);
    }
  }

  // One step back: an open read was open before, or has just been admitted.
  lemma ReadBefore(s: State, s': State, g: Ghost, g': Ghost, l: Label, i: Id)
    requires SimInv(s, g) && Next(s, s', l) && GhostStep(s, g, g', l) && i in s'.nodes && s'.nodes[i].vol.read.Some?
    ensures i in s.nodes
    ensures
      if l.who == i && Opens(s, l) then
        s'.nodes[i].vol.read.value.context == l.action.input.context && i in g'.floors &&
        g'.floors[i] == FloorOf(g.r, s.nodes[i].nextRequestId)
      else
        s.nodes[i].vol.read.Some? && SameBarrier(s.nodes[i].vol.read.value, s'.nodes[i].vol.read.value) &&
        (i in g.floors ==> i in g'.floors && g'.floors[i] == g.floors[i])
  {
    hide SimInv, Next, Step, MemberOK, ConfigOK, FloorOf, Inv, GhostMoves;
    OthersKeep(s, s', l, i);
    Located(s, g, i);
    MemberValid(g, s.net, i, s.nodes[i], s.writes[i]);
    if l.who == i && l.action.Handle? {
      ReadOrigin(s.configs[i], s.nodes[i], l.action.input);
    }
  }

  lemma MemberValid(g: Ghost, net: set<Outbound>, i: Id, node: Node, w: Option<PersistRequest>)
    requires MemberOK(g, net, i, node, w)
    ensures ValidNode(node) && (node.vol.read.Some? ==> i in g.floors)
  {
    hide PendingOK, LeaderOK, CandidateOK, DiskRel, ValidDurable, Advances, FloorOK, FreshReplies;
  }

  // Every open read was admitted, and its floor was taken then.
  lemma {:induction false} ReadOpened(states: seq<State>, labels: seq<Label>, gs: seq<Ghost>, k: nat, i: Id)
    returns (a: nat)
    requires Run(states, labels) && Explains(states, labels, gs) && k < |states| && i in states[k].nodes
    requires states[k].nodes[i].vol.read.Some?
    ensures a < k && AdmitsAt(states, labels, a, i, states[k].nodes[i].vol.read.value.context)
    ensures i in gs[k].floors && FloorFrom(gs, gs[k].floors[i], a)
    decreases k
  {
    hide SimInv, Next, GhostStep, FloorFrom, Init;
    a := 0;
    if k == 0 {
      NoReadAtStart(states[0], i);
    } else {
      var s, s', l := states[k - 1], states[k], labels[k - 1];
      assert SimInv(s, gs[k - 1]);
      assert GhostStep(states[k - 1], gs[k - 1], gs[k - 1 + 1], labels[k - 1]);
      assert Next(states[k - 1], states[k - 1 + 1], labels[k - 1]);
      ReadBefore(s, s', gs[k - 1], gs[k], l, i);
      if l.who == i && Opens(s, l) {
        a := k - 1;
        FloorAt(gs, k - 1, s.nodes[i].nextRequestId);
      } else {
        a := ReadOpened(states, labels, gs, k - 1, i);
      }
    }
  }

  lemma FloorAt(gs: seq<Ghost>, k: nat, from: nat)
    requires k < |gs|
    ensures FloorFrom(gs, FloorOf(gs[k].r, from), k)
  {}

  lemma NoReadAtStart(s: State, i: Id)
    requires Init(s) && i in s.nodes
    ensures s.nodes[i].vol.read.None?
  {
    BootRead(s.configs[i], s.nodes[i].durable);
  }

  predicate ReadyAt(states: seq<State>, labels: seq<Label>, k: nat, i: Id, result: ReadResult)
    requires |states| == |labels| + 1
  {
    k < |labels| && labels[k].who == i && labels[k].action.Handle? && i in states[k].nodes && i in states[k].configs &&
    Step(states[k].configs[i], states[k].nodes[i], labels[k].action.input).1.read == Some(result) && result.status == Ready
  }

  lemma ReadyStep(states: seq<State>, labels: seq<Label>, gs: seq<Ghost>, k: nat, i: Id, result: ReadResult)
    requires Run(states, labels) && Explains(states, labels, gs) && ReadyAt(states, labels, k, i, result)
    ensures i in states[k + 1].nodes &&
      Answers(gs[k], i, states[k].nodes[i], labels[k].action.input, states[k + 1].nodes[i], result)
  {
    hide SimInv, GhostStep, Init, Step, Answers, MemberOK, ConfigOK, Inv;
    var s := states[k];
    assert SimInv(s, gs[k]);
    assert Next(states[k], states[k + 1], labels[k]);
    Located(s, gs[k], i);
    NetFacts(s, gs[k]);
    StepReady(gs[k], s.net, i, s.configs[i], s.nodes[i], s.writes[i], labels[k].action.input);
  }

  lemma NetFacts(s: State, g: Ghost)
    requires SimInv(s, g)
    ensures Inv(g.r) && SentLed(g) && forall p :: p in s.net ==> MsgOK(g, p)
  {
    hide Inv, MsgOK, NodeOK, Configured;
  }

  // Read barrier: a ready result carries an index at least as large as every
  // commit index any node had recorded when that read was admitted, and the node
  // has applied everything through it.
  lemma ReadBarrierHolds(states: seq<State>, labels: seq<Label>, k: nat, i: Id, result: ReadResult) returns (a: nat)
    requires Run(states, labels) && ReadyAt(states, labels, k, i, result)
    ensures a <= k && AdmitsAt(states, labels, a, i, result.context)
    ensures forall j :: j in states[a].nodes ==> states[a].nodes[j].durable.commit <= result.index
    ensures i in states[k + 1].nodes && result.index <= states[k + 1].nodes[i].durable.applied
  {
    hide Run, Explains, ReadyAt, FloorOf;
    var gs := RunExplained(states, labels);
    Lengths(states, labels, gs);
    ReadyStep(states, labels, gs, k, i, result);
    ReadyPlace(states, labels, k, i, result);
    var f: ReadFloor;
    if Admits(states[k].nodes[i], labels[k].action.input) {
      a := k;
      f := FloorOf(gs[k].r, states[k].nodes[i].nextRequestId);
      FloorAt(gs, k, states[k].nodes[i].nextRequestId);
    } else {
      a := ReadOpened(states, labels, gs, k, i);
      f := gs[k].floors[i];
    }
    FloorCommits(states, labels, gs, f, a, result.index);
  }

  lemma ReadyPlace(states: seq<State>, labels: seq<Label>, k: nat, i: Id, result: ReadResult)
    requires |states| == |labels| + 1 && ReadyAt(states, labels, k, i, result)
    ensures k < |labels| && labels[k] == Label(i, Handle(labels[k].action.input)) && i in states[k].nodes
    ensures result.status == Ready
  {
    hide Step;
  }

  lemma FloorCommits(states: seq<State>, labels: seq<Label>, gs: seq<Ghost>, f: ReadFloor, a: nat, index: nat)
    requires Explains(states, labels, gs) && a < |states| && FloorFrom(gs, f, a)
    requires forall j :: j in f.commits ==> f.commits[j] <= index
    ensures forall j :: j in states[a].nodes ==> states[a].nodes[j].durable.commit <= index
  {
    hide Explains, Inv, MemberOK, ValidDurable, Full;
    forall j | j in states[a].nodes
      ensures states[a].nodes[j].durable.commit <= index
    {
      At(states, labels, gs, a, j);
      assert j in f.commits;
    }
  }
}
