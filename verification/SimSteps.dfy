// Every step of a cluster keeps the relation to the protocol.
module SimSteps {
  import opened Logs
  import opened Transition
  import opened Local
  import opened Protocol
  import opened Cluster
  import opened Simulation
  import opened SimFollower
  import opened SimLeader
  import opened SimElection
  import opened SimDisk

  // ---------------------------------------------------------------- one input

  predicate Admits(node: Node, input: Input) {
    input.BeginRead? && ReadAdmissible(node)
  }

  // The write in progress after a step.
  function NextWrite(node: Node, input: Input, effects: Effects, w: Option<PersistRequest>): Option<PersistRequest> {
    if effects.persist.Some? then effects.persist else if Completes(node, input) then None else w
  }

  lemma HandleMessage(g: Ghost, net: set<Outbound>, i: Id, config: Config, node: Node, m: Message)
    returns (g': Ghost)
    requires Steady(g, net, i, node) && ConfigOK(config, i, g.r.members) && ValidDurable(node.durable)
    requires Outbound(i, m) in net && MsgOK(g, Outbound(i, m))
    ensures
      var (node', out) := OnMessage(config, node, m);
      Outcome(g, g', net, i, node', out.persist, out.send)
  {
    hide Steady, Outcome, MsgOK, ConfigOK, ValidDurable, OnRequestVote, OnVoteReply, OnAppend, OnAppendReply, OnSnapshot,
      OnSnapshotReply;
    ConfigMember(config, i, g.r.members);
    match m
    case RequestVote(_, _, _, _, _) => g' := HandleRequestVote(g, net, i, config, node, m);
    case VoteReply(_, _, _, _) => g' := HandleVoteReply(g, net, i, config, node, m);
    case AppendEntries(_, _, _, _, _, _, _) => g' := HandleAppend(g, net, i, config, node, m);
    case AppendReply(_, _, _, _, _, _) => g' := HandleAppendReply(g, net, i, config, node, m);
    case SnapshotRequest(_, _, _, _, _, _) => g' := HandleSnapshot(g, net, i, config, node, m);
    case SnapshotReply(_, _, _, _, _) => g' := HandleSnapshotReply(g, net, i, node, m);
  }

  lemma HandleIdle(g: Ghost, net: set<Outbound>, i: Id, config: Config, node: Node, input: Input) returns (g': Ghost)
    requires Steady(g, net, i, node) && ConfigOK(config, i, g.r.members) && ValidDurable(node.durable)
    requires input.Receive? ==> Outbound(i, input.message) in net && MsgOK(g, Outbound(i, input.message))
    ensures
      var (node', out) := StepIdle(config, node, input);
      Outcome(g, g', net, i, node', out.persist, out.send)
  {
    hide Steady, Outcome, MsgOK, ConfigOK, ValidDurable, OnCompact, OnMessage, OnElectionTimeout, OnPropose, OnHeartbeat,
      OnAdvanceCommit, OnApply;
    ConfigMember(config, i, g.r.members);
    match input
    case CompactCommitted => g' := HandleCompact(g, net, i, node);
    case Receive(m) => g' := HandleMessage(g, net, i, config, node, m);
    case ElectionTimeout => g' := HandleElection(g, net, i, config, node);
    case ClientPropose(command) => g' := HandlePropose(g, net, i, config, node, command);
    case HeartbeatTimeout => g' := HandleHeartbeat(g, net, i, config, node);
    case AdvanceCommit => g' := HandleAdvance(g, net, i, config, node);
    case ApplyCommitted => g' := HandleApply(g, net, i, node);
    case _ =>
      g' := g;
      QuietSteady(g, net, i, node);
  }

  // A member that was promised an answer to its write knows which write that is.
  lemma MemberFacts(g: Ghost, net: set<Outbound>, i: Id, config: Config, node: Node, w: Option<PersistRequest>)
    requires Inv(g.r) && SentLed(g) && MemberOK(g, net, i, node, w) && ConfigOK(config, i, g.r.members)
    ensures ValidNode(node) && (node.pending.Some? ==> w.Some? && !node.halted)
    ensures node.pending.None? && !node.halted ==> w == None && Steady(g, net, i, node)
  {
    hide Inv, LeaderOK, CandidateOK, ReadOK, DiskRel, ValidDurable, Advances, AfterOK, WriteOK;
  }

  lemma DispatchIdle(g: Ghost, net: set<Outbound>, i: Id, config: Config, node: Node, w: Option<PersistRequest>,
                     input: Input) returns (g': Ghost)
    requires Inv(g.r) && SentLed(g) && MemberOK(g, net, i, node, w) && ConfigOK(config, i, g.r.members)
    requires ValidNode(node) && !input.PersistCompleted?
    requires input.Receive? ==> Outbound(i, input.message) in net && MsgOK(g, Outbound(i, input.message))
    ensures
      var (node', out) := if node.halted || node.pending.Some? then Quiet(node) else StepIdle(config, node, input);
      Outcome(g, g', net, i, node', NextWrite(node, input, out, w), out.send)
  {
    hide Inv, SentLed, MemberOK, ConfigOK, Outcome, MsgOK, StepIdle, ValidDurable, Steady;
    MemberFacts(g, net, i, config, node, w);
    if node.halted || node.pending.Some? {
      g' := g;
      QuietOutcome(g, net, i, node, w);
    } else {
      g' := HandleIdle(g, net, i, config, node, input);
      assert NextWrite(node, input, StepIdle(config, node, input).1, w) == StepIdle(config, node, input).1.persist;
    }
  }

  // The floor of a read is taken when it is admitted.
  function Floored(g: Ghost, i: Id, node: Node, input: Input): Ghost {
    if Admits(node, input) then Opened(g, i, node) else g
  }

  lemma DispatchRead(g: Ghost, net: set<Outbound>, i: Id, config: Config, node: Node, w: Option<PersistRequest>,
                     context: nat) returns (g': Ghost)
    requires Inv(g.r) && SentLed(g) && MemberOK(g, net, i, node, w) && ConfigOK(config, i, g.r.members)
    requires forall p :: p in net ==> MsgOK(g, p)
    ensures
      var (node', out) := OnBeginRead(config, node, context);
      Outcome(Floored(g, i, node, BeginRead(context)), g', net, i, node', NextWrite(node, BeginRead(context), out, w),
              out.send)
    ensures GhostMoves(g, Floored(g, i, node, BeginRead(context)), i)
  {
    hide Inv, SentLed, MemberOK, ConfigOK, Outcome, MsgOK, SendAll, ValidNode, CompleteRead, Steady, GhostMoves, Opened;
    MemberFacts(g, net, i, config, node, w);
    ConfigMember(config, i, g.r.members);
    if ReadAdmissible(node) {
      g' := HandleBeginRead(g, net, i, config, node, context);
      NoPersist(config, node, context);
    } else {
      g' := g;
      GhostRefl(g, i);
      QuietOutcome(g, net, i, node, w);
    }
  }

  lemma NoPersist(config: Config, node: Node, context: nat)
    ensures OnBeginRead(config, node, context).1.persist == None
  {}

  lemma DispatchCompleted(g: Ghost, net: set<Outbound>, i: Id, config: Config, node: Node, w: Option<PersistRequest>,
                          token: nat) returns (g': Ghost)
    requires Inv(g.r) && SentLed(g) && MemberOK(g, net, i, node, w) && ConfigOK(config, i, g.r.members)
    ensures
      var (node', out) := OnPersistCompleted(config, node, token);
      Outcome(g, g', net, i, node', NextWrite(node, PersistCompleted(token), out, w), out.send)
  {
    hide Inv, SentLed, MemberOK, ConfigOK, Outcome, ValidNode, CompleteRead, CountVote;
    MemberFacts(g, net, i, config, node, w);
    if Completes(node, PersistCompleted(token)) {
      g' := HandleCompleted(g, net, i, config, node, w.value);
    } else {
      g' := g;
      QuietOutcome(g, net, i, node, w);
    }
  }

  lemma Dispatch(g: Ghost, net: set<Outbound>, i: Id, config: Config, node: Node, w: Option<PersistRequest>,
                 input: Input) returns (g': Ghost)
    requires Inv(g.r) && SentLed(g) && MemberOK(g, net, i, node, w) && ConfigOK(config, i, g.r.members)
    requires forall p :: p in net ==> MsgOK(g, p)
    requires (input.Receive? ==> Outbound(i, input.message) in net) && !input.Restart?
    ensures
      var (node', out) := Step(config, node, input);
      Outcome(Floored(g, i, node, input), g', net, i, node', NextWrite(node, input, out, w), out.send)
    ensures GhostMoves(g, Floored(g, i, node, input), i)
  {
    hide Inv, SentLed, MemberOK, ConfigOK, Outcome, MsgOK, ValidNode, OnPersistCompleted, OnBeginRead, StepIdle,
      GhostMoves, Opened;
    MemberFacts(g, net, i, config, node, w);
    GhostRefl(g, i);
    match input
    case PersistCompleted(token) => g' := DispatchCompleted(g, net, i, config, node, w, token);
    case PersistFailed(token) =>
      g' := g;
      HandleFailed(g, net, i, node, token, w);
    case CancelRead(context) =>
      g' := g;
      HandleCancel(g, net, i, node, context, w);
    case BeginRead(context) => g' := DispatchRead(g, net, i, config, node, w, context);
    case _ => g' := DispatchIdle(g, net, i, config, node, w, input);
  }

  // ---------------------------------------------------------------- one step

  predicate Opens(s: State, l: Label) {
    l.who in s.nodes && l.action.Handle? && Admits(s.nodes[l.who], l.action.input)
  }

  // What a step may do to the history.
  ghost predicate GhostStep(s: State, g: Ghost, g': Ghost, l: Label) {
    GhostMoves(g, g', l.who) &&
    g'.floors == if Opens(s, l) then g.floors[l.who := FloorOf(g.r, s.nodes[l.who].nextRequestId)] else g.floors
  }

  lemma Located(s: State, g: Ghost, i: Id)
    requires SimInv(s, g) && i in s.nodes
    ensures i in s.configs && i in s.writes && ConfigOK(s.configs[i], i, g.r.members)
    ensures MemberOK(g, s.net, i, s.nodes[i], s.writes[i])
  {
    assert NodeOK(s, g, i);
  }

  lemma Finish(s: State, s': State, g: Ghost, h: Ghost, g': Ghost, i: Id, send: seq<Outbound>)
    requires SimInv(s, g) && StepOf(s, s', i) && s'.net == s.net + Sends(send) && GhostMoves(g, h, i)
    requires Outcome(h, g', s.net, i, s'.nodes[i], s'.writes[i], send)
    ensures SimInv(s', g') && GhostMoves(g, g', i)
  {
    hide SimInv, GhostMoves, MemberOK, PacketOK, Inv;
    GhostTrans(g, h, g', i);
    Assemble(s, s', g, g', i);
  }

  lemma StepHandle(s: State, s': State, g: Ghost, i: Id, input: Input) returns (g': Ghost)
    requires SimInv(s, g) && i in s.nodes && i in s.configs && i in s.writes && HandleStep(s, s', i, input)
    ensures SimInv(s', g') && GhostStep(s, g, g', Label(i, Handle(input)))
  {
    hide MemberOK, ConfigOK, Outcome, MsgOK, GhostMoves, Inv, Step, SentLed, NodeOK, Configured, FloorOf;
    Located(s, g, i);
    g' := Dispatch(g, s.net, i, s.configs[i], s.nodes[i], s.writes[i], input);
    var (node, out) := Step(s.configs[i], s.nodes[i], input);
    Finish(s, s', g, Floored(g, i, s.nodes[i], input), g', i, out.send);
    OutcomeFloors(Floored(g, i, s.nodes[i], input), g', s.net, i, node, s'.writes[i], out.send);
  }

  lemma OutcomeFloors(g: Ghost, g': Ghost, net: set<Outbound>, i: Id, node: Node, w: Option<PersistRequest>,
                      send: seq<Outbound>)
    requires Outcome(g, g', net, i, node, w, send)
    ensures g'.floors == g.floors
  {}

  lemma StepCrash(s: State, s': State, g: Ghost, i: Id, d: Durable) returns (g': Ghost)
    requires SimInv(s, g) && i in s.nodes && i in s.configs && i in s.writes && CrashStep(s, s', i, d)
    ensures SimInv(s', g') && GhostStep(s, g, g', Label(i, Crash(d)))
  {
    hide MemberOK, ConfigOK, Outcome, MsgOK, GhostMoves, Inv, SentLed, NodeOK, Configured, Recoverable, Boot;
    Located(s, g, i);
    g' := HandleCrash(g, s.net, i, s.configs[i], s.nodes[i], s.writes[i], d);
    GhostRefl(g, i);
    assert s.net + Sends([]) == s.net;
    Finish(s, s', g, g, g', i, []);
    OutcomeFloors(g, g', s.net, i, s'.nodes[i], None, []);
  }

  // A packet from the host changes nothing at the member.
  lemma StepPacket(s: State, s': State, g: Ghost, i: Id, p: Outbound)
    requires SimInv(s, g) && i in s.nodes && s' == s.(net := s.net + {p}) && PacketOK(g, i, p)
    requires !p.message.AppendReply?
    ensures SimInv(s', g)
  {
    hide SimInv, Inv, Grows, MsgOK, PendingOK, LeaderOK, CandidateOK, DiskOK, PacketOK, ConfigOK, FloorOK;
    Located(s, g, i);
    RaftFacts(s, g);
    GhostRefl(g, i);
    assert s'.nodes == s.nodes[i := s'.nodes[i]];
    assert s'.writes == s.writes[i := s'.writes[i]];
    ReadGrows(g, g, s.net, s'.net, i, i, s.nodes[i]);
    Assemble(s, s', g, g, i);
  }

  lemma RaftFacts(s: State, g: Ghost)
    requires SimInv(s, g)
    ensures Inv(g.r) && g.r.members == s.nodes.Keys
  {
    hide Inv, NodeOK, MsgOK, Configured;
  }

  lemma OfferOK(g: Ghost, net: set<Outbound>, i: Id, node: Node, w: Option<PersistRequest>, peer: Id, ready: bool)
    requires MemberOK(g, net, i, node, w) && node.vol.role == Leader && peer in node.vol.peers
    requires node.vol.peers[peer].snapshotInFlight.Some?
    ensures
      var needed := node.vol.peers[peer].snapshotInFlight.value;
      PacketOK(g, i, Outbound(peer, SnapshotRequest(node.durable.term, i, needed.index, needed.term, needed.requestId,
                                                    ready)))
  {
    hide PendingOK, CandidateOK, DiskOK, ReadOK, ProbeOK, IdsOK, Agree;
    assert ProgressOK(g, i, node.durable.term, peer, node.vol.peers[peer]);
  }

  lemma StepOffer(s: State, s': State, g: Ghost, i: Id, peer: Id, ready: bool)
    requires SimInv(s, g) && i in s.nodes && OfferStep(s, s', i, peer, ready)
    ensures SimInv(s', g)
  {
    hide SimInv, MemberOK, ConfigOK, PacketOK;
    Located(s, g, i);
    var node := s.nodes[i];
    OfferOK(g, s.net, i, node, s.writes[i], peer, ready);
    var needed := node.vol.peers[peer].snapshotInFlight.value;
    StepPacket(s, s', g, i, Outbound(peer, SnapshotRequest(node.durable.term, i, needed.index, needed.term,
                                                           needed.requestId, ready)));
  }

  // Every step can be followed on the protocol's side.
  lemma StepSim(s: State, s': State, g: Ghost, l: Label) returns (g': Ghost)
    requires SimInv(s, g) && Next(s, s', l)
    ensures SimInv(s', g') && GhostStep(s, g, g', l)
  {
    hide SimInv, HandleStep, CrashStep, OfferStep, FloorOf, GhostMoves, Admits;
    GhostRefl(g, l.who);
    match l.action
    case Handle(input) => g' := StepHandle(s, s', g, l.who, input);
    case Crash(d) => g' := StepCrash(s, s', g, l.who, d);
    case Offer(peer, ready) =>
      g' := g;
      StepOffer(s, s', g, l.who, peer, ready);
    case RefuseChunk(leader, id) =>
      g' := g;
      StepPacket(s, s', g, l.who, Outbound(leader, SnapshotReply(s.nodes[l.who].durable.term, l.who, false, 0, id)));
  }

  // ---------------------------------------------------------------- the start

  function Start(s: State): Ghost {
    Ghost(Raft(s.nodes.Keys,
               map i | i in s.nodes :: Disk(s.nodes[i].durable.term, None, [], 0),
               map[], {}, map[], {}, [], 0),
          map[], map[], map[])
  }

  lemma StartInv(s: State)
    ensures Inv(Start(s).r)
  {
    var r := Start(s).r;
    assert r.disks.Keys == r.members;
    forall i | i in r.disks
      ensures DiskCommitted(r, i)
    {
      assert r.disks[i].log[..0] == r.committed[..0];
    }
  }

  lemma StartSim(s: State)
    requires Init(s)
    ensures SimInv(s, Start(s))
  {
    hide Inv, MemberOK, Boot, Start;
    StartInv(s);
    StartMembers(s);
    forall i | i in s.nodes
      ensures NodeOK(s, Start(s), i)
    {
      StartNode(s, i);
    }
  }

  lemma StartMembers(s: State)
    ensures Start(s).r.members == s.nodes.Keys && SentLed(Start(s))
  {}

  lemma StartNode(s: State, i: Id)
    requires Init(s) && i in s.nodes
    ensures i in s.writes && MemberOK(Start(s), s.net, i, s.nodes[i], s.writes[i])
  {
    hide Inv, MemberOK, Boot;
    var d := s.nodes[i].durable;
    assert Blank(d);
    BlankOK(d);
    assert Start(s).r.disks[i] == DiskOf(d, []);
    Booted(Start(s), s.net, i, s.configs[i], d, []);
  }

  lemma BlankOK(d: Durable)
    requires Blank(d)
    ensures ValidDurable(d) && Full(d, []) && d.term >= 1
  {}
}
