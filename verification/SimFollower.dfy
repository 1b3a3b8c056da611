// Steps in which a member answers, adopts a term or stages a write as a follower.
module SimFollower {
  import opened Logs
  import opened Transition
  import opened Local
  import opened Protocol
  import opened ProtocolWrites
  import opened Cluster
  import opened Simulation
  import opened SimRelease
  import opened SimTargets

  // What a step of i must leave behind: node', the write w' in progress and the
  // packets it sends.
  ghost predicate Outcome(g: Ghost, g': Ghost, net: set<Outbound>, i: Id, node': Node, w': Option<PersistRequest>,
                          send: seq<Outbound>)
  {
    GhostMoves(g, g', i) && g'.floors == g.floors && Inv(g'.r) && MemberOK(g', net + Sends(send), i, node', w') &&
    forall p :: p in send ==> PacketOK(g', i, p)
  }

  // A member with no write in progress, ready for input.
  ghost predicate Steady(g: Ghost, net: set<Outbound>, i: Id, node: Node) {
    Inv(g.r) && SentLed(g) && i in g.r.members && MemberOK(g, net, i, node, None) && node.pending.None? && !node.halted
  }

  lemma QuietOutcome(g: Ghost, net: set<Outbound>, i: Id, node: Node, w: Option<PersistRequest>)
    requires Inv(g.r) && MemberOK(g, net, i, node, w)
    ensures Outcome(g, g, net, i, node, w, [])
  {
    hide Inv, MemberOK, Moves;
    MovesRefl(g.r, i);
    assert net + Sends([]) == net;
  }

  // Stepping down leaves only the disk behind.
  lemma DownSteady(g: Ghost, net: set<Outbound>, i: Id, node: Node, effects: Effects)
    requires Steady(g, net, i, node)
    ensures Steady(g, net, i, StepDown(node, effects).0)
    ensures StepDown(node, effects).0.vol.role == Follower && StepDown(node, effects).0.vol.read.None?
    ensures StepDown(node, effects).0.durable == node.durable
  {
    hide Inv, ValidDurable, Advances, DiskRel;
    assert StepDown(node, effects).0.vol.peers.Keys == node.vol.peers.Keys;
  }

  // A reply that what is already on disk justifies goes out at once.
  lemma AnswerOutcome(g: Ghost, net: set<Outbound>, i: Id, node: Node, p: Outbound) returns (g': Ghost)
    requires Steady(g, net, i, node) && AfterOK(g, i, node.durable, g.r.disks[i].log, false, p)
    ensures Outcome(g, g', net, i, node, None, [p])
  {
    hide AfterOK, PendingOK, LeaderOK, CandidateOK, ReadOK, LocalInv, DiskRel, Grows, MsgOK,
      DisksOK, BallotsOK, BallotsCast, VotesOK, ReignsOK, AcksOK, AllSafe, VotesSafe, CommittedOK, DisksCommitted, TopsOK;
    g' := ReleaseOne(g, i, node.durable, false, p);
    assert Sends([p]) == {p};
    AckMember(g, g', net, net + Sends([p]), i, node, None);
  }

  function Request(node: Node, target: Durable, kind: PersistKind): PersistRequest {
    PersistRequest(node.nextToken, target, kind)
  }

  // A follower starts a write.
  lemma StageOutcome(g: Ghost, net: set<Outbound>, i: Id, node: Node, effects: Effects, target: Durable, n: Log,
                     after: seq<Outbound>, kind: PersistKind) returns (g': Ghost)
    requires Steady(g, net, i, node) && node.vol.role == Follower
    requires Local.Target(node.durable, target) && Full(target, n) && CanWrite(g.r, i, DiskOf(target, n))
    requires KindOK(node.durable, g.r.disks[i].log, Request(node, target, kind), n)
    requires forall p :: p in after ==> AfterOK(g, i, target, n, false, p)
    ensures Outcome(g, g', net, i, BeginWrite(node, effects, target, after, [], false, [], kind).0,
                    Some(Request(node, target, kind)), [])
  {
    hide Inv, Full, CanWrite, AfterOK, DiskRel, Advances, ValidDurable, Moves;
    g' := g.(staged := g.staged[i := n]);
    MovesRefl(g.r, i);
    assert net + Sends([]) == net;
    forall p | p in after
      ensures AfterOK(g', i, target, n, false, p)
    {
      AfterStaged(g, g', i, target, n, p);
    }
  }

  lemma AfterStaged(g: Ghost, g': Ghost, i: Id, target: Durable, n: Log, p: Outbound)
    requires AfterOK(g, i, target, n, false, p) && g'.r == g.r && g'.sent == g.sent
    ensures AfterOK(g', i, target, n, false, p)
  {}

  // Reply now or after the write, whichever the target requires.
  lemma AnswerWithOutcome(g: Ghost, net: set<Outbound>, i: Id, node: Node, effects: Effects, target: Durable, n: Log,
                          p: Outbound) returns (g': Ghost)
    requires Steady(g, net, i, node) && node.vol.role == Follower && effects.send == [] && effects.persist == None
    requires Local.Target(node.durable, target) && Full(target, n) && CanWrite(g.r, i, DiskOf(target, n))
    requires target.snapshotIndex == node.durable.snapshotIndex && target.snapshotTerm == node.durable.snapshotTerm
    requires AfterOK(g, i, target, n, false, p) && (target == node.durable ==> n == g.r.disks[i].log)
    ensures
      var (node', out) := AnswerWith(node, effects, target, p);
      Outcome(g, g', net, i, node', out.persist, out.send)
  {
    hide Outcome, Steady, AfterOK, CanWrite, Full, Local.Target;
    if target != node.durable {
      g' := StageOutcome(g, net, i, node, effects, target, n, [p], StateUpdate);
    } else {
      g' := AnswerOutcome(g, net, i, node, p);
      assert [] + [p] == [p];
    }
  }

  // ---------------------------------------------------------------- handlers

  // What every member knows about its own disk.
  lemma SteadyFacts(g: Ghost, net: set<Outbound>, i: Id, node: Node)
    requires Steady(g, net, i, node)
    ensures i in g.r.disks && DiskRel(node.durable, g.r.disks[i]) && ValidDurable(node.durable) && Inv(g.r)
    ensures Full(node.durable, g.r.disks[i].log) && node.durable.term == g.r.disks[i].term
    ensures node.vol.peers.Keys == g.r.members - {i} && Idling(node)
    ensures node.vol.role != Follower ==> node.durable.votedFor == Some(i)
    ensures node.vol.role != Leader ==> node.vol.read.None?
  {
    hide Inv, ValidDurable, Full, Advances;
  }

  lemma HandleDeposed(g: Ghost, net: set<Outbound>, i: Id, node: Node, term: nat) returns (g': Ghost)
    requires Steady(g, net, i, node) && term > node.durable.term
    ensures Outcome(g, g', net, i, Deposed(node, term).0, Deposed(node, term).1.persist, Deposed(node, term).1.send)
  {
    hide Steady, Outcome, Inv, CanWrite, Full, ValidDurable, Advances;
    SteadyFacts(g, net, i, node);
    DownSteady(g, net, i, node, NO_EFFECTS);
    var (down, effects) := StepDown(node, NO_EFFECTS);
    TargetAdopt(node.durable, term);
    CanAdopt(g.r, i, node.durable, term);
    g' := StageOutcome(g, net, i, down, effects, AdoptTerm(node.durable, term), g.r.disks[i].log, [], StateUpdate);
  }

  lemma HandleRequestVote(g: Ghost, net: set<Outbound>, i: Id, config: Config, node: Node, m: Message)
    returns (g': Ghost)
    requires Steady(g, net, i, node) && m.RequestVote? && MsgOK(g, Outbound(i, m)) && config.self == i
    ensures
      var (node', out) := OnRequestVote(config, node, m);
      Outcome(g, g', net, i, node', out.persist, out.send)
  {
    hide Steady, Outcome, Inv, CanWrite, Full, ValidDurable, Advances, MsgOK;
    SteadyFacts(g, net, i, node);
    if !KnownPeer(node, m.candidate) || m.term == 0 || m.lastTerm > m.term ||
       ((m.lastIndex == 0) != (m.lastTerm == 0)) {
      g' := g;
      QuietSteady(g, net, i, node);
    } else if m.term < node.durable.term {
      var reply := Outbound(m.candidate, VoteReply(node.durable.term, i, false, m.requestId));
      g' := AnswerOutcome(g, net, i, node, reply);
      assert [] + [reply] == [reply];
    } else if m.term == node.durable.term && node.vol.role != Follower {
      var reply := Outbound(m.candidate, VoteReply(node.durable.term, i, false, m.requestId));
      g' := AnswerOutcome(g, net, i, node, reply);
      assert [] + [reply] == [reply];
    } else {
      DownSteady(g, net, i, node, NO_EFFECTS);
      var (down, effects) := if m.term > node.durable.term then StepDown(node, NO_EFFECTS) else Quiet(node);
      g' := CastVote(g, net, i, down, effects, m);
    }
  }

  lemma QuietSteady(g: Ghost, net: set<Outbound>, i: Id, node: Node)
    requires Steady(g, net, i, node)
    ensures Outcome(g, g, net, i, node, None, [])
  {
    hide Outcome, Inv, MemberOK;
    QuietOutcome(g, net, i, node, None);
  }

  lemma CastVote(g: Ghost, net: set<Outbound>, i: Id, node: Node, effects: Effects, m: Message) returns (g': Ghost)
    requires Steady(g, net, i, node) && node.vol.role == Follower && effects.send == [] && effects.persist == None
    requires m.RequestVote? && MsgOK(g, Outbound(i, m)) && m.term >= node.durable.term
    ensures
      var adopted := AdoptTerm(node.durable, m.term);
      var grant := (adopted.votedFor == None || adopted.votedFor == Some(m.candidate)) &&
                   UpToDate(adopted, m.lastTerm, m.lastIndex);
      var target := if grant then adopted.(votedFor := Some(m.candidate)) else adopted;
      var (node', out) := AnswerWith(node, effects, target,
                                     Outbound(m.candidate, VoteReply(target.term, i, grant, m.requestId)));
      Outcome(g, g', net, i, node', out.persist, out.send)
  {
    hide Steady, Outcome, Inv, CanWrite, Full, ValidDurable, Advances, MsgOK, AnswerWith;
    SteadyFacts(g, net, i, node);
    var adopted := AdoptTerm(node.durable, m.term);
    var grant := (adopted.votedFor == None || adopted.votedFor == Some(m.candidate)) &&
                 UpToDate(adopted, m.lastTerm, m.lastIndex);
    var target := if grant then adopted.(votedFor := Some(m.candidate)) else adopted;
    var reply := Outbound(m.candidate, VoteReply(target.term, i, grant, m.requestId));
    if grant {
      TargetVote(node.durable, m.term, m.candidate);
      CanVote(g, i, node.durable, m);
    } else {
      TargetAdopt(node.durable, m.term);
      CanAdopt(g.r, i, node.durable, m.term);
    }
    g' := AnswerWithOutcome(g, net, i, node, effects, target, g.r.disks[i].log, reply);
  }

  lemma HandleAppend(g: Ghost, net: set<Outbound>, i: Id, config: Config, node: Node, m: Message) returns (g': Ghost)
    requires Steady(g, net, i, node) && m.AppendEntries? && MsgOK(g, Outbound(i, m)) && config.self == i
    ensures
      var (node', out) := OnAppend(config, node, m);
      Outcome(g, g', net, i, node', out.persist, out.send)
  {
    hide Steady, Outcome, Inv, CanWrite, Full, ValidDurable, Advances, MsgOK, EntriesAcceptable, Merge, AnswerWith;
    SteadyFacts(g, net, i, node);
    if !AppendAcceptable(node, m) {
      g' := g;
      QuietSteady(g, net, i, node);
    } else if m.term < node.durable.term {
      var reply := Outbound(m.leader, AppendReply(node.durable.term, i, false, LastIndex(node.durable), m.requestId, 0));
      g' := AnswerOutcome(g, net, i, node, reply);
      assert [] + [reply] == [reply];
    } else {
      DownSteady(g, net, i, node, NO_EFFECTS);
      var (down, effects) := StepDown(node, NO_EFFECTS);
      AppendMessage(g, i, m);
      var adopted := AdoptTerm(node.durable, m.term);
      if DurableTermAt(adopted, m.prevIndex) != Some(m.prevTerm) {
        g' := Reject(g, net, i, down, effects, m, MissHint(adopted, m));
      } else if m.prevIndex + |m.entries| - adopted.snapshotIndex > MAX_ENTRIES {
        g' := CatchUp(g, net, i, down, effects.(capacityExhausted := true), m);
      } else if !Merge(adopted.log, adopted.snapshotIndex, adopted.commit, m.prevIndex, m.entries).ok {
        g' := Reject(g, net, i, down, effects, m, adopted.commit);
      } else {
        g' := Accept(g, net, i, node, effects, m);
      }
    }
  }

  lemma AppendMessage(g: Ghost, i: Id, m: Message)
    requires m.AppendEntries? && MsgOK(g, Outbound(i, m))
    ensures AppendOK(g, m)
  {}

  // A refused append can still bring a later term.
  lemma Reject(g: Ghost, net: set<Outbound>, i: Id, node: Node, effects: Effects, m: Message, hint: nat)
    returns (g': Ghost)
    requires Steady(g, net, i, node) && node.vol.role == Follower && effects.send == [] && effects.persist == None
    requires m.AppendEntries? && m.term >= node.durable.term
    ensures
      var adopted := AdoptTerm(node.durable, m.term);
      var (node', out) := AnswerWith(node, effects, adopted,
                                     Outbound(m.leader, AppendReply(adopted.term, i, false, hint, m.requestId, 0)));
      Outcome(g, g', net, i, node', out.persist, out.send)
  {
    hide Steady, Outcome, Inv, CanWrite, Full, ValidDurable, Advances, AnswerWith;
    SteadyFacts(g, net, i, node);
    var adopted := AdoptTerm(node.durable, m.term);
    TargetAdopt(node.durable, m.term);
    CanAdopt(g.r, i, node.durable, m.term);
    g' := AnswerWithOutcome(g, net, i, node, effects, adopted, g.r.disks[i].log,
                            Outbound(m.leader, AppendReply(adopted.term, i, false, hint, m.requestId, 0)));
  }

  lemma CatchUp(g: Ghost, net: set<Outbound>, i: Id, node: Node, effects: Effects, m: Message) returns (g': Ghost)
    requires Steady(g, net, i, node) && node.vol.role == Follower && effects.send == [] && effects.persist == None
    requires m.AppendEntries? && m.term >= node.durable.term && AppendOK(g, m)
    requires DurableTermAt(AdoptTerm(node.durable, m.term), m.prevIndex) == Some(m.prevTerm)
    ensures
      var adopted := AdoptTerm(node.durable, m.term);
      var (node', out) := AnswerWith(node, effects,
        adopted.(commit := Max(adopted.commit, Min(m.leaderCommit, m.prevIndex))),
        Outbound(m.leader, AppendReply(adopted.term, i, false, LastIndex(adopted), m.requestId, 0)));
      Outcome(g, g', net, i, node', out.persist, out.send)
  {
    hide Steady, Outcome, Inv, CanWrite, Full, ValidDurable, Advances, AnswerWith;
    SteadyFacts(g, net, i, node);
    var adopted := AdoptTerm(node.durable, m.term);
    LocalAppendFull(node.durable, m);
    CanCatchUp(g, i, node.durable, m);
    g' := AnswerWithOutcome(g, net, i, node, effects,
                            adopted.(commit := Max(adopted.commit, Min(m.leaderCommit, m.prevIndex))), g.r.disks[i].log,
                            Outbound(m.leader, AppendReply(adopted.term, i, false, LastIndex(adopted), m.requestId, 0)));
  }

  lemma Accept(g: Ghost, net: set<Outbound>, i: Id, node: Node, effects: Effects, m: Message) returns (g': Ghost)
    requires Steady(g, net, i, node) && m.AppendEntries? && m.term >= node.durable.term && AppendOK(g, m)
    requires AppendAcceptable(node, m) && effects == StepDown(node, NO_EFFECTS).1
    requires
      var d := AdoptTerm(node.durable, m.term);
      DurableTermAt(d, m.prevIndex) == Some(m.prevTerm) &&
      m.prevIndex + |m.entries| - d.snapshotIndex <= MAX_ENTRIES &&
      Merge(d.log, d.snapshotIndex, d.commit, m.prevIndex, m.entries).ok
    ensures
      var d := AdoptTerm(node.durable, m.term);
      var covered := m.prevIndex + |m.entries|;
      var (node', out) := AnswerWith(StepDown(node, NO_EFFECTS).0, effects,
        d.(log := Merge(d.log, d.snapshotIndex, d.commit, m.prevIndex, m.entries).log,
           commit := Max(d.commit, Min(m.leaderCommit, covered))),
        Outbound(m.leader, AppendReply(d.term, i, true, LastIndex(d), m.requestId, covered)));
      Outcome(g, g', net, i, node', out.persist, out.send)
  {
    hide Steady, Outcome, Inv, CanWrite, Full, ValidDurable, Advances, AnswerWith, EntriesAcceptable, Merge, FollowLog,
      Agree;
    SteadyFacts(g, net, i, node);
    DownSteady(g, net, i, node, NO_EFFECTS);
    var down := StepDown(node, NO_EFFECTS).0;
    var d := AdoptTerm(node.durable, m.term);
    var covered := m.prevIndex + |m.entries|;
    LocalAppendHit(node, m);
    CanAppend(g, i, node.durable, m);
    var n := FollowLog(g.r.disks[i].log, g.r.lead[m.term].log, covered);
    var target := d.(log := Merge(d.log, d.snapshotIndex, d.commit, m.prevIndex, m.entries).log,
                     commit := Max(d.commit, Min(m.leaderCommit, covered)));
    PrevAgrees(g, i, node.durable, m);
    AgreeShorter(g.r.disks[i].log, g.r.lead[m.term].log, m.prevIndex, d.snapshotIndex);
    if target == node.durable {
      SameFull(target, n, g.r.disks[i].log, g.r.lead[m.term].log, covered);
    }
    g' := AnswerWithOutcome(g, net, i, down, effects, target, n,
                            Outbound(m.leader, AppendReply(d.term, i, true, LastIndex(d), m.requestId, covered)));
  }

  // An append that leaves the retained log alone leaves the full log alone.
  lemma SameFull(d: Durable, n: Log, l: Log, lead: Log, end: nat)
    requires end <= |lead| && n == FollowLog(l, lead, end) && Full(d, n) && Full(d, l) && d.snapshotIndex <= end
    requires Agree(l, lead, d.snapshotIndex)
    ensures n == l
  {
    assert n[..d.snapshotIndex] == l[..d.snapshotIndex];
    assert n == n[..d.snapshotIndex] + n[d.snapshotIndex..];
    assert l == l[..d.snapshotIndex] + l[d.snapshotIndex..];
  }

  // ---------------------------------------------------------------- snapshots

  lemma HandleSnapshot(g: Ghost, net: set<Outbound>, i: Id, config: Config, node: Node, m: Message) returns (g': Ghost)
    requires Steady(g, net, i, node) && m.SnapshotRequest? && MsgOK(g, Outbound(i, m)) && config.self == i
    requires ValidDurable(node.durable)
    ensures
      var (node', out) := OnSnapshot(config, node, m);
      Outcome(g, g', net, i, node', out.persist, out.send)
  {
    hide Steady, Outcome, Inv, CanWrite, Full, ValidTerms, Advances, MsgOK;
    SteadyFacts(g, net, i, node);
    if !SnapshotAcceptable(node, m) {
      g' := g;
      QuietSteady(g, net, i, node);
    } else if m.term < node.durable.term {
      var reply := Outbound(m.leader, SnapshotReply(node.durable.term, i, false, 0, m.requestId));
      g' := AnswerOutcome(g, net, i, node, reply);
      assert [] + [reply] == [reply];
    } else {
      DownSteady(g, net, i, node, NO_EFFECTS);
      var (down, effects) := StepDown(node, NO_EFFECTS);
      SnapshotMessage(g, i, m);
      if !m.ready {
        g' := Hear(g, net, i, down, effects, m.term);
      } else if m.index > AdoptTerm(node.durable, m.term).commit {
        g' := Install(g, net, i, down, effects, m);
      } else {
        g' := Confirm(g, net, i, down, effects, m);
      }
    }
  }

  lemma SnapshotMessage(g: Ghost, i: Id, m: Message)
    requires m.SnapshotRequest? && MsgOK(g, Outbound(i, m))
    ensures BoundaryOK(g.r, m.term, m.index, m.snapshotTerm)
  {}

  // An incomplete transfer only establishes the sender's term.
  lemma Hear(g: Ghost, net: set<Outbound>, i: Id, node: Node, effects: Effects, term: nat) returns (g': Ghost)
    requires Steady(g, net, i, node) && node.vol.role == Follower && effects.send == [] && effects.persist == None
    requires term >= node.durable.term
    ensures
      var adopted := AdoptTerm(node.durable, term);
      var (node', out) := if adopted != node.durable then Stage(node, effects, adopted, []) else (node, effects);
      Outcome(g, g', net, i, node', out.persist, out.send)
  {
    hide Steady, Outcome, Inv, CanWrite, Full, ValidDurable, Advances;
    SteadyFacts(g, net, i, node);
    if AdoptTerm(node.durable, term) != node.durable {
      TargetAdopt(node.durable, term);
      CanAdopt(g.r, i, node.durable, term);
      g' := StageOutcome(g, net, i, node, effects, AdoptTerm(node.durable, term), g.r.disks[i].log, [], StateUpdate);
    } else {
      g' := g;
      QuietSteady(g, net, i, node);
    }
  }

  lemma Install(g: Ghost, net: set<Outbound>, i: Id, node: Node, effects: Effects, m: Message) returns (g': Ghost)
    requires Steady(g, net, i, node) && node.vol.role == Follower && effects.send == [] && effects.persist == None
    requires m.SnapshotRequest? && m.term >= node.durable.term && BoundaryOK(g.r, m.term, m.index, m.snapshotTerm)
    requires ValidDurable(node.durable) && node.durable.commit < m.index < MAX_U64 && 0 < m.snapshotTerm <= m.term
    ensures
      var target := InstallTarget(AdoptTerm(node.durable, m.term), m.index, m.snapshotTerm);
      var reply := Outbound(m.leader, SnapshotReply(target.term, i, true, m.index, m.requestId));
      var (node', out) := BeginWrite(node, effects, target, [reply], [], false, [], SnapshotInstall);
      Outcome(g, g', net, i, node', out.persist, out.send)
  {
    hide Steady, Outcome, Inv, CanWrite, Full, ValidTerms, Advances, FollowLog;
    SteadyFacts(g, net, i, node);
    InstallOver(node.durable, m);
    CanInstall(g, i, node.durable, m);
    var target := InstallTarget(AdoptTerm(node.durable, m.term), m.index, m.snapshotTerm);
    var n := FollowLog(g.r.disks[i].log, g.r.lead[m.term].log, m.index);
    var reply := Outbound(m.leader, SnapshotReply(target.term, i, true, m.index, m.requestId));
    g' := StageOutcome(g, net, i, node, effects, target, n, [reply], SnapshotInstall);
  }

  // The boundary is already committed here: only its term is compared.
  lemma Confirm(g: Ghost, net: set<Outbound>, i: Id, node: Node, effects: Effects, m: Message) returns (g': Ghost)
    requires Steady(g, net, i, node) && node.vol.role == Follower && effects.send == [] && effects.persist == None
    requires m.SnapshotRequest? && m.index <= node.durable.commit
    requires m.term >= node.durable.term && BoundaryOK(g.r, m.term, m.index, m.snapshotTerm)
    ensures
      var target := AdoptTerm(node.durable, m.term);
      var success := DurableTermAt(target, m.index) == Some(m.snapshotTerm);
      var reply := Outbound(m.leader, SnapshotReply(target.term, i, success, if success then m.index else 0, m.requestId));
      var (node', out) := if target != node.durable
                          then BeginWrite(node, effects, target, [reply], [], false, [], StateUpdate)
                          else Answer(node, effects, reply);
      Outcome(g, g', net, i, node', out.persist, out.send)
  {
    hide Steady, Outcome, Inv, CanWrite, Full, ValidDurable, Advances, Agree;
    SteadyFacts(g, net, i, node);
    var target := AdoptTerm(node.durable, m.term);
    var success := DurableTermAt(target, m.index) == Some(m.snapshotTerm);
    var reply := Outbound(m.leader, SnapshotReply(target.term, i, success, if success then m.index else 0, m.requestId));
    TargetAdopt(node.durable, m.term);
    CanAdopt(g.r, i, node.durable, m.term);
    if success {
      BoundaryAgrees(g, i, node.durable, m);
    }
    g' := AnswerWithOutcome(g, net, i, node, effects, target, g.r.disks[i].log, reply);
  }
}
