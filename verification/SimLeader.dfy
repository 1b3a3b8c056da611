// Steps of a leader: probing, answering reads, recording replies, appending
// entries of its own and advancing the commit index.
module SimLeader {
  import opened Logs
  import opened Transition
  import opened Local
  import opened Protocol
  import opened ProtocolEvents
  import opened ProtocolWrites
  import opened Cluster
  import opened Simulation
  import opened SimRelease
  import opened SimTargets
  import opened SimFollower
  import opened SimSend

  // ---------------------------------------------------------------- probing

  lemma LeaderFacts(g: Ghost, net: set<Outbound>, i: Id, node: Node)
    requires Steady(g, net, i, node) && node.vol.role == Leader
    ensures LeadsWith(g, i, node.durable.term, node.durable)
    ensures Reigns(g, i, node.durable.term, g.r.disks[i].log)
    ensures g.r.lead[node.durable.term].top == node.durable.commit
    ensures PeersOK(g, i, node.durable.term, node.vol.peers) && IdsOK(g, i, node.durable.term, node.nextRequestId)
    ensures Numbered(g, i, node)
  {
    hide Inv, Full, Agree, ValidTerms, Advances, ProgressOK;
    DiskFacts(g.r, i);
  }

  // Probing changes what peers and the read round wait for, nothing else.
  lemma Probed(g: Ghost, g': Ghost, net: set<Outbound>, i: Id, node: Node, s: Sending)
    requires Steady(g, net, i, node) && node.vol.role == Leader && SendGrows(g, g', i)
    requires SendOK(g', i, node.durable.term, s) && SameDisk(node, s.node) && SameRead(node.vol.read, s.node.vol.read)
    ensures Outcome(g, g', net, i, s.node, None, s.out)
  {
    hide Inv, Grows, MsgOK, AppendOK, ProgressOK, DiskRel, ValidDurable, Advances;
    ProbePackets(g', i, s.out);
    ProbedRead(g, g', net, i, node, s);
  }

  lemma ProbePackets(g: Ghost, i: Id, out: seq<Outbound>)
    requires Probes(g, out)
    ensures forall p :: p in out ==> PacketOK(g, i, p)
  {}

  lemma ProbedRead(g: Ghost, g': Ghost, net: set<Outbound>, i: Id, node: Node, s: Sending)
    requires ReadOK(g, net, i, node) && SendGrows(g, g', i) && Probes(g', s.out)
    requires SameDisk(node, s.node) && SameRead(node.vol.read, s.node.vol.read) && Numbered(g', i, s.node)
    ensures ReadOK(g', net + Sends(s.out), i, s.node)
  {}

  lemma HandleHeartbeat(g: Ghost, net: set<Outbound>, i: Id, config: Config, node: Node) returns (g': Ghost)
    requires Steady(g, net, i, node) && config.self == i
    ensures
      var (node', out) := OnHeartbeat(config, node);
      Outcome(g, g', net, i, node', out.persist, out.send)
  {
    hide Steady, Outcome, LeadsWith, SendOK, SendGrows, BeatAll, PeersOK, IdsOK, Numbered;
    if node.vol.role != Leader {
      g' := g;
      QuietSteady(g, net, i, node);
    } else {
      LeaderFacts(g, net, i, node);
      var s := Sending(node, [], []);
      StartSending(g, i, node.durable.term, node);
      g' := BeatMany(config, g, i, node.durable.term, s, Sorted(config.peers));
      BeatAllFrame(config, s, Sorted(config.peers));
      Probed(g, g', net, i, node, BeatAll(config, s, Sorted(config.peers)));
    }
  }

  lemma StartSending(g: Ghost, i: Id, t: nat, node: Node)
    requires PeersOK(g, i, t, node.vol.peers) && IdsOK(g, i, t, node.nextRequestId) && Numbered(g, i, node)
    ensures SendOK(g, i, t, Sending(node, [], []))
  {}

  // ---------------------------------------------------------------- reads

  // Completing a read only forgets it.
  lemma ReadDone(g: Ghost, g': Ghost, net: set<Outbound>, i: Id, config: Config, node: Node, effects: Effects,
                 w: Option<PersistRequest>, send: seq<Outbound>)
    requires Outcome(g, g', net, i, node, w, send)
    ensures Outcome(g, g', net, i, CompleteRead(config, node, effects).0, w, send)
    ensures CompleteRead(config, node, effects).1.send == effects.send
    ensures CompleteRead(config, node, effects).1.persist == effects.persist
  {
    hide Inv, DiskRel, ValidDurable, Advances, AfterOK, WriteOK, ProgressOK, FloorOK, FreshReplies, PacketOK, Stands;
  }

  // A commit index beyond what the leader of t knows means a quorum has left t.
  lemma CommitBeyond(r: Raft, t: nat, index: nat, k: Id) returns (q: set<Id>)
    requires Inv(r) && Own(r, t, index) && r.lead[t].top == index && k in r.disks && r.disks[k].commit > index
    ensures Quorum(r.members, q) && forall e :: e in q ==> e in r.disks && r.disks[e].term > t
  {
    hide DisksOK, BallotsOK, BallotsCast, VotesSafe, VotesOK, AcksOK, CommittedOK, LogOK, Agree, AllSafe, Chosen, Own,
      ReignOK;
    var c := r.disks[k].commit;
    assert DiskCommitted(r, k);
    var u: nat :| u <= r.disks[k].term && Sourced(r, u, c);
    if u < t {
      var s: nat, n: nat :| ChosenFrom(r, s, n, u, r.lead[u].top);
      EarlierChosen(r, s, t, n, index);
    }
    q := LaterElectors(r, u);
  }

  // A prefix chosen before t ends below t's own entries.
  lemma EarlierChosen(r: Raft, s: nat, t: nat, n: nat, index: nat)
    requires Inv(r) && Own(r, s, n) && Chosen(r, s, n) && s < t && Own(r, t, index)
    ensures n < index
  {
    hide DisksOK, BallotsOK, BallotsCast, VotesSafe, VotesOK, AcksOK, CommittedOK, LogOK, Agree, ReignsOK, Chosen;
    ChosenNotDead(r, s, n);
    assert SafeAt(r, s, t, n);
    EarlierTerms(r, s, t, n, index);
  }

  // Whoever elected the leader of u has reached u.
  lemma LaterElectors(r: Raft, u: nat) returns (q: set<Id>)
    requires Inv(r) && u in r.lead
    ensures Quorum(r.members, q) && forall e :: e in q ==> e in r.disks && r.disks[e].term >= u
  {
    hide DisksOK, BallotsOK, BallotsCast, VotesSafe, AcksOK, CommittedOK, LogOK, Agree, AllSafe, Quorum;
    assert ReignOK(r, u);
    q := r.lead[u].electors;
    forall e | e in q
      ensures e in r.disks && r.disks[e].term >= u
    {
      assert VoteOK(r, Vote(u, e, r.lead[u].owner));
    }
  }

  // A leader log has no entry of a later term.
  lemma EarlierTerms(r: Raft, s: nat, t: nat, n: nat, index: nat)
    requires ReignsOK(r) && s in r.lead && s < t && Own(r, t, index) && Agree(r.lead[t].log, r.lead[s].log, n)
    ensures n < index
  {
    assert ReignOK(r, s);
    if index <= n {
      AgreeEntry(r.lead[t].log, r.lead[s].log, n, index - 1);
    }
  }

  function FloorOf(r: Raft, from: nat): ReadFloor {
    ReadFloor(from, map k | k in r.disks :: r.disks[k].commit, map k | k in r.disks :: r.disks[k].term)
  }

  lemma FloorAdmits(r: Raft, i: Id, context: nat, t: nat, index: nat, from: nat)
    requires Inv(r) && i in r.disks && r.disks[i].term == t && Own(r, t, index) && r.lead[t].top == index
    ensures FloorOK(r, ReadBarrier(context, t, index, {i}, map[]), FloorOf(r, from))
  {
    hide BallotsOK, BallotsCast, VotesOK, ReignsOK, AcksOK, AllSafe, VotesSafe, CommittedOK, DisksCommitted, TopsOK, Own;
    var f := FloorOf(r, from);
    forall k | k in f.commits && f.commits[k] > index
      ensures exists q :: Outvoted(r.members, f, t, q)
    {
      var q := CommitBeyond(r, t, index, k);
      assert Outvoted(r.members, f, t, q);
    }
  }

  lemma EarlyReply(g: Ghost, i: Id, t: nat, from: nat, p: Outbound)
    requires IdsOK(g, i, t, from) && p.to == i && MsgOK(g, p)
    ensures !Confirms(p.message, t, from)
  {}

  // No reply on the network answers a request that has not been issued yet.
  lemma NoEarlyReplies(g: Ghost, net: set<Outbound>, i: Id, t: nat, f: ReadFloor)
    requires IdsOK(g, i, t, f.from) && forall p :: p in net ==> MsgOK(g, p)
    ensures FreshReplies(net, i, t, f)
  {
    hide MsgOK, Confirms;
    forall p | p in net && p.to == i
      ensures !Confirms(p.message, t, f.from)
    {
      EarlyReply(g, i, t, f.from, p);
    }
  }

  // The leader's commit index carries an entry of its own term.
  lemma AdmitsOwn(g: Ghost, net: set<Outbound>, i: Id, node: Node)
    requires Steady(g, net, i, node) && ReadAdmissible(node)
    ensures Own(g.r, node.durable.term, node.durable.commit)
  {
    hide Inv, Agree, Advances, PeersOK, IdsOK, Numbered;
    LeaderFacts(g, net, i, node);
    SteadyFacts(g, net, i, node);
    FullTermAt(node.durable, g.r.disks[i].log, node.durable.commit);
  }

  // A read is admitted now.
  function Opened(g: Ghost, i: Id, node: Node): Ghost {
    g.(floors := g.floors[i := FloorOf(g.r, node.nextRequestId)])
  }

  lemma Admitted(g: Ghost, net: set<Outbound>, i: Id, config: Config, node: Node, context: nat)
    requires Steady(g, net, i, node) && ReadAdmissible(node) && config.self == i
    requires forall p :: p in net ==> MsgOK(g, p)
    ensures Steady(Opened(g, i, node), net, i, AdmitRead(config, node, context)) && GhostMoves(g, Opened(g, i, node), i)
  {
    hide Inv, Grows, MsgOK, AppendOK, ProgressOK, DiskRel, ValidDurable, Advances, FloorOK, FreshReplies, Own;
    var g' := Opened(g, i, node);
    AdmitsOwn(g, net, i, node);
    LeaderFacts(g, net, i, node);
    SteadyFacts(g, net, i, node);
    GrowsRefl(g.r);
    var t := node.durable.term;
    FloorAdmits(g.r, i, context, t, node.durable.commit, node.nextRequestId);
    NoEarlyReplies(g, net, i, t, FloorOf(g.r, node.nextRequestId));
    FloorFrame(g, g', i, t, node.vol.peers);
  }

  lemma FloorFrame(g: Ghost, g': Ghost, i: Id, t: nat, peers: map<Id, PeerProgress>)
    requires PeersOK(g, i, t, peers) && g'.r == g.r && g'.sent == g.sent
    ensures PeersOK(g', i, t, peers)
  {
    GrowsRefl(g.r);
    PeersStable(g, g', i, t, peers);
  }

  lemma HandleBeginRead(g: Ghost, net: set<Outbound>, i: Id, config: Config, node: Node, context: nat)
    returns (g': Ghost)
    requires Steady(g, net, i, node) && ReadAdmissible(node) && config.self == i
    requires forall p :: p in net ==> MsgOK(g, p)
    ensures
      var (node', out) := OnBeginRead(config, node, context);
      Outcome(Opened(g, i, node), g', net, i, node', out.persist, out.send)
    ensures GhostMoves(g, Opened(g, i, node), i)
  {
    hide Steady, Outcome, LeadsWith, SendOK, SendAll, PeersOK, IdsOK, Numbered, MsgOK, CompleteRead, GhostMoves, Opened;
    Admitted(g, net, i, config, node, context);
    var h := Opened(g, i, node);
    var admitted := AdmitRead(config, node, context);
    LeaderFacts(h, net, i, admitted);
    var s := Sending(admitted, [], []);
    StartSending(h, i, node.durable.term, admitted);
    g' := SendMany(config, h, i, node.durable.term, node.durable, s, config.peers);
    SendAllFrame(config, s, node.durable, config.peers);
    var t := SendAll(config, s, node.durable, config.peers);
    Probed(h, g', net, i, admitted, t);
    ReadDone(h, g', net, i, config, t.node, NO_EFFECTS.(send := t.out, snapshotNeeded := t.snapshots), None, t.out);
  }

  lemma OutcomeAfter(g: Ghost, h: Ghost, g': Ghost, net: set<Outbound>, i: Id, node: Node, w: Option<PersistRequest>,
                     send: seq<Outbound>)
    requires GhostMoves(g, h, i) && h.floors == g.floors && Outcome(h, g', net, i, node, w, send)
    ensures Outcome(g, g', net, i, node, w, send)
  {
    hide GhostMoves, Inv, MemberOK, PacketOK;
    GhostTrans(g, h, g', i);
  }

  // ---------------------------------------------------------------- replies

  // The leader's view of one peer changes.
  lemma Progressed(g: Ghost, net: set<Outbound>, i: Id, node: Node, peer: Id, progress: PeerProgress)
    requires Steady(g, net, i, node) && node.vol.role == Leader && peer in node.vol.peers
    requires ProgressOK(g, i, node.durable.term, peer, progress)
    ensures Steady(g, net, i, SetProgress(node, peer, progress))
  {
    hide Inv, DiskRel, ValidDurable, Advances, ProgressOK, FloorOK, FreshReplies;
    assert SetProgress(node, peer, progress).vol.peers.Keys == node.vol.peers.Keys;
  }

  lemma HandleSnapshotReply(g: Ghost, net: set<Outbound>, i: Id, node: Node, m: Message) returns (g': Ghost)
    requires Steady(g, net, i, node) && m.SnapshotReply? && MsgOK(g, Outbound(i, m))
    ensures
      var (node', out) := OnSnapshotReply(node, m);
      Outcome(g, g', net, i, node', out.persist, out.send)
  {
    hide Steady, Outcome, LeadsWith, IdsOK, Numbered, ProbeOK, BoundaryOK;
    g' := g;
    if KnownPeer(node, m.follower) && m.term > node.durable.term {
      g' := HandleDeposed(g, net, i, node, m.term);
    } else {
      var node' := OnSnapshotReply(node, m).0;
      if node' != node {
        LeaderFacts(g, net, i, node);
        assert ProgressOK(g, i, m.term, m.follower, node.vol.peers[m.follower]);
        Progressed(g, net, i, node, m.follower, node'.vol.peers[m.follower]);
      }
      QuietSteady(g, net, i, node');
    }
  }

  // A confirmed probe counts for the read that was open when it was issued.
  lemma ReadAcked(g: Ghost, net: set<Outbound>, i: Id, node: Node, m: Message, probe: Probe)
    requires Steady(g, net, i, node) && node.vol.role == Leader && m.AppendReply? && m.success
    requires Outbound(i, m) in net && m.term == node.durable.term && m.follower in node.vol.peers
    ensures Steady(g, net, i, NoteReadAck(node, m, probe))
    ensures NoteReadAck(node, m, probe).vol.peers == node.vol.peers
  {
    hide Inv, DiskRel, ValidDurable, Advances, ProgressOK;
    if NoteReadAck(node, m, probe) != node {
      assert Confirms(m, node.durable.term, g.floors[i].from);
      ReadAckedFloor(g, net, i, node, m);
    }
  }

  lemma ReadAckedFloor(g: Ghost, net: set<Outbound>, i: Id, node: Node, m: Message)
    requires ReadOK(g, net, i, node) && node.vol.read.Some? && m.AppendReply? && m.follower in g.r.members
    requires Outbound(i, m) in net && Confirms(m, node.durable.term, g.floors[i].from)
    ensures
      var read := node.vol.read.value;
      FloorOK(g.r, read.(acknowledgements := read.acknowledgements + {m.follower}), g.floors[i])
  {}

  // A successful reply moves the match to what the request covered.
  lemma AnsweredOK(g: Ghost, i: Id, t: nat, progress: PeerProgress, m: Message)
    requires m.AppendReply? && m.term == t && MsgOK(g, Outbound(i, m)) && ProgressOK(g, i, t, m.follower, progress)
    requires progress.inFlight.Some? && progress.inFlight.value.requestId == m.requestId
    ensures ProgressOK(g, i, t, m.follower, Answered(progress, m, progress.inFlight.value))
  {
    hide BoundaryOK, Agree;
  }

  lemma HandleAppendReply(g: Ghost, net: set<Outbound>, i: Id, config: Config, node: Node, m: Message)
    returns (g': Ghost)
    requires Steady(g, net, i, node) && m.AppendReply? && MsgOK(g, Outbound(i, m)) && Outbound(i, m) in net
    ensures
      var (node', out) := OnAppendReply(config, node, m);
      Outcome(g, g', net, i, node', out.persist, out.send)
  {
    hide Steady, Outcome, LeadsWith, IdsOK, Numbered, ProgressOK, MsgOK, NoteReadAck, Answered, CompleteRead;
    g' := g;
    if KnownPeer(node, m.follower) && m.term > node.durable.term {
      g' := HandleDeposed(g, net, i, node, m.term);
      var (staged, effects) := Deposed(node, m.term);
      ReadDone(g, g', net, i, config, staged, effects, effects.persist, effects.send);
    } else {
      QuietSteady(g, net, i, node);
      if ReplyMatches(node, m) {
        LeaderFacts(g, net, i, node);
        var progress := node.vol.peers[m.follower];
        var probe := progress.inFlight.value;
        AnsweredOK(g, i, m.term, progress, m);
        var noted := if m.success then NoteReadAck(node, m, probe) else node;
        if m.success {
          ReadAcked(g, net, i, node, m, probe);
        }
        NoteFrame(node, m, probe);
        Progressed(g, net, i, noted, m.follower, Answered(progress, m, probe));
        var node' := SetProgress(noted, m.follower, Answered(progress, m, probe));
        QuietSteady(g, net, i, node');
        ReadDone(g, g, net, i, config, node', NO_EFFECTS, None, []);
      } else {
        ReadDone(g, g, net, i, config, node, NO_EFFECTS, None, []);
      }
    }
  }

  lemma NoteFrame(node: Node, m: Message, probe: Probe)
    requires m.AppendReply?
    ensures SameDisk(node, NoteReadAck(node, m, probe))
  {}

  // ---------------------------------------------------------------- own entries

  function Extended(g: Ghost, t: nat, e: Entry): Ghost
    requires t in g.r.lead
  {
    g.(r := Extend(g.r, t, e))
  }

  lemma ExtendedOK(g: Ghost, i: Id, t: nat, e: Entry)
    requires Inv(g.r) && t in g.r.lead && g.r.lead[t].owner == i && e.term == t
    ensures Inv(Extended(g, t, e).r) && GhostMoves(g, Extended(g, t, e), i)
  {
    hide Inv, Grows;
    ExtendKeeps(g.r, t, e);
  }

  // The longer log is still an image of the leader's log.
  lemma GrownLeads(g: Ghost, i: Id, t: nat, d: Durable, e: Entry)
    requires LeadsWith(g, i, t, d) && e.term == t && ValidDurable(d.(log := d.log + [e]))
    ensures LeadsWith(Extended(g, t, e), i, t, d.(log := d.log + [e]))
  {
    hide ValidDurable;
    var l := g.r.lead[t].log;
    assert (l + [e])[d.snapshotIndex..] == l[d.snapshotIndex..] + [e];
    AgreeExtend(g.r.committed, l, l + [e], d.commit);
  }

  lemma CanGrow(r: Raft, i: Id, d: Durable, e: Entry)
    requires Inv(r) && i in r.disks && DiskRel(d, r.disks[i]) && d.term in r.lead
    requires r.lead[d.term].log == r.disks[i].log + [e]
    ensures CanWrite(r, i, DiskOf(d.(log := d.log + [e]), r.disks[i].log + [e]))
    ensures Full(d.(log := d.log + [e]), r.disks[i].log + [e])
  {
    hide Inv;
    DiskFacts(r, i);
    var l := r.disks[i].log;
    AgreeExtend(r.committed, l, l + [e], d.commit);
    assert (l + [e])[d.snapshotIndex..] == l[d.snapshotIndex..] + [e];
    assert SourceOK(r, i, d.term, d.commit);
  }

  lemma HandlePropose(g: Ghost, net: set<Outbound>, i: Id, config: Config, node: Node, command: string)
    returns (g': Ghost)
    requires Steady(g, net, i, node) && config.self == i
    ensures
      var (node', out) := OnPropose(config, node, command);
      Outcome(g, g', net, i, node', out.persist, out.send)
  {
    hide Steady, Outcome, LeadsWith, SendOK, SendAll, PeersOK, IdsOK, Numbered, GhostMoves, ValidDurable, Full, Inv,
      Extend, SendGrows;
    if node.vol.role != Leader || |node.durable.log| >= MAX_ENTRIES || command == "" ||
       LastIndex(node.durable) >= MAX_U64 - 1 {
      g' := g;
      QuietSteady(g, net, i, node);
    } else {
      g' := Propose(g, net, i, config, node, Entry(node.durable.term, command));
    }
  }

  lemma Propose(g: Ghost, net: set<Outbound>, i: Id, config: Config, node: Node, e: Entry) returns (g': Ghost)
    requires Steady(g, net, i, node) && config.self == i && node.vol.role == Leader && e.term == node.durable.term
    requires |node.durable.log| < MAX_ENTRIES && LastIndex(node.durable) < MAX_U64 - 1
    ensures
      var target := node.durable.(log := node.durable.log + [e]);
      var s := SendAll(config, Sending(node, [], []), target, config.peers);
      var (node', out) := BeginWrite(s.node, NO_EFFECTS, target, s.out, [], false, s.snapshots, StateUpdate);
      Outcome(g, g', net, i, node', out.persist, out.send)
  {
    hide Steady, Outcome, LeadsWith, SendOK, SendAll, PeersOK, IdsOK, Numbered, GhostMoves, ValidDurable, Full, Inv,
      Extend, SendGrows;
    var t := node.durable.term;
    var target := node.durable.(log := node.durable.log + [e]);
    SteadyFacts(g, net, i, node);
    LeaderFacts(g, net, i, node);
    TargetGrow(node.durable, e);
    GrownLeads(g, i, t, node.durable, e);
    ExtendedOK(g, i, t, e);
    var h := Extended(g, t, e);
    Renewed(g, h, i, t, node);
    StartSending(h, i, t, node);
    var s := Sending(node, [], []);
    var k := SendMany(config, h, i, t, target, s, config.peers);
    SendAllFrame(config, s, target, config.peers);
    g' := Proposed(g, h, k, net, i, node, e, SendAll(config, s, target, config.peers));
  }

  lemma Renewed(g: Ghost, h: Ghost, i: Id, t: nat, node: Node)
    requires GhostMoves(g, h, i) && h.sent == g.sent && h.floors == g.floors
    requires PeersOK(g, i, t, node.vol.peers) && IdsOK(g, i, t, node.nextRequestId) && Numbered(g, i, node)
    ensures PeersOK(h, i, t, node.vol.peers) && IdsOK(h, i, t, node.nextRequestId) && Numbered(h, i, node)
  {
    PeersStable(g, h, i, t, node.vol.peers);
  }

  // The entry is part of the leader's log before it is durable anywhere.
  lemma Proposed(g: Ghost, h: Ghost, k: Ghost, net: set<Outbound>, i: Id, node: Node, e: Entry, s: Sending)
    returns (g': Ghost)
    requires Steady(g, net, i, node) && node.vol.role == Leader && e.term == node.durable.term
    requires node.durable.term in g.r.lead && h == Extended(g, e.term, e) && Inv(h.r) && GhostMoves(g, h, i)
    requires SendGrows(h, k, i) && SendOK(k, i, e.term, s)
    requires SameDisk(node, s.node) && SameRead(node.vol.read, s.node.vol.read)
    requires Local.Target(node.durable, node.durable.(log := node.durable.log + [e]))
    ensures
      var target := node.durable.(log := node.durable.log + [e]);
      var (node', out) := BeginWrite(s.node, NO_EFFECTS, target, s.out, [], false, s.snapshots, StateUpdate);
      Outcome(g, g', net, i, node', out.persist, out.send)
  {
    hide Inv, PendingOK, LeaderOK, CandidateOK, ReadOK, LocalInv, DiskRel, SendOK, Moves, PacketOK;
    var d := node.durable;
    var target := d.(log := d.log + [e]);
    var n := g.r.disks[i].log + [e];
    g' := k.(staged := k.staged[i := n]);
    GhostTrans(g, h, k, i);
    GhostTrans(g, k, g', i);
    MovesMembers(g, g', i);
    SendParts(k, i, e.term, s);
    SteadyFacts(g, net, i, node);
    LeaderFacts(g, net, i, node);
    ReignExtended(g, i, e);
    var next := BeginWrite(s.node, NO_EFFECTS, target, s.out, [], false, s.snapshots, StateUpdate).0;
    var w := Some(Request(s.node, target, StateUpdate));
    ProposedDisk(node, s.node, next, target);
    ProposedPending(g', k, i, node, e, s);
    ProposedLeader(g', k, i, node, e, s);
    ProposedCandidate(g', i, next);
    ProposedRead(g, g', net, i, node, s);
    assert ReadOK(g', net, i, next) by { SameReadOK(g', net, i, s.node, next); }
    assert net + Sends([]) == net;
  }

  lemma ReignExtended(g: Ghost, i: Id, e: Entry)
    requires i in g.r.disks && Reigns(g, i, e.term, g.r.disks[i].log)
    ensures
      var h := Extended(g, e.term, e);
      h.r.disks == g.r.disks && e.term in h.r.lead && h.r.lead[e.term].owner == i &&
      h.r.lead[e.term].top == g.r.lead[e.term].top && h.r.lead[e.term].log == g.r.disks[i].log + [e]
  {}

  lemma MovesMembers(g: Ghost, g': Ghost, i: Id)
    requires GhostMoves(g, g', i)
    ensures g'.r.members == g.r.members
  {}

  lemma SendParts(k: Ghost, i: Id, t: nat, s: Sending)
    requires SendOK(k, i, t, s)
    ensures PeersOK(k, i, t, s.node.vol.peers) && IdsOK(k, i, t, s.node.nextRequestId) && Probes(k, s.out)
    ensures Numbered(k, i, s.node)
  {}

  lemma ProposedDisk(node: Node, sent: Node, next: Node, target: Durable)
    requires LocalInv(node) && SameDisk(node, sent) && Local.Target(node.durable, target)
    requires next.durable == node.durable && next.pending.Some? && next.pending.value.target == target
    ensures LocalInv(next)
  {
    hide ValidDurable, Advances;
  }

  lemma ProposedPending(g': Ghost, k: Ghost, i: Id, node: Node, e: Entry, s: Sending)
    requires Inv(g'.r) && i in g'.r.disks && DiskRel(node.durable, g'.r.disks[i]) && node.durable.term in g'.r.lead
    requires g'.r.lead[node.durable.term].log == g'.r.disks[i].log + [e]
    requires i in g'.staged && g'.staged[i] == g'.r.disks[i].log + [e]
    requires Probes(k, s.out) && g'.r == k.r && g'.sent == k.sent && SameDisk(node, s.node) && !node.halted
    requires Local.Target(node.durable, node.durable.(log := node.durable.log + [e]))
    ensures
      var target := node.durable.(log := node.durable.log + [e]);
      var next := BeginWrite(s.node, NO_EFFECTS, target, s.out, [], false, s.snapshots, StateUpdate).0;
      PendingOK(g', i, next, Some(Request(s.node, target, StateUpdate)))
  {
    hide Inv, Local.Target, Full, CanWrite, AfterOK, Probes;
    var target := node.durable.(log := node.durable.log + [e]);
    CanGrow(g'.r, i, node.durable, e);
    ProbedStaged(k, g', i, target, g'.staged[i], s.out);
  }

  lemma ProposedLeader(g': Ghost, k: Ghost, i: Id, node: Node, e: Entry, s: Sending)
    requires i in g'.r.disks && node.durable.term in g'.r.lead && node.durable.votedFor == Some(i)
    requires g'.r.lead[node.durable.term].owner == i && g'.r.lead[node.durable.term].top == node.durable.commit
    requires g'.r.lead[node.durable.term].log == g'.r.disks[i].log + [e] && e.term == node.durable.term
    requires i in g'.staged && g'.staged[i] == g'.r.disks[i].log + [e]
    requires PeersOK(k, i, e.term, s.node.vol.peers) && IdsOK(k, i, e.term, s.node.nextRequestId)
    requires g'.r == k.r && g'.sent == k.sent && SameDisk(node, s.node)
    ensures
      var target := node.durable.(log := node.durable.log + [e]);
      LeaderOK(g', i, BeginWrite(s.node, NO_EFFECTS, target, s.out, [], false, s.snapshots, StateUpdate).0)
  {
    hide PeersOK;
    PeersMatch(k, g', i, e.term, s.node.vol.peers);
  }

  lemma ProposedCandidate(g': Ghost, i: Id, next: Node)
    requires next.vol.role == Leader
    ensures CandidateOK(g', i, next)
  {}

  lemma SameReadOK(g: Ghost, net: set<Outbound>, i: Id, a: Node, b: Node)
    requires ReadOK(g, net, i, a) && b.vol == a.vol && b.durable == a.durable && b.nextRequestId == a.nextRequestId
    ensures ReadOK(g, net, i, b)
  {}

  lemma PeersMatch(k: Ghost, g': Ghost, i: Id, t: nat, peers: map<Id, PeerProgress>)
    requires PeersOK(k, i, t, peers) && g'.r == k.r && g'.sent == k.sent
    ensures PeersOK(g', i, t, peers)
  {
    FloorFrame(k, g', i, t, peers);
  }

  lemma ProbedStaged(k: Ghost, g': Ghost, i: Id, target: Durable, n: Log, out: seq<Outbound>)
    requires Probes(k, out) && g'.r == k.r && g'.sent == k.sent
    ensures forall p :: p in out ==> AfterOK(g', i, target, n, false, p)
  {}

  lemma ProposedRead(g: Ghost, g': Ghost, net: set<Outbound>, i: Id, node: Node, s: Sending)
    requires ReadOK(g, net, i, node) && GhostMoves(g, g', i) && g'.floors == g.floors
    requires SameDisk(node, s.node) && SameRead(node.vol.read, s.node.vol.read) && Numbered(g', i, s.node)
    ensures ReadOK(g', net, i, s.node)
  {}

  // ---------------------------------------------------------------- commit

  // The configuration names every other member once.
  ghost predicate ConfigOK(config: Config, i: Id, members: set<Id>) {
    config.self == i && i in members && Distinct(config.peers) && (set p | p in config.peers) == members - {i}
  }

  lemma {:induction false} DistinctSize(ids: seq<Id>)
    requires Distinct(ids)
    ensures |set p | p in ids| == |ids|
  {
    if ids != [] {
      var rest := ids[1..];
      DistinctSize(rest);
      assert ids[0] !in rest;
      assert (set p | p in ids) == (set p | p in rest) + {ids[0]};
    }
  }

  lemma QuorumMembers(config: Config, i: Id, members: set<Id>)
    requires ConfigOK(config, i, members)
    ensures QuorumSize(config) == |members| / 2 + 1
  {
    DistinctSize(config.peers);
    assert members == (members - {i}) + {i};
  }

  lemma {:induction false} HighestCommittable(config: Config, node: Node, n: nat)
    requires ValidDurable(node.durable) && n <= LastIndex(node.durable)
    ensures
      var m := HighestFrom(config, node, n);
      m == node.durable.commit || (node.durable.commit < m <= n && Committable(config, node, m))
    decreases n
  {
    if n > node.durable.commit && !Committable(config, node, n) {
      HighestCommittable(config, node, n - 1);
    }
  }

  // Matches recorded for a quorum are acknowledgements of a quorum.
  lemma SupportChooses(g: Ghost, i: Id, config: Config, node: Node, n: nat)
    requires ConfigOK(config, i, g.r.members) && node.vol.peers.Keys == g.r.members - {i}
    requires PeersOK(g, i, node.durable.term, node.vol.peers) && n > 0
    requires Ack(node.durable.term, i, n) in g.r.acks
    requires 1 + |Supporters(node, n)| >= QuorumSize(config)
    ensures Chosen(g.r, node.durable.term, n)
  {
    var t := node.durable.term;
    QuorumMembers(config, i, g.r.members);
    var q := Supporters(node, n) + {i};
    forall p | p in q
      ensures AckedTo(g.r, t, p, n)
    {
      if p == i {
        assert n >= n && Ack(t, i, n) in g.r.acks;
      } else {
        assert ProgressOK(g, i, t, p, node.vol.peers[p]);
        var k := node.vol.peers[p].matched;
        assert k >= n && Ack(t, p, k) in g.r.acks;
      }
    }
    assert ChosenBy(g.r, t, n, q);
  }

  function Committing(g: Ghost, t: nat, n: nat): Ghost
    requires Own(g.r, t, n)
  {
    g.(r := Choose(g.r, t, n))
  }

  lemma CommittingOK(g: Ghost, i: Id, t: nat, n: nat)
    requires Inv(g.r) && Own(g.r, t, n) && Chosen(g.r, t, n)
    ensures Inv(Committing(g, t, n).r) && AckGrows(g, Committing(g, t, n), i)
    ensures Agree(g.r.lead[t].log, Committing(g, t, n).r.committed, n)
  {
    hide Inv, Grows, Chosen;
    ChooseKeeps(g.r, t, n);
  }

  // What the leader counts as committed is committed, and it may write it down.
  lemma CanCommit(r: Raft, i: Id, d: Durable, n: nat)
    requires Inv(r) && i in r.disks && DiskRel(d, r.disks[i]) && Own(r, d.term, n) && Chosen(r, d.term, n)
    requires r.lead[d.term].owner == i && r.lead[d.term].log == r.disks[i].log && n >= d.commit
    requires Agree(r.lead[d.term].log, r.committed, n)
    ensures CanWrite(r, i, DiskOf(d.(commit := n), r.disks[i].log)) && Full(d.(commit := n), r.disks[i].log)
  {
    hide Inv, Chosen;
    assert ChosenFrom(r, d.term, n, d.term, n);
  }

  lemma HandleAdvance(g: Ghost, net: set<Outbound>, i: Id, config: Config, node: Node) returns (g': Ghost)
    requires Steady(g, net, i, node) && ConfigOK(config, i, g.r.members) && ValidDurable(node.durable)
    ensures
      var (node', out) := OnAdvanceCommit(config, node);
      Outcome(g, g', net, i, node', out.persist, out.send)
  {
    hide Steady, Outcome, LeadsWith, PeersOK, IdsOK, Numbered, GhostMoves, ValidTerms, Full, Inv, ConfigOK, Committable;
    if node.vol.role != Leader {
      g' := g;
      QuietSteady(g, net, i, node);
    } else {
      HighestCommittable(config, node, LastIndex(node.durable));
      var n := HighestFrom(config, node, LastIndex(node.durable));
      if n > node.durable.commit {
        g' := Advance(g, net, i, config, node, n);
      } else {
        g' := g;
        QuietSteady(g, net, i, node);
      }
    }
  }

  lemma Advance(g: Ghost, net: set<Outbound>, i: Id, config: Config, node: Node, n: nat) returns (g': Ghost)
    requires Steady(g, net, i, node) && ConfigOK(config, i, g.r.members) && node.vol.role == Leader
    requires ValidDurable(node.durable) && node.durable.commit < n <= LastIndex(node.durable)
    requires Committable(config, node, n)
    ensures
      var (node', out) := Stage(node, NO_EFFECTS, node.durable.(commit := n), []);
      Outcome(g, g', net, i, node', out.persist, out.send)
  {
    hide Steady, Outcome, LeadsWith, PeersOK, IdsOK, Numbered, GhostMoves, ValidTerms, Inv, ConfigOK, Supporters,
      AckGrows, Committing;
    var t := node.durable.term;
    SteadyFacts(g, net, i, node);
    LeaderFacts(g, net, i, node);
    assert g.r.disks[i].log[n - 1] == node.durable.log[n - node.durable.snapshotIndex - 1];
    AckOne(g, i, n);
    var h := Acked(g, i, n);
    AckSteady(g, h, net, i, node);
    LeaderFacts(h, net, i, node);
    SupportChooses(h, i, config, node, n);
    CommittingOK(h, i, t, n);
    var k := Committing(h, t, n);
    AckSteady(h, k, net, i, node);
    AckGrowsTrans(g, h, k, i);
    Unacked(g, k, i);
    assert Chosen(k.r, t, n) by { AckChosen(h, k, i, t, n); }
    SteadyFacts(k, net, i, node);
    CanCommit(k.r, i, node.durable, n);
    TargetSameLog(node.durable, node.durable.(commit := n));
    g' := LeaderStage(k, net, i, node, node.durable.(commit := n), StateUpdate);
    OutcomeAfter(g, k, g', net, i, Stage(node, NO_EFFECTS, node.durable.(commit := n), []).0,
                 Some(Request(node, node.durable.(commit := n), StateUpdate)), []);
  }

  lemma AckSteady(g: Ghost, h: Ghost, net: set<Outbound>, i: Id, node: Node)
    requires Steady(g, net, i, node) && AckGrows(g, h, i) && Inv(h.r)
    ensures Steady(h, net, i, node)
  {
    hide Inv, MemberOK, Grows;
    AckMember(g, h, net, net, i, node, None);
  }

  lemma Unacked(g: Ghost, k: Ghost, i: Id)
    requires AckGrows(g, k, i)
    ensures GhostMoves(g, k, i) && k.floors == g.floors
    ensures k.r.lead == g.r.lead && k.r.disks == g.r.disks && k.r.members == g.r.members
  {}

  lemma AckChosen(h: Ghost, k: Ghost, i: Id, t: nat, n: nat)
    requires AckGrows(h, k, i) && Chosen(h.r, t, n)
    ensures Chosen(k.r, t, n)
  {
    ChosenStable(h.r, k.r, t, n);
  }

  // A member of any role starts a write that leaves term, vote and full log alone.
  lemma LeaderStage(g: Ghost, net: set<Outbound>, i: Id, node: Node, target: Durable, kind: PersistKind)
    returns (g': Ghost)
    requires Steady(g, net, i, node) && Local.Target(node.durable, target) && target.term == node.durable.term
    requires Full(target, g.r.disks[i].log) && CanWrite(g.r, i, DiskOf(target, g.r.disks[i].log))
    requires KindOK(node.durable, g.r.disks[i].log, Request(node, target, kind), g.r.disks[i].log)
    ensures forall effects, apply, snapshots ::
      Outcome(g, g', net, i, BeginWrite(node, effects, target, [], apply, false, snapshots, kind).0,
              Some(Request(node, target, kind)), [])
  {
    hide Inv, Full, CanWrite, DiskRel, Advances, ValidDurable, Moves, FloorOK, FreshReplies, ProgressOK;
    g' := g.(staged := g.staged[i := g.r.disks[i].log]);
    MovesRefl(g.r, i);
    assert net + Sends([]) == net;
    if node.vol.role == Leader {
      FloorFrame(g, g', i, node.durable.term, node.vol.peers);
    }
  }
}
