// Standing for election, counting votes and taking office.
module SimElection {
  import opened Logs
  import opened Transition
  import opened Local
  import opened Protocol
  import opened ProtocolEvents
  import opened ProtocolWrites
  import opened Cluster
  import opened Simulation
  import opened SimTargets
  import opened SimFollower
  import opened SimSend
  import opened SimLeader

  // ---------------------------------------------------------------- standing

  lemma {:induction false} RequestsSame(config: Config, target: Durable, peers: seq<Id>, id: nat)
    ensures forall p :: p in VoteRequests(config, target, peers, id) ==>
      p.message.RequestVote? && p.message.term == target.term && p.message.candidate == config.self &&
      p.message.lastIndex == LastIndex(target) && p.message.lastTerm == DurableLastTerm(target)
    decreases |peers|
  {
    if peers != [] {
      RequestsSame(config, target, peers[1..], id + 1);
    }
  }

  // Every request states the log the candidate will stand with.
  lemma RequestsOK(config: Config, g: Ghost, i: Id, target: Durable, n: Log, peers: seq<Id>, id: nat)
    requires config.self == i && Full(target, n)
    ensures forall p :: p in VoteRequests(config, target, peers, id) ==> AfterOK(g, i, target, n, true, p)
  {
    RequestsSame(config, target, peers, id);
    FullLastTerm(target, n);
  }

  lemma HandleElection(g: Ghost, net: set<Outbound>, i: Id, config: Config, node: Node) returns (g': Ghost)
    requires Steady(g, net, i, node) && config.self == i
    ensures
      var (node', out) := OnElectionTimeout(config, node);
      Outcome(g, g', net, i, node', out.persist, out.send)
  {
    hide Steady, Outcome, Inv, CanWrite, Full, ValidTerms, Advances, AfterOK, VoteRequests;
    SteadyFacts(g, net, i, node);
    if node.vol.role == Leader || node.durable.term == MAX_U64 {
      g' := g;
      QuietSteady(g, net, i, node);
    } else {
      var d := node.durable;
      var target := d.(term := d.term + 1, votedFor := Some(i));
      CanStand(g.r, i, d);
      TargetSameLog(d, target);
      DownSteady(g, net, i, node, NO_EFFECTS);
      var requests := VoteRequests(config, target, config.peers, node.nextRequestId);
      g' := g.(staged := g.staged[i := g.r.disks[i].log]);
      RequestsOK(config, g', i, target, g.r.disks[i].log, config.peers, node.nextRequestId);
      var (down, effects) := StepDown(node, NO_EFFECTS);
      Standing(g, net, i, down, effects, target, requests, node.nextRequestId + |config.peers|);
    }
  }

  lemma Standing(g: Ghost, net: set<Outbound>, i: Id, node: Node, effects: Effects, target: Durable,
                 requests: seq<Outbound>, id: nat)
    requires Steady(g, net, i, node) && node.vol.role == Follower && node.vol.read.None? && node.vol.votes == {}
    requires target == node.durable.(term := node.durable.term + 1, votedFor := Some(i))
    requires Local.Target(node.durable, target) && Full(target, g.r.disks[i].log)
    requires CanWrite(g.r, i, DiskOf(target, g.r.disks[i].log))
    requires
      var g' := g.(staged := g.staged[i := g.r.disks[i].log]);
      forall p :: p in requests ==> AfterOK(g', i, target, g.r.disks[i].log, true, p)
    ensures
      var standing := node.(vol := node.vol.(role := Candidate), nextRequestId := id);
      var (node', out) := BeginWrite(standing, effects, target, requests, [], true, [], StateUpdate);
      Outcome(g, g.(staged := g.staged[i := g.r.disks[i].log]), net, i, node', out.persist, [])
  {
    hide Inv, Full, CanWrite, AfterOK, DiskRel, Advances, ValidDurable, Moves;
    MovesRefl(g.r, i);
    assert net + Sends([]) == net;
  }

  // ---------------------------------------------------------------- taking office

  function Enthroned(g: Ghost, i: Id, q: set<Id>): Ghost
    requires i in g.r.disks
  {
    g.(r := Elect(g.r, i, q))
  }

  // A quorum of votes makes the only leader of the term.
  lemma EnthronedOK(g: Ghost, i: Id, t: nat, votes: set<Id>)
    requires Inv(g.r) && i in g.r.disks && g.r.disks[i].term == t && Stands(g, i, t, g.r.disks[i].log, votes)
    requires |votes| >= |g.r.members| / 2 + 1
    ensures t !in g.r.lead && Inv(Enthroned(g, i, votes).r) && GhostMoves(g, Enthroned(g, i, votes), i)
  {
    hide Inv, Grows, Quorum;
    VotersKnown(g, i, t, votes);
    NobodyElse(g.r, i, t, votes);
    ElectKeeps(g.r, i, votes);
  }

  lemma VotersKnown(g: Ghost, i: Id, t: nat, votes: set<Id>)
    requires Inv(g.r) && i in g.r.disks && Stands(g, i, t, g.r.disks[i].log, votes)
    requires |votes| >= |g.r.members| / 2 + 1
    ensures Quorum(g.r.members, votes)
  {
    hide BallotsOK, BallotsCast, AcksOK, AllSafe, VotesSafe, CommittedOK, DisksCommitted, TopsOK, ReignsOK, LogOK;
    forall v | v in votes
      ensures v in g.r.members
    {
      assert VoteOK(g.r, Vote(t, v, i));
    }
  }

  lemma NobodyElse(r: Raft, i: Id, t: nat, votes: set<Id>)
    requires Inv(r) && Elected(r, i, votes) && r.disks[i].term == t && (t in r.lead ==> r.lead[t].owner != i)
    ensures t !in r.lead
  {
    hide DisksOK, BallotsOK, BallotsCast, VotesOK, ReignsOK, AcksOK, AllSafe, VotesSafe, CommittedOK, DisksCommitted, TopsOK;
    if t in r.lead {
      OneLeader(r, i, votes);
    }
  }

  lemma CrownedSteady(g: Ghost, net: set<Outbound>, i: Id, node: Node)
    requires Steady(g, net, i, node) && node.vol.role == Candidate
    requires |node.vol.votes| >= |g.r.members| / 2 + 1
    ensures i in g.r.disks && GhostMoves(g, Enthroned(g, i, node.vol.votes), i)
    ensures Steady(Enthroned(g, i, node.vol.votes), net, i, Crowned(node))
  {
    hide Inv, Grows, DiskRel, ValidDurable, Advances;
    var g' := Enthroned(g, i, node.vol.votes);
    DiskTerm(node.durable, g.r.disks[i]);
    EnthronedOK(g, i, node.durable.term, node.vol.votes);
    assert Crowned(node).vol.peers.Keys == node.vol.peers.Keys;
  }

  lemma DiskTerm(d: Durable, k: Disk)
    requires DiskRel(d, k)
    ensures k.term == d.term && k.vote == d.votedFor && k.commit == d.commit
  {}

  lemma SendOnePrefix(config: Config, node: Node, a: seq<Outbound>, o: seq<Outbound>, b: seq<SnapshotNeeded>,
                      s: seq<SnapshotNeeded>, log: Durable, peer: Id)
    ensures
      var r := SendAppend(config, Sending(node, o, s), log, peer);
      SendAppend(config, Sending(node, a + o, b + s), log, peer) == Sending(r.node, a + r.out, b + r.snapshots)
  {
    var r := SendAppend(config, Sending(node, o, s), log, peer);
    var q := SendAppend(config, Sending(node, a + o, b + s), log, peer);
    assert q.out == a + r.out;
    assert q.snapshots == b + r.snapshots;
  }

  // What was collected before stays in front.
  lemma {:induction false} SendPrefix(config: Config, node: Node, a: seq<Outbound>, o: seq<Outbound>,
                                      b: seq<SnapshotNeeded>, s: seq<SnapshotNeeded>, log: Durable, peers: seq<Id>)
    ensures
      var r := SendAll(config, Sending(node, o, s), log, peers);
      SendAll(config, Sending(node, a + o, b + s), log, peers) == Sending(r.node, a + r.out, b + r.snapshots)
    decreases |peers|
  {
    hide SendAppend;
    if peers != [] {
      SendOnePrefix(config, node, a, o, b, s, log, peers[0]);
      var r := SendAppend(config, Sending(node, o, s), log, peers[0]);
      SendPrefix(config, r.node, a, r.out, b, r.snapshots, log, peers[1..]);
    }
  }

  lemma LeaderPrefix(config: Config, node: Node, effects: Effects)
    ensures BecomeLeader(config, node, effects).0 == BecomeLeader(config, node, NO_EFFECTS).0
    ensures BecomeLeader(config, node, effects).1.send == effects.send + BecomeLeader(config, node, NO_EFFECTS).1.send
  {
    hide SendAll;
    SendPrefix(config, Crowned(node), effects.send, [], effects.snapshotNeeded, [], node.durable, Sorted(config.peers));
    assert effects.send + [] == effects.send;
    assert effects.snapshotNeeded + [] == effects.snapshotNeeded;
  }

  lemma TakeOffice(g: Ghost, net: set<Outbound>, i: Id, config: Config, node: Node) returns (g': Ghost)
    requires Steady(g, net, i, node) && node.vol.role == Candidate && config.self == i
    requires |node.vol.votes| >= |g.r.members| / 2 + 1
    ensures Outcome(g, g', net, i, BecomeLeader(config, node, NO_EFFECTS).0, None,
                    BecomeLeader(config, node, NO_EFFECTS).1.send)
    ensures g'.r.disks == g.r.disks
  {
    hide Steady, Outcome, LeadsWith, SendOK, SendAll, PeersOK, IdsOK, Numbered, GhostMoves;
    CrownedSteady(g, net, i, node);
    var h := Enthroned(g, i, node.vol.votes);
    LeaderFacts(h, net, i, Crowned(node));
    var s := Sending(Crowned(node), [], []);
    var t := node.durable.term;
    StartSending(h, i, t, Crowned(node));
    g' := SendMany(config, h, i, t, node.durable, s, Sorted(config.peers));
    SendAllFrame(config, s, node.durable, Sorted(config.peers));
    var r := SendAll(config, s, node.durable, Sorted(config.peers));
    Probed(h, g', net, i, Crowned(node), r);
    OutcomeAfter(g, h, g', net, i, r.node, None, r.out);
  }

  // ---------------------------------------------------------------- counting

  function Counted(node: Node, voter: Id): Node {
    node.(vol := node.vol.(votes := node.vol.votes + {voter}))
  }

  lemma CountedSteady(g: Ghost, net: set<Outbound>, i: Id, node: Node, voter: Id)
    requires Steady(g, net, i, node) && node.vol.role == Candidate && Vote(node.durable.term, voter, i) in g.r.votes
    ensures Steady(g, net, i, Counted(node, voter))
  {
    hide Inv, Grows, DiskRel, ValidDurable, Advances;
  }

  lemma HandleCount(g: Ghost, net: set<Outbound>, i: Id, config: Config, node: Node, voter: Id) returns (g': Ghost)
    requires Steady(g, net, i, node) && node.vol.role == Candidate && ConfigOK(config, i, g.r.members)
    requires Vote(node.durable.term, voter, i) in g.r.votes
    ensures Outcome(g, g', net, i, CountVote(config, node, NO_EFFECTS, voter).0, None,
                    CountVote(config, node, NO_EFFECTS, voter).1.send)
    ensures g'.r.disks == g.r.disks
  {
    hide Steady, Outcome, BecomeLeader;
    CountedSteady(g, net, i, node, voter);
    QuorumMembers(config, i, g.r.members);
    var counted := Counted(node, voter);
    if |counted.vol.votes| >= QuorumSize(config) {
      g' := TakeOffice(g, net, i, config, counted);
    } else {
      g' := g;
      QuietSteady(g, net, i, counted);
    }
  }

  lemma CountPrefix(config: Config, node: Node, effects: Effects, voter: Id)
    ensures CountVote(config, node, effects, voter).0 == CountVote(config, node, NO_EFFECTS, voter).0
    ensures CountVote(config, node, effects, voter).1.persist == effects.persist
    ensures CountVote(config, node, effects, voter).1.send ==
            effects.send + CountVote(config, node, NO_EFFECTS, voter).1.send
  {
    hide BecomeLeader;
    LeaderPrefix(config, Counted(node, voter), effects);
    LeaderFrame(config, Counted(node, voter), effects);
    assert effects.send + [] == effects.send;
  }

  lemma HandleVoteReply(g: Ghost, net: set<Outbound>, i: Id, config: Config, node: Node, m: Message)
    returns (g': Ghost)
    requires Steady(g, net, i, node) && ConfigOK(config, i, g.r.members)
    requires m.VoteReply? && MsgOK(g, Outbound(i, m))
    ensures
      var (node', out) := OnVoteReply(config, node, m);
      Outcome(g, g', net, i, node', out.persist, out.send)
  {
    hide Steady, Outcome, ConfigOK, CountVote;
    if KnownPeer(node, m.voter) && m.term > node.durable.term {
      g' := HandleDeposed(g, net, i, node, m.term);
    } else if KnownPeer(node, m.voter) && m.term == node.durable.term && m.granted && node.vol.role == Candidate {
      g' := HandleCount(g, net, i, config, node, m.voter);
      CountPrefix(config, node, NO_EFFECTS, m.voter);
    } else {
      g' := g;
      QuietSteady(g, net, i, node);
    }
  }
}
