// The relation between a cluster of transition cores and the disk-level
// protocol, and what it takes for one step to keep it.
module Simulation {
  import opened Logs
  import opened Transition
  import opened Local
  import opened Protocol
  import opened ProtocolEvents
  import opened ProtocolWrites
  import opened Cluster

  // An append request, identified by its leader, term and request id.
  datatype Req = Req(leader: Id, term: nat, id: nat)

  // Every member's commit index and term when a read was admitted, and the
  // first request id issued afterwards.
  datatype ReadFloor = ReadFloor(from: nat, commits: map<Id, nat>, terms: map<Id, nat>)

  // History: the protocol state, the index each append request covers, the full
  // log each started write leads to and the circumstances of each open read.
  datatype Ghost = Ghost(r: Raft, sent: map<Req, nat>, staged: map<Id, Log>, floors: map<Id, ReadFloor>)

  // ---------------------------------------------------------------- disks

  // l, counted from the first entry ever, compacts to d.
  ghost predicate Full(d: Durable, l: Log) {
    LastIndex(d) == |l| && d.log == l[d.snapshotIndex..] && d.snapshotTerm == TermAt(l, d.snapshotIndex)
  }

  function DiskOf(d: Durable, l: Log): Disk {
    Disk(d.term, d.votedFor, l, d.commit)
  }

  ghost predicate DiskRel(d: Durable, k: Disk) {
    Full(d, k.log) && k == DiskOf(d, k.log)
  }

  // ---------------------------------------------------------------- messages

  // Index x with term st is a committed boundary known to the leader of term t.
  ghost predicate BoundaryOK(r: Raft, t: nat, x: nat, st: nat) {
    t in r.lead && 1 <= x <= r.lead[t].top && Agree(r.lead[t].log, r.committed, x) && TermAt(r.committed, x) == st
  }

  ghost predicate AppendOK(g: Ghost, m: Message)
    requires m.AppendEntries?
  {
    m.term in g.r.lead &&
    var reign := g.r.lead[m.term];
    var end := m.prevIndex + |m.entries|;
    reign.owner == m.leader && end <= |reign.log| && reign.log[m.prevIndex..end] == m.entries &&
    m.prevTerm == TermAt(reign.log, m.prevIndex) &&
    Agree(reign.log, g.r.committed, m.leaderCommit) && m.leaderCommit <= reign.top &&
    Req(m.leader, m.term, m.requestId) in g.sent && g.sent[Req(m.leader, m.term, m.requestId)] == end
  }

  ghost predicate ReplyOK(g: Ghost, leader: Id, term: nat, follower: Id, id: nat, matched: nat) {
    Req(leader, term, id) in g.sent && g.sent[Req(leader, term, id)] == matched && Ack(term, follower, matched) in g.r.acks
  }

  // What a packet on the network guarantees for ever.
  ghost predicate MsgOK(g: Ghost, p: Outbound) {
    match p.message
    case RequestVote(t, c, index, term, _) =>
      Ballot(t, c) in g.r.cand && index == |g.r.cand[Ballot(t, c)]| && term == LastTerm(g.r.cand[Ballot(t, c)])
    case VoteReply(t, voter, granted, _) => granted ==> Vote(t, voter, p.to) in g.r.votes
    case AppendEntries(_, _, _, _, _, _, _) => AppendOK(g, p.message)
    case AppendReply(t, follower, success, _, id, matched) => success ==> ReplyOK(g, p.to, t, follower, id, matched)
    case SnapshotRequest(t, leader, x, st, _, _) => BoundaryOK(g.r, t, x, st) && g.r.lead[t].owner == leader
    case SnapshotReply(t, follower, success, x, _) =>
      success ==> Ack(t, follower, x) in g.r.acks && follower in g.r.disks && x <= g.r.disks[follower].commit
  }

  // ---------------------------------------------------------------- nodes

  ghost predicate DiskOK(g: Ghost, i: Id, node: Node) {
    i in g.r.disks && LocalInv(node) && DiskRel(node.durable, g.r.disks[i])
  }

  // What a write of each kind may change.
  ghost predicate KindOK(d: Durable, l: Log, w: PersistRequest, n: Log) {
    match w.kind
    case StateUpdate => w.target.snapshotIndex == d.snapshotIndex && w.target.snapshotTerm == d.snapshotTerm
    case LocalCompaction => WithMeta(d, w.target) == d && w.target.commit == d.commit && n == l
    case SnapshotInstall => true
  }

  ghost predicate WriteOK(g: Ghost, i: Id, d: Durable, w: PersistRequest) {
    i in g.staged && i in g.r.disks && Local.Target(d, w.target) && Full(w.target, g.staged[i]) &&
    CanWrite(g.r, i, DiskOf(w.target, g.staged[i])) && KindOK(d, g.r.disks[i].log, w, g.staged[i])
  }

  // A packet that is released once `target` (in full: n) is durable.
  ghost predicate AfterOK(g: Ghost, i: Id, target: Durable, n: Log, selfVote: bool, p: Outbound) {
    match p.message
    case RequestVote(t, c, index, term, _) =>
      selfVote && t == target.term && c == i && index == |n| && term == LastTerm(n)
    case VoteReply(t, voter, granted, _) =>
      voter == i && t == target.term && (granted ==> target.votedFor == Some(p.to))
    case AppendEntries(_, _, _, _, _, _, _) => AppendOK(g, p.message)
    case AppendReply(t, follower, success, _, id, matched) =>
      follower == i && t == target.term &&
      (success ==>
        t in g.r.lead && Req(p.to, t, id) in g.sent && g.sent[Req(p.to, t, id)] == matched &&
        Agree(n, g.r.lead[t].log, matched))
    case SnapshotRequest(_, _, _, _, _, _) => false
    case SnapshotReply(t, follower, success, x, _) =>
      follower == i && t == target.term && (success ==> t in g.r.lead && Agree(n, g.r.lead[t].log, x) && x <= target.commit)
  }

  ghost predicate PendingOK(g: Ghost, i: Id, node: Node, w: Option<PersistRequest>) {
    (node.pending.Some? ==>
      !node.halted && i in g.staged && w.Some? && w.value.target == node.pending.value.target &&
      (forall p :: p in node.pending.value.after ==>
        AfterOK(g, i, node.pending.value.target, g.staged[i], node.pending.value.selfVote, p)) &&
      (node.pending.value.selfVote ==> node.vol.role == Candidate)) &&
    (node.pending.None? && !node.halted ==> w.None?) &&
    (w.Some? ==> WriteOK(g, i, node.durable, w.value))
  }

  ghost predicate ProbeOK(g: Ghost, i: Id, t: nat, probe: Probe) {
    probe.term == t && probe.request.Some? && probe.request.value.AppendEntries? &&
    var m := probe.request.value;
    m.term == t && m.leader == i && m.requestId == probe.requestId &&
    m.prevIndex == probe.prev && |m.entries| == probe.count && AppendOK(g, m)
  }

  ghost predicate ProgressOK(g: Ghost, i: Id, t: nat, p: Id, progress: PeerProgress) {
    (progress.matched == 0 || Ack(t, p, progress.matched) in g.r.acks) &&
    (progress.inFlight.Some? ==> ProbeOK(g, i, t, progress.inFlight.value)) &&
    (progress.snapshotInFlight.Some? ==>
      BoundaryOK(g.r, t, progress.snapshotInFlight.value.index, progress.snapshotInFlight.value.term))
  }

  ghost predicate IdsOK(g: Ghost, i: Id, t: nat, next: nat) {
    forall q :: q in g.sent && q.leader == i && q.term == t ==> q.id < next
  }

  ghost predicate PeersOK(g: Ghost, i: Id, t: nat, peers: map<Id, PeerProgress>) {
    forall p :: p in peers ==> ProgressOK(g, i, t, p, peers[p])
  }

  // i leads term t with log l.
  ghost predicate Reigns(g: Ghost, i: Id, t: nat, l: Log) {
    t in g.r.lead && g.r.lead[t].owner == i && g.r.lead[t].log == l
  }

  ghost predicate LeaderOK(g: Ghost, i: Id, node: Node) {
    node.vol.role == Leader ==>
      i in g.r.disks && (node.pending.Some? ==> i in g.staged) && node.durable.votedFor == Some(i) &&
      Reigns(g, i, node.durable.term, if node.pending.Some? then g.staged[i] else g.r.disks[i].log) &&
      (node.pending.Some? ==>
        node.pending.value.target.term == node.durable.term && g.r.disks[i].log <= g.staged[i] &&
        (forall k :: |g.r.disks[i].log| <= k < |g.staged[i]| ==> g.staged[i][k].term == node.durable.term)) &&
      g.r.lead[node.durable.term].top == node.durable.commit &&
      PeersOK(g, i, node.durable.term, node.vol.peers) &&
      IdsOK(g, i, node.durable.term, node.nextRequestId)
  }

  // Candidate i of term t stood with log l and has these votes.
  ghost predicate Stands(g: Ghost, i: Id, t: nat, l: Log, votes: set<Id>) {
    Ballot(t, i) in g.r.cand && g.r.cand[Ballot(t, i)] == l &&
    (forall v :: v in votes ==> Vote(t, v, i) in g.r.votes) &&
    (t in g.r.lead ==> g.r.lead[t].owner != i)
  }

  ghost predicate CandidateOK(g: Ghost, i: Id, node: Node) {
    node.vol.role == Candidate ==>
      i in g.r.disks &&
      if node.pending.Some? && node.pending.value.selfVote then
        i in g.staged && g.staged[i] == g.r.disks[i].log && node.vol.votes == {} &&
        node.pending.value.target.term == node.durable.term + 1 && node.pending.value.target.votedFor == Some(i)
      else
        node.durable.votedFor == Some(i) && Stands(g, i, node.durable.term, g.r.disks[i].log, node.vol.votes) &&
        (node.pending.Some? ==>
          i in g.staged && g.staged[i] == g.r.disks[i].log && node.pending.value.target.term == node.durable.term)
  }

  ghost predicate Outvoted(members: set<Id>, f: ReadFloor, t: nat, q: set<Id>) {
    Quorum(members, q) && forall k :: k in q ==> k in f.terms && f.terms[k] > t
  }

  // m confirms, in term t, a request numbered from or later.
  predicate Confirms(m: Message, t: nat, from: nat) {
    m.AppendReply? && m.success && m.term == t && m.requestId >= from
  }

  // Replies to requests issued after the read was admitted come from members
  // that had not left the leader's term when it was.
  ghost predicate FreshReplies(net: set<Outbound>, i: Id, t: nat, f: ReadFloor) {
    forall p :: p in net && p.to == i && Confirms(p.message, t, f.from) && p.message.follower in f.terms ==>
      f.terms[p.message.follower] <= t
  }

  ghost predicate FloorOK(r: Raft, read: ReadBarrier, f: ReadFloor) {
    f.commits.Keys == r.members && f.terms.Keys == r.members && r.disks.Keys == r.members &&
    (forall k :: k in f.terms ==> f.terms[k] <= r.disks[k].term) &&
    (forall k :: k in f.commits ==> f.commits[k] <= read.index || exists q :: Outvoted(r.members, f, read.term, q)) &&
    read.acknowledgements <= r.members &&
    (forall k :: k in read.acknowledgements ==> f.terms[k] <= read.term) &&
    (forall k :: k in read.probes ==> read.probes[k] >= f.from)
  }

  ghost predicate ReadOK(g: Ghost, net: set<Outbound>, i: Id, node: Node) {
    node.vol.read.Some? ==>
      node.vol.role == Leader && node.vol.read.value.term == node.durable.term && i in g.floors &&
      g.floors[i].from <= node.nextRequestId &&
      FloorOK(g.r, node.vol.read.value, g.floors[i]) && FreshReplies(net, i, node.durable.term, g.floors[i])
  }

  // Member i with the write w in progress.
  ghost predicate MemberOK(g: Ghost, net: set<Outbound>, i: Id, node: Node, w: Option<PersistRequest>) {
    DiskOK(g, i, node) && node.vol.peers.Keys == g.r.members - {i} && PendingOK(g, i, node, w) &&
    LeaderOK(g, i, node) && CandidateOK(g, i, node) && ReadOK(g, net, i, node)
  }

  ghost predicate NodeOK(s: State, g: Ghost, i: Id)
    requires i in s.nodes && i in s.writes
  {
    MemberOK(g, s.net, i, s.nodes[i], s.writes[i])
  }

  // Only leaders send appends.
  ghost predicate SentLed(g: Ghost) {
    forall q :: q in g.sent ==> q.term in g.r.lead
  }

  ghost predicate SimInv(s: State, g: Ghost) {
    Configured(s) && Inv(g.r) && SentLed(g) && g.r.members == s.nodes.Keys &&
    (forall i :: i in s.nodes ==> NodeOK(s, g, i)) &&
    (forall p :: p in s.net ==> MsgOK(g, p))
  }

  // ---------------------------------------------------------------- growth

  // g' follows g by a step of i.
  ghost predicate GhostMoves(g: Ghost, g': Ghost, i: Id) {
    Moves(g.r, g'.r, i) &&
    (forall q :: q in g.sent ==> q in g'.sent && g'.sent[q] == g.sent[q]) &&
    (forall q :: q in g'.sent && q !in g.sent ==> q.leader == i && q.term in g'.r.lead) &&
    (forall j :: j != i && j in g.staged ==> j in g'.staged && g'.staged[j] == g.staged[j]) &&
    (forall j :: j != i && j in g.floors ==> j in g'.floors && g'.floors[j] == g.floors[j])
  }

  lemma GhostRefl(g: Ghost, i: Id)
    ensures GhostMoves(g, g, i)
  {}

  lemma GhostTrans(g: Ghost, h: Ghost, k: Ghost, i: Id)
    requires GhostMoves(g, h, i) && GhostMoves(h, k, i)
    ensures GhostMoves(g, k, i)
  {
    MovesTrans(g.r, h.r, k.r, i);
  }

  lemma BoundaryStable(r: Raft, r': Raft, t: nat, x: nat, st: nat)
    requires Grows(r, r') && BoundaryOK(r, t, x, st)
    ensures BoundaryOK(r', t, x, st)
  {
    assert ReignGrows(r.lead[t], r'.lead[t]);
    AgreeExtend(r.lead[t].log, r.committed, r'.committed, x);
    AgreeExtend(r'.committed, r.lead[t].log, r'.lead[t].log, x);
    AgreeTermAt(r.committed, r'.committed, x);
  }

  ghost predicate SentGrows(g: Ghost, g': Ghost) {
    Grows(g.r, g'.r) && forall q :: q in g.sent ==> q in g'.sent && g'.sent[q] == g.sent[q]
  }

  lemma AppendStable(g: Ghost, g': Ghost, m: Message)
    requires SentGrows(g, g') && m.AppendEntries? && AppendOK(g, m)
    ensures AppendOK(g', m)
  {
    var a, b := g.r.lead[m.term], g'.r.lead[m.term];
    assert ReignGrows(a, b);
    assert a.log == b.log[..|a.log|];
    AgreeExtend(a.log, g.r.committed, g'.r.committed, m.leaderCommit);
    AgreeExtend(g'.r.committed, a.log, b.log, m.leaderCommit);
  }

  lemma MsgStable(g: Ghost, g': Ghost, p: Outbound)
    requires SentGrows(g, g') && MsgOK(g, p)
    ensures MsgOK(g', p)
  {
    match p.message
    case AppendEntries(_, _, _, _, _, _, _) => AppendStable(g, g', p.message);
    case SnapshotRequest(t, _, x, st, _, _) =>
      BoundaryStable(g.r, g'.r, t, x, st);
      assert ReignGrows(g.r.lead[t], g'.r.lead[t]);
    case _ =>
  }

  lemma AfterStable(g: Ghost, g': Ghost, i: Id, target: Durable, n: Log, selfVote: bool, p: Outbound)
    requires SentGrows(g, g') && AfterOK(g, i, target, n, selfVote, p)
    ensures AfterOK(g', i, target, n, selfVote, p)
  {
    match p.message
    case AppendEntries(_, _, _, _, _, _, _) => AppendStable(g, g', p.message);
    case AppendReply(t, _, success, _, _, matched) =>
      if success {
        assert ReignGrows(g.r.lead[t], g'.r.lead[t]);
        AgreeExtend(n, g.r.lead[t].log, g'.r.lead[t].log, matched);
      }
    case SnapshotReply(t, _, success, x, _) =>
      if success {
        assert ReignGrows(g.r.lead[t], g'.r.lead[t]);
        AgreeExtend(n, g.r.lead[t].log, g'.r.lead[t].log, x);
      }
    case _ =>
  }

  lemma SourceStable(r: Raft, r': Raft, i: Id, t: nat, c: nat)
    requires Grows(r, r') && SourceOK(r, i, t, c)
    ensures SourceOK(r', i, t, c)
  {
    if c != 0 {
      if u: nat :| u <= t && Sourced(r, u, c) {
        assert ReignGrows(r.lead[u], r'.lead[u]);
        assert Sourced(r', u, c);
      } else {
        var u: nat, n: nat :| ChosenFrom(r, u, n, t, c);
        OwnStable(r, r', u, n);
        ChosenStable(r, r', u, n);
        assert ChosenFrom(r', u, n, t, c);
        assert ReignGrows(r.lead[t], r'.lead[t]);
      }
    }
  }

  lemma CoversStable(n: Log, l: Log, g: Log, g': Log)
    requires Covers(n, l, g) && g <= g'
    ensures Covers(n, l, g')
  {
    if !(l <= n) {
      var p: nat :| p <= |n| && ConflictAt(l, g, p);
      assert ConflictAt(l, g', p);
    }
  }

  // A write stays possible while the member's own disk is untouched.
  lemma WriteStable(r: Raft, r': Raft, i: Id, d: Disk)
    requires Grows(r, r') && CanWrite(r, i, d) && r'.disks[i] == r.disks[i]
    ensures CanWrite(r', i, d)
  {
    SourceStable(r, r', i, d.term, d.commit);
    AgreeExtend(d.log, r.committed, r'.committed, d.commit);
    if d.log != r.disks[i].log {
      assert ReignGrows(r.lead[d.term], r'.lead[d.term]);
      CoversStable(d.log, r.disks[i].log, r.lead[d.term].log, r'.lead[d.term].log);
    }
  }

  lemma ProgressStable(g: Ghost, g': Ghost, i: Id, t: nat, p: Id, progress: PeerProgress)
    requires SentGrows(g, g') && ProgressOK(g, i, t, p, progress)
    ensures ProgressOK(g', i, t, p, progress)
  {
    if progress.inFlight.Some? {
      AppendStable(g, g', progress.inFlight.value.request.value);
    }
    if progress.snapshotInFlight.Some? {
      BoundaryStable(g.r, g'.r, t, progress.snapshotInFlight.value.index, progress.snapshotInFlight.value.term);
    }
  }

  lemma PeersStable(g: Ghost, g': Ghost, i: Id, t: nat, peers: map<Id, PeerProgress>)
    requires SentGrows(g, g') && PeersOK(g, i, t, peers)
    ensures PeersOK(g', i, t, peers)
  {
    forall p | p in peers
      ensures ProgressOK(g', i, t, p, peers[p])
    {
      ProgressStable(g, g', i, t, p, peers[p]);
    }
  }

  // ---------------------------------------------------------------- one step

  // A packet sent by a step of i, in the ghost state after the step.
  ghost predicate PacketOK(g: Ghost, i: Id, p: Outbound) {
    MsgOK(g, p) &&
    (p.message.AppendReply? && p.message.success ==>
      i in g.r.disks && p.message.follower == i && p.message.term == g.r.disks[i].term)
  }

  lemma OtherPending(g: Ghost, g': Ghost, i: Id, j: Id, node: Node, w: Option<PersistRequest>)
    requires GhostMoves(g, g', i) && i != j && DiskOK(g, j, node) && PendingOK(g, j, node, w)
    ensures PendingOK(g', j, node, w)
  {
    assert SentGrows(g, g');
    if w.Some? {
      WriteStable(g.r, g'.r, j, DiskOf(w.value.target, g.staged[j]));
    }
    if node.pending.Some? {
      forall p | p in node.pending.value.after
        ensures AfterOK(g', j, node.pending.value.target, g'.staged[j], node.pending.value.selfVote, p)
      {
        AfterStable(g, g', j, node.pending.value.target, g.staged[j], node.pending.value.selfVote, p);
      }
    }
  }

  lemma OtherLeader(g: Ghost, g': Ghost, i: Id, j: Id, node: Node)
    requires GhostMoves(g, g', i) && i != j && LeaderOK(g, j, node)
    ensures LeaderOK(g', j, node)
  {
    if node.vol.role == Leader {
      var t := node.durable.term;
      assert ReignGrows(g.r.lead[t], g'.r.lead[t]);
      PeersStable(g, g', j, t, node.vol.peers);
    }
  }

  lemma OtherCandidate(g: Ghost, g': Ghost, i: Id, j: Id, node: Node)
    requires GhostMoves(g, g', i) && i != j && CandidateOK(g, j, node)
    ensures CandidateOK(g', j, node)
  {}

  lemma ReadGrows(g: Ghost, g': Ghost, net: set<Outbound>, net': set<Outbound>, i: Id, j: Id, node: Node)
    requires GhostMoves(g, g', i) && ReadOK(g, net, j, node) && i in g.r.members
    requires j in g.floors ==> j in g'.floors && g'.floors[j] == g.floors[j]
    requires forall p :: p in net' && p !in net ==> PacketOK(g', i, p)
    ensures ReadOK(g', net', j, node)
  {
    if node.vol.read.Some? {
      var f := g.floors[j];
      forall p | p in net' && p.to == j && Confirms(p.message, node.durable.term, f.from) && p.message.follower in f.terms
        ensures f.terms[p.message.follower] <= node.durable.term
      {
        if p !in net {
          assert PacketOK(g', i, p);
        }
      }
    }
  }

  // The other members notice nothing but growth.
  lemma OtherNode(s: State, s': State, g: Ghost, g': Ghost, i: Id, j: Id)
    requires j in s.nodes && j in s.writes && j != i && NodeOK(s, g, j) && GhostMoves(g, g', i) && i in g.r.members
    requires j in s'.nodes && j in s'.writes && s'.nodes[j] == s.nodes[j] && s'.writes[j] == s.writes[j]
    requires forall p :: p in s'.net && p !in s.net ==> PacketOK(g', i, p)
    ensures NodeOK(s', g', j)
  {
    hide PendingOK, LeaderOK, CandidateOK, ReadOK, MsgOK, PacketOK;
    OtherPending(g, g', i, j, s.nodes[j], s.writes[j]);
    OtherLeader(g, g', i, j, s.nodes[j]);
    OtherCandidate(g, g', i, j, s.nodes[j]);
    ReadGrows(g, g', s.net, s'.net, i, j, s.nodes[j]);
  }

  // s' differs from s at member i only.
  ghost predicate StepOf(s: State, s': State, i: Id) {
    i in s.nodes && i in s.writes && i in s'.nodes && i in s'.writes &&
    s' == s.(nodes := s.nodes[i := s'.nodes[i]], writes := s.writes[i := s'.writes[i]], net := s'.net) &&
    s.net <= s'.net
  }

  // A step of i keeps the relation once it does so at i and for what i sends.
  lemma Assemble(s: State, s': State, g: Ghost, g': Ghost, i: Id)
    requires SimInv(s, g) && StepOf(s, s', i) && GhostMoves(g, g', i) && Inv(g'.r)
    requires NodeOK(s', g', i)
    requires forall p :: p in s'.net && p !in s.net ==> PacketOK(g', i, p)
    ensures SimInv(s', g')
  {
    hide NodeOK, MsgOK, Inv;
    forall j | j in s'.nodes
      ensures NodeOK(s', g', j)
    {
      if j != i {
        OtherNode(s, s', g, g', i, j);
      }
    }
    forall p | p in s'.net
      ensures MsgOK(g', p)
    {
      if p in s.net {
        MsgStable(g, g', p);
      } else {
        assert PacketOK(g', i, p);
      }
    }
    assert s'.nodes.Keys == s.nodes.Keys;
  }
}
