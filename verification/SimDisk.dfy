// Writes completing, failing and being interrupted.
module SimDisk {
  import opened Logs
  import opened Transition
  import opened Local
  import opened Protocol
  import opened ProtocolEvents
  import opened ProtocolWrites
  import opened Cluster
  import opened Simulation
  import opened SimRelease
  import opened SimTargets
  import opened SimFollower
  import opened SimLeader
  import opened SimElection

  // ---------------------------------------------------------------- applying and compacting

  lemma CanKeep(r: Raft, i: Id, d: Durable, e: Durable)
    requires Inv(r) && i in r.disks && DiskRel(d, r.disks[i]) && WithMeta(e, d) == e && e.commit == d.commit
    ensures CanWrite(r, i, DiskOf(e, r.disks[i].log))
  {
    hide Inv;
    DiskFacts(r, i);
    assert SourceOK(r, i, d.term, d.commit);
  }

  lemma HandleApply(g: Ghost, net: set<Outbound>, i: Id, node: Node) returns (g': Ghost)
    requires Steady(g, net, i, node) && ValidDurable(node.durable)
    ensures
      var (node', out) := OnApply(node);
      Outcome(g, g', net, i, node', out.persist, out.send)
  {
    hide Steady, Outcome, Inv, CanWrite, Full, ValidTerms, Advances;
    SteadyFacts(g, net, i, node);
    var d := node.durable;
    if d.applied < d.commit {
      var target := d.(applied := d.applied + 1);
      TargetSameLog(d, target);
      CanKeep(g.r, i, d, target);
      SameFullLog(d, target, g.r.disks[i].log);
      g' := LeaderStage(g, net, i, node, target, StateUpdate);
    } else {
      g' := g;
      QuietSteady(g, net, i, node);
    }
  }

  lemma SameFullLog(d: Durable, e: Durable, l: Log)
    requires Full(d, l) && e.log == d.log && e.snapshotIndex == d.snapshotIndex && e.snapshotTerm == d.snapshotTerm
    ensures Full(e, l)
  {}

  lemma FullCompact(d: Durable, l: Log)
    requires Full(d, l) && ValidDurable(d)
    ensures Full(CompactTarget(d), l)
  {
    FullHasTerm(d, l, d.commit);
    assert l[d.snapshotIndex..][d.commit - d.snapshotIndex..] == l[d.commit..];
  }

  lemma HandleCompact(g: Ghost, net: set<Outbound>, i: Id, node: Node) returns (g': Ghost)
    requires Steady(g, net, i, node) && ValidDurable(node.durable)
    ensures
      var (node', out) := OnCompact(node);
      Outcome(g, g', net, i, node', out.persist, out.send)
  {
    hide Steady, Outcome, Inv, CanWrite, Full, ValidTerms, Advances;
    SteadyFacts(g, net, i, node);
    var d := node.durable;
    if d.applied == d.commit && d.commit != d.snapshotIndex {
      var target := CompactTarget(d);
      TargetCompact(d);
      CanKeep(g.r, i, d, target);
      FullCompact(d, g.r.disks[i].log);
      g' := LeaderStage(g, net, i, node, target, LocalCompaction);
    } else {
      g' := g;
      QuietSteady(g, net, i, node);
    }
  }

  // ---------------------------------------------------------------- completion

  function Completed(node: Node): Node
    requires node.pending.Some?
  {
    node.(pending := None, durable := node.pending.value.target)
  }

  function Landed(g: Ghost, r: Raft): Ghost {
    g.(r := r)
  }

  // The write w of i, applied in full: r is g.r after it.
  ghost predicate Lands(g: Ghost, r: Raft, i: Id, node: Node) {
    node.pending.Some? && i in g.staged && i in g.r.disks &&
    var d := DiskOf(node.pending.value.target, g.staged[i]);
    Inv(r) && Written(g.r, r, i, d) &&
    (d.term > g.r.disks[i].term && d.vote == Some(i) ==>
      Ballot(d.term, i) in r.cand && r.cand[Ballot(d.term, i)] == g.r.disks[i].log) &&
    (forall t :: t in g.r.lead ==> r.lead[t].top == Marked(g.r, i, t, d.term, d.commit))
  }

  lemma LandsMoves(g: Ghost, r: Raft, i: Id, node: Node)
    requires Lands(g, r, i, node)
    ensures GhostMoves(g, Landed(g, r), i) && r.disks[i] == DiskOf(node.pending.value.target, g.staged[i])
  {
    hide Inv, Grows;
  }

  // A leader's own write keeps it in office.
  lemma LandedLeader(g: Ghost, r: Raft, i: Id, node: Node)
    requires Lands(g, r, i, node) && LeaderOK(g, i, node) && LocalInv(node) && DiskRel(node.durable, g.r.disks[i])
    ensures LeaderOK(Landed(g, r), i, Completed(node))
  {
    hide Inv, Grows, ValidDurable, KeepsCommitted, ProgressOK, Full;
    if node.vol.role == Leader {
      var t := node.durable.term;
      LandsMoves(g, r, i, node);
      PeersStable(g, Landed(g, r), i, t, node.vol.peers);
      assert t in g.r.lead;
      LandedReign(g.r, r, t);
    }
  }

  lemma LandedReign(r: Raft, s: Raft, t: nat)
    requires Grows(r, s) && t in r.lead
    ensures t in s.lead && ReignGrows(r.lead[t], s.lead[t])
  {}

  // Nobody leads a term this member has not entered yet.
  lemma NotYetLed(r: Raft, i: Id, t: nat)
    requires Inv(r) && i in r.disks && t > r.disks[i].term
    ensures t in r.lead ==> r.lead[t].owner != i
  {
    hide BallotsOK, AcksOK, AllSafe, VotesSafe, CommittedOK, DisksCommitted, TopsOK, LogOK;
    if t in r.lead {
      assert ReignOK(r, t);
      assert r.lead[t].electors != {};
      var e :| e in r.lead[t].electors;
      assert VoteOK(r, Vote(t, e, r.lead[t].owner));
    }
  }

  lemma LandedCandidate(g: Ghost, r: Raft, i: Id, node: Node)
    requires Lands(g, r, i, node) && CandidateOK(g, i, node) && LocalInv(node) && DiskRel(node.durable, g.r.disks[i])
    requires Inv(g.r) && (node.pending.value.selfVote ==> node.vol.role == Candidate)
    ensures CandidateOK(Landed(g, r), i, Completed(node))
  {
    hide Inv, ValidDurable, KeepsCommitted, Full;
    if node.vol.role == Candidate {
      var t := node.pending.value.target.term;
      if node.pending.value.selfVote {
        NotYetLed(g.r, i, t);
      }
      if t in r.lead {
        assert ReignGrows(g.r.lead[t], r.lead[t]);
      }
    }
  }

  lemma LandedRead(g: Ghost, r: Raft, net: set<Outbound>, i: Id, node: Node)
    requires Lands(g, r, i, node) && ReadOK(g, net, i, node) && i in g.r.members && LeaderOK(g, i, node)
    ensures ReadOK(Landed(g, r), net, i, Completed(node))
  {
    hide Inv, Grows, ProgressOK, FloorOK, FreshReplies;
    LandsMoves(g, r, i, node);
    if node.vol.read.Some? {
      ReadGrows(g, Landed(g, r), net, net, i, i, node);
    }
  }

  lemma LandedMember(g: Ghost, r: Raft, net: set<Outbound>, i: Id, node: Node, w: PersistRequest)
    requires Inv(g.r) && SentLed(g) && i in g.r.members && MemberOK(g, net, i, node, Some(w)) && Lands(g, r, i, node)
    ensures Steady(Landed(g, r), net, i, Completed(node))
  {
    hide Inv, Grows, ReadOK, LeaderOK, CandidateOK, ValidTerms, KeepsCommitted, CanWrite, AfterOK, KindOK;
    LandedLeader(g, r, i, node);
    LandedCandidate(g, r, i, node);
    LandedRead(g, r, net, i, node);
    RaftMembers(g.r, r);
  }

  lemma LandedSettled(g: Ghost, r: Raft, net: set<Outbound>, i: Id, node: Node, w: PersistRequest)
    requires MemberOK(g, net, i, node, Some(w)) && Lands(g, r, i, node)
    ensures Settled(Landed(g, r), i, node.pending.value.target, node.pending.value.selfVote)
  {
    hide Inv, Grows, ReadOK, LeaderOK, ValidTerms, KeepsCommitted, CanWrite, AfterOK, KindOK;
  }

  lemma LandedAfter(g: Ghost, r: Raft, net: set<Outbound>, i: Id, node: Node, w: PersistRequest)
    requires MemberOK(g, net, i, node, Some(w)) && Lands(g, r, i, node)
    ensures i in r.disks
    ensures forall p :: p in node.pending.value.after ==>
      AfterOK(Landed(g, r), i, node.pending.value.target, r.disks[i].log, node.pending.value.selfVote, p)
  {
    hide Inv, Grows, ReadOK, LeaderOK, CandidateOK, ValidTerms, KeepsCommitted, CanWrite, AfterOK, KindOK;
    var pending := node.pending.value;
    LandsMoves(g, r, i, node);
    forall p | p in pending.after
      ensures AfterOK(Landed(g, r), i, pending.target, r.disks[i].log, pending.selfVote, p)
    {
      AfterStable(g, Landed(g, r), i, pending.target, g.staged[i], pending.selfVote, p);
    }
  }

  lemma Land(g: Ghost, net: set<Outbound>, i: Id, node: Node, w: PersistRequest) returns (r: Raft)
    requires Inv(g.r) && MemberOK(g, net, i, node, Some(w)) && node.pending.Some?
    ensures Lands(g, r, i, node)
  {
    hide Inv, Grows, ReadOK, LeaderOK, CandidateOK, ValidTerms, KeepsCommitted, CanWrite, AfterOK, KindOK;
    r := WriteKeeps(g.r, i, DiskOf(w.target, g.staged[i]));
  }

  // The durable image becomes the target and everything it justifies goes out.
  lemma Release(g: Ghost, net: set<Outbound>, i: Id, node: Node, w: PersistRequest) returns (g': Ghost)
    requires Inv(g.r) && SentLed(g) && i in g.r.members && MemberOK(g, net, i, node, Some(w)) && node.pending.Some?
    ensures Outcome(g, g', net, i, Completed(node), None, node.pending.value.after)
    ensures SentLed(g') && i in g'.r.disks && DiskRel(node.pending.value.target, g'.r.disks[i])
    ensures g'.r.members == g.r.members
  {
    hide Inv, Grows, MemberOK, PacketOK, AfterOK, DiskRel, Lands;
    var r := Land(g, net, i, node, w);
    LandsMoves(g, r, i, node);
    LandedMember(g, r, net, i, node, w);
    LandedSettled(g, r, net, i, node, w);
    LandedAfter(g, r, net, i, node, w);
    var after := node.pending.value.after;
    g' := ReleaseAll(Landed(g, r), i, node.pending.value.target, node.pending.value.selfVote, after);
    GhostTrans(g, Landed(g, r), g', i);
    AckMember(Landed(g, r), g', net, net + Sends(after), i, Completed(node), None);
    MovesMembers(g, g', i);
  }

  lemma MovesMembers(g: Ghost, g': Ghost, i: Id)
    requires GhostMoves(g, g', i) && SentLed(g)
    ensures g'.r.members == g.r.members && SentLed(g')
  {}

  // The rest of the step, on the network that already carries `a`.
  lemma OutcomeChain(g: Ghost, h: Ghost, k: Ghost, net: set<Outbound>, i: Id, m: Node, n: Node,
                     a: seq<Outbound>, b: seq<Outbound>)
    requires Outcome(g, h, net, i, m, None, a) && Outcome(h, k, net + Sends(a), i, n, None, b)
    requires k.r.disks == h.r.disks
    ensures Outcome(g, k, net, i, n, None, a + b)
  {
    hide Inv, Grows, MemberOK, MsgOK;
    GhostTrans(g, h, k, i);
    assert net + Sends(a) + Sends(b) == net + Sends(a + b);
    forall p | p in a + b
      ensures PacketOK(k, i, p)
    {
      if p in a {
        assert PacketOK(h, i, p);
        MsgStable(h, k, p);
      }
    }
  }

  lemma HandleCompleted(g: Ghost, net: set<Outbound>, i: Id, config: Config, node: Node, w: PersistRequest)
    returns (g': Ghost)
    requires Inv(g.r) && SentLed(g) && MemberOK(g, net, i, node, Some(w)) && ConfigOK(config, i, g.r.members)
    requires node.pending.Some? && !node.halted
    ensures
      var (node', out) := OnPersistCompleted(config, node, node.pending.value.token);
      Outcome(g, g', net, i, node', None, out.send) && out.persist == None
  {
    hide MemberOK, Outcome, CompleteRead, CountVote, ConfigOK, Inv, GhostMoves, DiskRel;
    var pending := node.pending.value;
    ConfigMember(config, i, g.r.members);
    var h := Release(g, net, i, node, w);
    var effects := NO_EFFECTS.(send := pending.after, apply := pending.applyAfter,
                               snapshotNeeded := pending.snapshotAfter);
    ReadDone(g, h, net, i, config, Completed(node), effects, None, pending.after);
    var (read, out) := CompleteRead(config, Completed(node), effects);
    if pending.selfVote {
      CompleteFrame(config, Completed(node), effects);
      SelfVoted(g, h, net, i, node, w, read);
      g' := HandleCount(h, net + Sends(pending.after), i, config, read, i);
      CountPrefix(config, read, out, i);
      OutcomeChain(g, h, g', net, i, read, CountVote(config, read, NO_EFFECTS, i).0, pending.after,
                   CountVote(config, read, NO_EFFECTS, i).1.send);
    } else {
      g' := h;
    }
  }

  lemma ConfigMember(config: Config, i: Id, members: set<Id>)
    requires ConfigOK(config, i, members)
    ensures i in members && config.self == i
  {}

  lemma CompleteFrame(config: Config, node: Node, effects: Effects)
    ensures SameDisk(node, CompleteRead(config, node, effects).0)
  {}

  // A candidate's own vote is on its disk.
  lemma SelfVoted(g: Ghost, h: Ghost, net: set<Outbound>, i: Id, node: Node, w: PersistRequest, read: Node)
    requires MemberOK(g, net, i, node, Some(w)) && node.pending.Some? && node.pending.value.selfVote && !node.halted
    requires Outcome(g, h, net, i, read, None, node.pending.value.after) && SameDisk(Completed(node), read)
    requires SentLed(h) && i in h.r.members && i in h.r.disks && DiskRel(node.pending.value.target, h.r.disks[i])
    ensures Steady(h, net + Sends(node.pending.value.after), i, read) && read.vol.role == Candidate
    ensures Vote(read.durable.term, i, i) in h.r.votes
  {
    hide Grows, DisksOK, BallotsOK, BallotsCast, ReignsOK, AcksOK, AllSafe, VotesSafe, CommittedOK, DisksCommitted,
      TopsOK, AfterOK, WriteOK, LeaderOK, ReadOK, LocalInv, PacketOK, Full, Stands;
  }

  // ---------------------------------------------------------------- failure

  // A failed write stops the member; the disk may hold any part of it.
  lemma HandleFailed(g: Ghost, net: set<Outbound>, i: Id, node: Node, token: nat, w: Option<PersistRequest>)
    requires Inv(g.r) && MemberOK(g, net, i, node, w)
    ensures Outcome(g, g, net, i, OnPersistFailed(node, token).0, w, [])
    ensures OnPersistFailed(node, token).1.persist == None && OnPersistFailed(node, token).1.send == []
  {
    hide Inv, ValidDurable, Advances, DiskRel, WriteOK, AfterOK;
    QuietOutcome(g, net, i, node, w);
    var node' := OnPersistFailed(node, token).0;
    assert node'.vol.peers.Keys == node.vol.peers.Keys;
    QuietOutcome(g, net, i, node', w);
  }

  lemma HandleCancel(g: Ghost, net: set<Outbound>, i: Id, node: Node, context: nat, w: Option<PersistRequest>)
    requires Inv(g.r) && MemberOK(g, net, i, node, w)
    ensures Outcome(g, g, net, i, OnCancelRead(node, context).0, w, [])
  {
    hide Inv, ValidDurable, Advances, DiskRel, WriteOK, AfterOK, ProgressOK, Stands;
    var node' := OnCancelRead(node, context).0;
    QuietOutcome(g, net, i, node', w);
  }

  // ---------------------------------------------------------------- crashes

  // Recovery finds a disk that an admissible write could have left.
  ghost predicate Recovers(r: Raft, i: Id, e: Durable, l: Log) {
    i in r.disks && ValidDurable(e) && e.term >= 1 && Full(e, l) && CanWrite(r, i, DiskOf(e, l))
  }

  lemma ReplayedOK(r: Raft, i: Id, d: Durable, l: Log)
    requires Recovers(r, i, d, l)
    ensures Recovers(r, i, Replayed(d), l)
  {
    hide CanWrite, ValidTerms;
  }

  lemma OldDisk(g: Ghost, i: Id, node: Node)
    requires Inv(g.r) && DiskOK(g, i, node)
    ensures Recovers(g.r, i, node.durable, g.r.disks[i].log)
  {
    hide Inv, CanWrite, ValidTerms, Advances;
    CanKeep(g.r, i, node.durable, node.durable);
  }

  lemma TermsRise(r: Raft, i: Id, d: Disk)
    requires CanWrite(r, i, d)
    ensures d.term >= r.disks[i].term && r.disks[i].commit <= d.commit
  {
    hide CommitOK, EntriesOK;
    assert CommitOK(r, i, d);
    CommitRises(r, i, d);
  }

  lemma CommitRises(r: Raft, i: Id, d: Disk)
    requires i in r.disks && CommitOK(r, i, d)
    ensures r.disks[i].commit <= d.commit && Agree(d.log, r.committed, d.commit)
  {}

  lemma NewDisk(g: Ghost, i: Id, node: Node, w: PersistRequest)
    requires DiskOK(g, i, node) && WriteOK(g, i, node.durable, w)
    ensures Recovers(g.r, i, w.target, g.staged[i])
  {
    hide CanWrite, ValidTerms, Advances, Full, KindOK;
    TermsRise(g.r, i, DiskOf(w.target, g.staged[i]));
  }

  // Term and vote are written first.
  lemma MetaDisk(g: Ghost, i: Id, node: Node, w: PersistRequest)
    requires Inv(g.r) && DiskOK(g, i, node) && WriteOK(g, i, node.durable, w)
    ensures Recovers(g.r, i, WithMeta(node.durable, w.target), g.r.disks[i].log)
  {
    hide Inv, ValidTerms, Advances, KindOK, CanGrant, Covers, Agree, SourceOK;
    var d, target := node.durable, w.target;
    TermsRise(g.r, i, DiskOf(target, g.staged[i]));
    LaterTerms(d, target.term);
    DiskFacts(g.r, i);
    SameFullLog(d, WithMeta(d, target), g.r.disks[i].log);
  }

  lemma LaterTerms(d: Durable, t: nat)
    requires ValidDurable(d) && t >= d.term
    ensures ValidTerms(d.log, d.snapshotTerm, t)
  {}

  // How far the old and the new full log coincide.
  lemma SharedPrefix(d: Durable, e: Durable, l: Log, m: Log, c: nat)
    requires Full(d, l) && Full(e, m) && d.snapshotIndex == e.snapshotIndex && Agree(l, m, c)
    ensures c <= d.snapshotIndex + CommonPrefix(d.log, e.log)
  {
    var si, k := d.snapshotIndex, CommonPrefix(d.log, e.log);
    if si + k < c {
      AgreeEntry(l, m, c, si + k);
    }
  }

  lemma SharedBase(d: Durable, e: Durable, l: Log, m: Log, c: nat)
    requires Full(d, l) && Full(e, m) && d.snapshotIndex == e.snapshotIndex && Agree(l, m, c) && d.snapshotIndex <= c
    ensures Agree(l, m, d.snapshotIndex + CommonPrefix(d.log, e.log))
  {
    var si, k := d.snapshotIndex, CommonPrefix(d.log, e.log);
    AgreeShorter(l, m, c, si);
    assert l[si..][..k] == m[si..][..k];
    PrefixJoin(l, m, si, si + k);
  }

  // Cutting the new log at or after the point where the old one leaves it.
  lemma CutCovers(l: Log, m: Log, lead: Log, c: nat, n: nat)
    requires Covers(m, l, lead) && Agree(l, m, c) && c <= n <= |m|
    requires c < |l| && c < |m| ==> l[c] != m[c]
    ensures m[..n] == l || Covers(m[..n], l, lead)
  {
    assert m[..n] <= lead;
    if c == |l| {
      assert l <= m[..n];
    } else if c == |m| {
      assert m[..n] == m;
    } else {
      assert ConflictAt(l, lead, c);
    }
  }

  // The partly written log in full.
  lemma PartFull(d: Durable, target: Durable, m: Log, n: nat)
    requires Full(target, m) && d.snapshotIndex == target.snapshotIndex && d.snapshotTerm == target.snapshotTerm
    requires n <= |target.log|
    ensures d.snapshotIndex + n <= |m| && Full(PartlyWritten(d, target, n), m[..d.snapshotIndex + n])
  {
    var k := d.snapshotIndex;
    assert m[..k + n][k..] == m[k..][..n];
  }

  lemma PartValid(d: Durable, target: Durable, n: nat)
    requires ValidDurable(d) && ValidDurable(target) && d.term <= target.term && n <= |target.log|
    requires d.snapshotIndex == target.snapshotIndex && d.snapshotTerm == target.snapshotTerm
    requires d.commit <= d.snapshotIndex + n
    ensures ValidDurable(PartlyWritten(d, target, n))
  {}

  lemma PartEntries(r: Raft, i: Id, d: Durable, target: Durable, m: Log, n: nat, c: nat)
    requires i in r.disks && Full(d, r.disks[i].log) && Full(target, m) && d.snapshotIndex == target.snapshotIndex
    requires EntriesOK(r, i, DiskOf(target, m)) && d.snapshotIndex <= c && Agree(r.disks[i].log, m, c)
    requires CommonPrefix(d.log, target.log) <= n <= |target.log|
    ensures EntriesOK(r, i, DiskOf(PartlyWritten(d, target, n), m[..d.snapshotIndex + n]))
  {
    hide Full, Covers, Agree, CommonPrefix;
    var l, p := r.disks[i].log, d.snapshotIndex + CommonPrefix(d.log, target.log);
    SharedPrefix(d, target, l, m, c);
    SharedBase(d, target, l, m, c);
    FullLength(d, l);
    FullLength(target, m);
    if m == l {
      SharedPrefix(d, target, l, l, AllAgree(l));
      assert m[..|m|] == m;
    } else {
      Diverge(d, target, l, m);
      CutCovers(l, m, r.lead[target.term].log, p, d.snapshotIndex + n);
    }
  }

  lemma FullLength(d: Durable, l: Log)
    requires Full(d, l)
    ensures |l| == d.snapshotIndex + |d.log|
  {}

  function AllAgree(l: Log): (n: nat)
    ensures Agree(l, l, n) && n == |l|
  {
    |l|
  }

  lemma Diverge(d: Durable, e: Durable, l: Log, m: Log)
    requires Full(d, l) && Full(e, m) && d.snapshotIndex == e.snapshotIndex
    ensures
      var p := d.snapshotIndex + CommonPrefix(d.log, e.log);
      p <= |l| && p <= |m| && (p < |l| && p < |m| ==> l[p] != m[p])
  {
    var k := CommonPrefix(d.log, e.log);
    if k < |d.log| && k < |e.log| {
      assert d.log[k] == l[d.snapshotIndex + k] && e.log[k] == m[d.snapshotIndex + k];
    }
  }

  // Entries are written after the cut, the commit index last.
  lemma PartDisk(g: Ghost, i: Id, node: Node, w: PersistRequest, n: nat)
    requires Inv(g.r) && DiskOK(g, i, node) && WriteOK(g, i, node.durable, w) && w.kind == StateUpdate
    requires CommonPrefix(node.durable.log, w.target.log) <= n <= |w.target.log|
    ensures
      var e := PartlyWritten(node.durable, w.target, n);
      e.snapshotIndex + n <= |g.staged[i]| && Recovers(g.r, i, e, g.staged[i][..e.snapshotIndex + n])
  {
    hide Inv, ValidTerms, Advances, CanGrant, Covers, Agree, SourceOK, EntriesOK, CommonPrefix;
    var d, target, m := node.durable, w.target, g.staged[i];
    TermsRise(g.r, i, DiskOf(target, m));
    DiskFacts(g.r, i);
    CommonCommitted(g.r.disks[i].log, m, g.r.committed, d.commit, target.commit);
    SharedPrefix(d, target, g.r.disks[i].log, m, d.commit);
    PartFull(d, target, m, n);
    PartValid(d, target, n);
    PartEntries(g.r, i, d, target, m, n, d.commit);
    CutAgrees(m, g.r.committed, target.commit, d.commit, d.snapshotIndex + n);
  }

  lemma CommonCommitted(l: Log, m: Log, committed: Log, c: nat, k: nat)
    requires Agree(l, committed, c) && Agree(m, committed, k) && c <= k
    ensures Agree(l, m, c)
  {
    AgreeShorter(m, committed, k, c);
  }

  lemma CutAgrees(m: Log, committed: Log, k: nat, c: nat, n: nat)
    requires Agree(m, committed, k) && c <= k && c <= n <= |m|
    ensures Agree(m[..n], committed, c)
  {
    AgreeShorter(m, committed, k, c);
    assert m[..n][..c] == m[..c];
  }

  // Every image recovery can find is one an admissible write could have left.
  lemma CrashRecovers(g: Ghost, net: set<Outbound>, i: Id, node: Node, w: Option<PersistRequest>, e: Durable)
    returns (l: Log)
    requires Inv(g.r) && MemberOK(g, net, i, node, w) && Recoverable(node.durable, w, e)
    ensures Recovers(g.r, i, e, l)
  {
    hide Inv, Recovers, LeaderOK, CandidateOK, ReadOK, LocalInv, DiskRel, CanWrite, Full, ValidDurable, KindOK, AfterOK,
      CommonPrefix, PartlyWritten, WithMeta, Replayed;
    var d := node.durable;
    if e == Replayed(d) {
      OldDisk(g, i, node);
      l := g.r.disks[i].log;
      ReplayedOK(g.r, i, d, l);
    } else {
      var v := w.value;
      assert WriteOK(g, i, d, v);
      if e == Replayed(v.target) {
        NewDisk(g, i, node, v);
        l := g.staged[i];
        ReplayedOK(g.r, i, v.target, l);
      } else if v.kind != LocalCompaction && e == Replayed(WithMeta(d, v.target)) {
        MetaDisk(g, i, node, v);
        l := g.r.disks[i].log;
        ReplayedOK(g.r, i, WithMeta(d, v.target), l);
      } else {
        var n: nat :| CommonPrefix(d.log, v.target.log) <= n <= |v.target.log| &&
                      e == Replayed(PartlyWritten(d, v.target, n));
        PartDisk(g, i, node, v, n);
        l := g.staged[i][..PartlyWritten(d, v.target, n).snapshotIndex + n];
        ReplayedOK(g.r, i, PartlyWritten(d, v.target, n), l);
      }
    }
  }

  // The restarted member is a follower with the recovered disk.
  lemma HandleCrash(g: Ghost, net: set<Outbound>, i: Id, config: Config, node: Node, w: Option<PersistRequest>,
                    e: Durable) returns (g': Ghost)
    requires Inv(g.r) && MemberOK(g, net, i, node, w) && Recoverable(node.durable, w, e)
    requires ConfigOK(config, i, g.r.members)
    ensures Outcome(g, g', net, i, Boot(config, e), None, [])
  {
    hide Inv, Grows, CanWrite, Recoverable, MemberOK, ValidDurable, Full;
    var l := CrashRecovers(g, net, i, node, w, e);
    var r := WriteKeeps(g.r, i, DiskOf(e, l));
    g' := Landed(g, r);
    assert r.disks[i] == DiskOf(e, l);
    RaftMembers(g.r, r);
    Booted(g', net, i, config, e, l);
    assert net + Sends([]) == net;
  }

  lemma RaftMembers(r: Raft, s: Raft)
    requires Grows(r, s)
    ensures s.members == r.members
  {}

  lemma Booted(g: Ghost, net: set<Outbound>, i: Id, config: Config, e: Durable, l: Log)
    requires ValidDurable(e) && e.term >= 1 && Full(e, l) && i in g.r.disks && g.r.disks[i] == DiskOf(e, l)
    requires ConfigOK(config, i, g.r.members)
    ensures MemberOK(g, net, i, Boot(config, e), None)
  {
    hide ValidDurable, Full;
    assert Boot(config, e).vol.peers.Keys == (set p | p in config.peers);
  }
}
