// What holds in every run of a cluster, stated on the nodes and packets alone.
module Safety {
  import opened Logs
  import opened Transition
  import opened Local
  import opened Protocol
  import opened ProtocolEvents
  import opened ProtocolWrites
  import opened Cluster
  import opened Requests
  import opened Simulation
  import opened SimTargets
  import opened SimLeader
  import opened SimSteps

  // ---------------------------------------------------------------- histories

  // gs is a history that explains the run.
  ghost predicate Explains(states: seq<State>, labels: seq<Label>, gs: seq<Ghost>) {
    |states| == |labels| + 1 && |gs| == |states| &&
    (forall k: nat :: k < |gs| ==> SimInv(states[k], gs[k])) &&
    (forall k: nat :: k < |labels| ==> GhostStep(states[k], gs[k], gs[k + 1], labels[k]))
  }

  lemma {:induction false} RunExplained(states: seq<State>, labels: seq<Label>) returns (gs: seq<Ghost>)
    requires Run(states, labels)
    ensures Explains(states, labels, gs)
    decreases |labels|
  {
    hide SimInv, GhostStep, Next, Init;
    if labels == [] {
      gs := [Start(states[0])];
      StartSim(states[0]);
    } else {
      var n := |labels| - 1;
      var before := RunExplained(states[..n + 1], labels[..n]);
      assert before[n] == before[|before| - 1];
      assert SimInv(states[..n + 1][n], before[n]);
      assert Next(states[n], states[n + 1], labels[n]);
      var g := StepSim(states[n], states[n + 1], before[n], labels[n]);
      gs := before + [g];
      forall k: nat | k < |labels|
        ensures GhostStep(states[k], gs[k], gs[k + 1], labels[k])
      {
        if k < n {
          assert GhostStep(states[..n + 1][k], before[k], before[k + 1], labels[..n][k]);
        }
      }
      forall k: nat | k < |gs|
        ensures SimInv(states[k], gs[k])
      {
        if k <= n {
          assert SimInv(states[..n + 1][k], before[k]);
        }
      }
    }
  }

  lemma {:induction false} HistoryGrows(states: seq<State>, labels: seq<Label>, gs: seq<Ghost>, j: nat, k: nat)
    requires Explains(states, labels, gs) && j <= k < |gs|
    ensures Grows(gs[j].r, gs[k].r)
    decreases k
  {
    hide SimInv, Grows;
    if j == k {
      GrowsRefl(gs[j].r);
    } else {
      HistoryGrows(states, labels, gs, j, k - 1);
      assert GhostStep(states[k - 1], gs[k - 1], gs[k - 1 + 1], labels[k - 1]);
      GrowsTrans(gs[j].r, gs[k - 1].r, gs[k].r);
    }
  }

  // Member i of states[k], seen through the history.
  lemma At(states: seq<State>, labels: seq<Label>, gs: seq<Ghost>, k: nat, i: Id)
    requires Explains(states, labels, gs) && k < |states| && i in states[k].nodes
    ensures Inv(gs[k].r) && i in gs[k].r.disks && i in states[k].writes
    ensures DiskRel(states[k].nodes[i].durable, gs[k].r.disks[i]) && ValidDurable(states[k].nodes[i].durable)
    ensures MemberOK(gs[k], states[k].net, i, states[k].nodes[i], states[k].writes[i])
    ensures gs[k].r.members == states[k].nodes.Keys
  {
    hide SimInv, GhostStep, Inv, DiskRel, ValidDurable, PendingOK, LeaderOK, CandidateOK, ReadOK, ConfigOK;
    assert SimInv(states[k], gs[k]);
    Located(states[k], gs[k], i);
    RaftFacts(states[k], gs[k]);
    DisksMembers(gs[k].r);
  }

  lemma DisksMembers(r: Raft)
    requires Inv(r)
    ensures r.disks.Keys == r.members
  {}

  // ---------------------------------------------------------------- elections

  predicate Leads(s: State, i: Id, t: nat) {
    i in s.nodes && s.nodes[i].vol.role == Leader && s.nodes[i].durable.term == t
  }

  lemma LeaderReigns(states: seq<State>, labels: seq<Label>, gs: seq<Ghost>, k: nat, i: Id, t: nat)
    requires Explains(states, labels, gs) && k < |states| && Leads(states[k], i, t)
    ensures t in gs[k].r.lead && gs[k].r.lead[t].owner == i && i in gs[k].r.disks
    ensures gs[k].r.disks[i].log <= gs[k].r.lead[t].log && gs[k].r.lead[t].top == states[k].nodes[i].durable.commit
    ensures forall n :: |gs[k].r.disks[i].log| <= n < |gs[k].r.lead[t].log| ==> gs[k].r.lead[t].log[n].term == t
    ensures PeersOK(gs[k], i, t, states[k].nodes[i].vol.peers)
  {
    hide Explains, Inv, DiskRel, ValidDurable, PendingOK, CandidateOK, ReadOK, ProgressOK;
    At(states, labels, gs, k, i);
  }

  // At most one node ever leads a term, whenever one looks.
  lemma ElectionSafety(states: seq<State>, labels: seq<Label>, j: nat, k: nat, a: Id, b: Id, t: nat)
    requires Run(states, labels) && j < |states| && k < |states|
    requires Leads(states[j], a, t) && Leads(states[k], b, t)
    ensures a == b
  {
    hide Explains, Run, Leads, PeersOK;
    var gs := RunExplained(states, labels);
    if j > k {
      ElectionSafety(states, labels, k, j, b, a, t);
    } else {
      Lengths(states, labels, gs);
      LeaderReigns(states, labels, gs, j, a, t);
      LeaderReigns(states, labels, gs, k, b, t);
      HistoryGrows(states, labels, gs, j, k);
      assert ReignGrows(gs[j].r.lead[t], gs[k].r.lead[t]);
    }
  }

  lemma Lengths(states: seq<State>, labels: seq<Label>, gs: seq<Ghost>)
    requires Explains(states, labels, gs)
    ensures |gs| == |states| == |labels| + 1
  {}

  // ---------------------------------------------------------------- logs

  // The latest point from which both moments can be judged.
  lemma Later(states: seq<State>, labels: seq<Label>, gs: seq<Ghost>, j: nat, k: nat) returns (m: nat)
    requires Explains(states, labels, gs) && j < |states| && k < |states|
    ensures m < |gs| && (m == j || m == k) && Grows(gs[j].r, gs[m].r) && Grows(gs[k].r, gs[m].r) && Inv(gs[m].r)
  {
    hide Explains, Grows, Inv;
    Lengths(states, labels, gs);
    m := if j <= k then k else j;
    HistoryGrows(states, labels, gs, j, m);
    HistoryGrows(states, labels, gs, k, m);
    HistoryInv(states, labels, gs, m);
  }

  lemma HistoryInv(states: seq<State>, labels: seq<Label>, gs: seq<Ghost>, m: nat)
    requires Explains(states, labels, gs) && m < |gs|
    ensures Inv(gs[m].r)
  {
    hide Inv, NodeOK, MsgOK, GhostStep, Configured;
    assert SimInv(states[m], gs[m]);
  }

  // d's retained entry at n, or its boundary term there.
  ghost predicate SameAt(d: Durable, e: Durable, n: nat) {
    DurableTermAt(d, n) == DurableTermAt(e, n) &&
    (d.snapshotIndex < n && e.snapshotIndex < n && n <= LastIndex(d) && n <= LastIndex(e) ==>
       EntryAt(d, n) == EntryAt(e, n))
  }

  predicate RetainedBy(d: Durable, n: nat) {
    d.snapshotIndex <= n <= LastIndex(d)
  }

  // Two images of logs that agree through n look the same wherever both reach.
  lemma SameImages(d: Durable, e: Durable, l: Log, m: Log, n: nat, k: nat)
    requires Full(d, l) && Full(e, m) && Agree(l, m, n) && k <= n && RetainedBy(d, k) && RetainedBy(e, k)
    ensures SameAt(d, e, k)
  {
    FullHasTerm(d, l, k);
    FullHasTerm(e, m, k);
    AgreeShorter(l, m, n, k);
    AgreeTermAt(l, m, k);
  }

  // Log matching: the same term at the same index means the same log up to there,
  // between any two nodes at any two moments.
  lemma LogMatching(states: seq<State>, labels: seq<Label>, j: nat, k: nat, a: Id, b: Id, n: nat, i: nat)
    requires Run(states, labels) && j < |states| && k < |states| && a in states[j].nodes && b in states[k].nodes
    requires
      var d, e := states[j].nodes[a].durable, states[k].nodes[b].durable;
      RetainedBy(d, n) && RetainedBy(e, n) && DurableTermAt(d, n) == DurableTermAt(e, n) &&
      i <= n && RetainedBy(d, i) && RetainedBy(e, i)
    ensures SameAt(states[j].nodes[a].durable, states[k].nodes[b].durable, i)
  {
    hide Run, Explains, MemberOK, Grows, Full, Inv, ValidDurable;
    var gs := RunExplained(states, labels);
    var d, e := states[j].nodes[a].durable, states[k].nodes[b].durable;
    At(states, labels, gs, j, a);
    At(states, labels, gs, k, b);
    Lengths(states, labels, gs);
    var l, m := gs[j].r.disks[a].log, gs[k].r.disks[b].log;
    FullSize(d, l);
    FullSize(e, m);
    var z := Later(states, labels, gs, j, k);
    DiskFacts(gs[j].r, a);
    DiskFacts(gs[k].r, b);
    LogOKStable(gs[j].r, gs[z].r, l);
    LogOKStable(gs[k].r, gs[z].r, m);
    FullHasTerm(d, l, n);
    FullHasTerm(e, m, n);
    SamePosition(gs[z].r, l, m, n);
    SameImages(d, e, l, m, n, i);
  }

  // ---------------------------------------------------------------- committed entries

  lemma CommittedAgree(states: seq<State>, labels: seq<Label>, gs: seq<Ghost>, j: nat, k: nat, a: Id, b: Id, n: nat)
    requires Explains(states, labels, gs) && j < |states| && k < |states| && a in states[j].nodes && b in states[k].nodes
    requires n <= states[j].nodes[a].durable.commit && n <= states[k].nodes[b].durable.commit
    ensures |gs| == |states| && a in gs[j].r.disks && b in gs[k].r.disks
    ensures Agree(gs[j].r.disks[a].log, gs[k].r.disks[b].log, n)
  {
    hide Explains, MemberOK, Full, Inv, ValidDurable;
    Lengths(states, labels, gs);
    At(states, labels, gs, j, a);
    At(states, labels, gs, k, b);
    var l, m := gs[j].r.disks[a].log, gs[k].r.disks[b].log;
    var z := Later(states, labels, gs, j, k);
    DiskFacts(gs[j].r, a);
    DiskFacts(gs[k].r, b);
    var c := gs[z].r.committed;
    AgreeExtend(l, gs[j].r.committed, c, gs[j].r.disks[a].commit);
    AgreeExtend(m, gs[k].r.committed, c, gs[k].r.disks[b].commit);
    AgreeShorter(l, c, gs[j].r.disks[a].commit, n);
    AgreeShorter(m, c, gs[k].r.disks[b].commit, n);
  }

  // State machine safety: any two nodes agree, at any two moments, on every
  // index both had committed: on the entry where both retain it, and on its term
  // where one or both have only the snapshot boundary left.
  lemma StateMachineSafety(states: seq<State>, labels: seq<Label>, j: nat, k: nat, a: Id, b: Id, n: nat)
    requires Run(states, labels) && j < |states| && k < |states| && a in states[j].nodes && b in states[k].nodes
    requires
      var d, e := states[j].nodes[a].durable, states[k].nodes[b].durable;
      n <= d.commit && n <= e.commit && RetainedBy(d, n) && RetainedBy(e, n)
    ensures SameAt(states[j].nodes[a].durable, states[k].nodes[b].durable, n)
  {
    hide Run, Explains, MemberOK, Full, Inv, ValidDurable;
    var gs := RunExplained(states, labels);
    CommittedAgree(states, labels, gs, j, k, a, b, n);
    At(states, labels, gs, j, a);
    At(states, labels, gs, k, b);
    SameImages(states[j].nodes[a].durable, states[k].nodes[b].durable, gs[j].r.disks[a].log, gs[k].r.disks[b].log, n, n);
  }

  lemma HeldEarlier(r: Raft, s: nat, t: nat, m: nat, len: nat)
    requires Own(r, s, m) && t in r.lead && s < t && Agree(r.lead[t].log, r.lead[s].log, m)
    requires forall k :: len <= k < |r.lead[t].log| ==> r.lead[t].log[k].term == t
    ensures m <= len
  {
    AgreeEntry(r.lead[t].log, r.lead[s].log, m, m - 1);
  }

  // A chosen prefix and the committed prefix coincide.
  lemma ChosenCommitted(s: Raft, q: nat, m: nat, n: nat)
    requires CommittedOK(s) && AllSafe(s) && Own(s, q, m) && Chosen(s, q, m) && n <= m && n <= |s.committed|
    ensures Agree(s.lead[q].log, s.committed, n)
  {
    hide Chosen, AllSafe;
    if s.committed == [] {
      assert s.lead[q].log[..0] == s.committed[..0];
    } else {
      var c := |s.committed|;
      ChosenAgree(s, s.chooser, c, q, m);
      AgreeShorter(s.lead[s.chooser].log, s.lead[q].log, if c <= m then c else m, n);
      assert s.committed[..n] == s.lead[s.chooser].log[..n];
    }
  }

  // l is the durable part of the log of t's leader: it holds everything a member
  // had committed in a term up to t.
  lemma CommitStands(r: Raft, s: Raft, a: Id, t: nat, l: Log, n: nat)
    requires Inv(r) && Inv(s) && Grows(r, s) && a in r.disks && t in s.lead && n <= r.disks[a].commit
    requires r.disks[a].term <= t && l <= s.lead[t].log && Agree(l, s.committed, s.lead[t].top)
    requires forall k :: |l| <= k < |s.lead[t].log| ==> s.lead[t].log[k].term == t
    ensures Agree(l, s.committed, n)
  {
    hide DisksOK, BallotsOK, BallotsCast, VotesOK, VotesSafe, AcksOK, CommittedOK, LogOK, Agree, AllSafe, ReignsOK, Chosen,
      Own;
    var c := r.disks[a].commit;
    assert DiskCommitted(r, a);
    CommittedLength(r.disks[a].log, r.committed, c);
    if c == 0 {
      AgreeNothing(l, s.committed);
    } else {
      var u: nat :| u <= r.disks[a].term && Sourced(r, u, c);
      assert ReignGrows(r.lead[u], s.lead[u]);
      if u < t {
        var q: nat, m: nat :| ChosenFrom(r, q, m, u, r.lead[u].top);
        EarlierStands(r, s, q, m, t, l, n);
      } else {
        AgreeShorter(l, s.committed, s.lead[t].top, n);
      }
    }
  }

  // What an earlier term chose is in the durable part of a later leader's log.
  lemma EarlierStands(r: Raft, s: Raft, q: nat, m: nat, t: nat, l: Log, n: nat)
    requires Inv(s) && Grows(r, s) && Own(r, q, m) && Chosen(r, q, m) && q < t && t in s.lead && n <= m
    requires n <= |s.committed| && l <= s.lead[t].log
    requires forall k :: |l| <= k < |s.lead[t].log| ==> s.lead[t].log[k].term == t
    ensures Agree(l, s.committed, n)
  {
    hide DisksOK, BallotsOK, BallotsCast, VotesOK, VotesSafe, AcksOK, CommittedOK, LogOK, Agree, DisksCommitted;
    OwnStable(r, s, q, m);
    ChosenStable(r, s, q, m);
    ChosenNotDead(s, q, m);
    assert SafeAt(s, q, t, m);
    HeldEarlier(s, q, t, m, |l|);
    ChosenCommitted(s, q, m, n);
    JoinAgree(l, s.lead[t].log, s.lead[q].log, s.committed, m, n);
  }

  lemma CommittedLength(l: Log, committed: Log, c: nat)
    requires Agree(l, committed, c)
    ensures c <= |committed|
  {}

  lemma AgreeNothing(a: Log, b: Log)
    ensures Agree(a, b, 0)
  {}

  lemma JoinAgree(l: Log, lead: Log, chosen: Log, committed: Log, m: nat, n: nat)
    requires l <= lead && n <= m <= |l| && Agree(lead, chosen, m) && Agree(chosen, committed, n)
    ensures Agree(l, committed, n)
  {
    AgreeShorter(lead, chosen, m, n);
    assert l[..n] == lead[..n];
  }

  // Leader completeness: what a node had committed in some term is in the log of
  // every leader of that or a later term from then on.
  lemma LeaderCompleteness(states: seq<State>, labels: seq<Label>, j: nat, k: nat, a: Id, b: Id, t: nat, n: nat)
    requires Run(states, labels) && j <= k < |states| && a in states[j].nodes && Leads(states[k], b, t)
    requires states[j].nodes[a].durable.term <= t && n <= states[j].nodes[a].durable.commit
    ensures n <= LastIndex(states[k].nodes[b].durable)
    ensures RetainedBy(states[j].nodes[a].durable, n) && RetainedBy(states[k].nodes[b].durable, n) ==>
              SameAt(states[j].nodes[a].durable, states[k].nodes[b].durable, n)
  {
    hide Run, Explains, MemberOK, Inv, ValidDurable, PeersOK, Leads, Full, Agree;
    var gs := RunExplained(states, labels);
    Lengths(states, labels, gs);
    LeadsNode(states[k], b, t);
    At(states, labels, gs, j, a);
    At(states, labels, gs, k, b);
    LeaderReigns(states, labels, gs, k, b, t);
    HistoryGrows(states, labels, gs, j, k);
    var l, m := gs[j].r.disks[a].log, gs[k].r.disks[b].log;
    FullSize(states[k].nodes[b].durable, m);
    DiskFacts(gs[j].r, a);
    DiskFacts(gs[k].r, b);
    CommitStands(gs[j].r, gs[k].r, a, t, m, n);
    BothAgree(l, m, gs[j].r.committed, gs[k].r.committed, gs[j].r.disks[a].commit, n);
    if RetainedBy(states[j].nodes[a].durable, n) && RetainedBy(states[k].nodes[b].durable, n) {
      SameImages(states[j].nodes[a].durable, states[k].nodes[b].durable, l, m, n, n);
    }
  }

  lemma LeadsNode(s: State, i: Id, t: nat)
    requires Leads(s, i, t)
    ensures i in s.nodes
  {}

  lemma FullSize(d: Durable, l: Log)
    requires Full(d, l)
    ensures |l| == LastIndex(d)
  {}

  lemma BothAgree(l: Log, m: Log, c: Log, c': Log, k: nat, n: nat)
    requires Agree(l, c, k) && c <= c' && n <= k && Agree(m, c', n)
    ensures Agree(l, m, n) && n <= |m|
  {
    AgreeShorter(l, c, k, n);
    AgreeExtend(l, c, c', n);
  }

  // ---------------------------------------------------------------- progress and replies

  // e holds d's log through n wherever both retain it.
  ghost predicate HoldsThrough(d: Durable, e: Durable, n: nat) {
    n <= LastIndex(d) && n <= LastIndex(e) &&
    forall k: nat {:trigger RetainedBy(d, k)} :: k <= n && RetainedBy(d, k) && RetainedBy(e, k) ==> SameAt(d, e, k)
  }

  lemma AgreeHolds(d: Durable, e: Durable, l: Log, m: Log, n: nat)
    requires Full(d, l) && Full(e, m) && Agree(l, m, n)
    ensures HoldsThrough(d, e, n)
  {
    forall k: nat | k <= n && RetainedBy(d, k) && RetainedBy(e, k)
      ensures SameAt(d, e, k)
    {
      SameImages(d, e, l, m, n, k);
    }
  }

  // An acknowledgement stays true until its member's term moves on.
  lemma AckHeld(r: Raft, a: Ack)
    requires Inv(r) && a in r.acks
    ensures a.id in r.disks && a.term in r.lead && a.term <= r.disks[a.id].term
    ensures r.disks[a.id].term == a.term ==> Agree(r.disks[a.id].log, r.lead[a.term].log, a.index)
  {
    hide DisksOK, BallotsOK, BallotsCast, VotesOK, ReignsOK, AllSafe, VotesSafe, CommittedOK, DisksCommitted, TopsOK;
    assert AckOK(r, a);
  }

  lemma LeaderImage(states: seq<State>, labels: seq<Label>, gs: seq<Ghost>, k: nat, i: Id, t: nat)
    requires Explains(states, labels, gs) && k < |states| && Leads(states[k], i, t)
    ensures t in gs[k].r.lead && Full(Newest(states[k].nodes[i]), gs[k].r.lead[t].log)
  {
    hide Explains, Inv, ValidDurable, Advances, CandidateOK, ReadOK, ProgressOK, CanWrite, AfterOK, KindOK;
    At(states, labels, gs, k, i);
  }

  // Leader progress is truthful: a peer that is still in the leader's term durably
  // holds the leader's log through the recorded match.
  lemma ProgressTruthful(states: seq<State>, labels: seq<Label>, k: nat, i: Id, t: nat, p: Id)
    requires Run(states, labels) && k < |states| && Leads(states[k], i, t) && p in states[k].nodes[i].vol.peers
    requires p in states[k].nodes && states[k].nodes[p].durable.term == t
    ensures HoldsThrough(Newest(states[k].nodes[i]), states[k].nodes[p].durable, states[k].nodes[i].vol.peers[p].matched)
  {
    hide Run, Explains, MemberOK, Inv, ValidDurable, Full, Agree, HoldsThrough, ProbeOK, BoundaryOK;
    var gs := RunExplained(states, labels);
    Lengths(states, labels, gs);
    LeaderReigns(states, labels, gs, k, i, t);
    LeaderImage(states, labels, gs, k, i, t);
    At(states, labels, gs, k, p);
    var n := states[k].nodes[i].vol.peers[p].matched;
    assert ProgressOK(gs[k], i, t, p, states[k].nodes[i].vol.peers[p]);
    var l, m := gs[k].r.lead[t].log, gs[k].r.disks[p].log;
    if n == 0 {
      AgreeNothing(l, m);
    } else {
      AckHeld(gs[k].r, Ack(t, p, n));
      AgreeBack(l, m, n);
    }
    AgreeHolds(Newest(states[k].nodes[i]), states[k].nodes[p].durable, l, m, n);
  }

  lemma AgreeBack(l: Log, m: Log, n: nat)
    requires Agree(m, l, n)
    ensures Agree(l, m, n)
  {}

  lemma Packet(states: seq<State>, labels: seq<Label>, gs: seq<Ghost>, k: nat, p: Outbound)
    requires Explains(states, labels, gs) && k < |states| && p in states[k].net
    ensures MsgOK(gs[k], p) && Inv(gs[k].r)
  {
    hide MsgOK, Inv, GhostStep, NodeOK, Configured;
    assert SimInv(states[k], gs[k]);
  }

  lemma MemberNode(states: seq<State>, labels: seq<Label>, gs: seq<Ghost>, k: nat, i: Id)
    requires Explains(states, labels, gs) && k < |states| && i in gs[k].r.disks
    ensures i in states[k].nodes && DiskRel(states[k].nodes[i].durable, gs[k].r.disks[i])
  {
    hide SimInv, Explains, MemberOK, Inv, ValidDurable, DiskRel;
    HistoryMembers(states, labels, gs, k);
    At(states, labels, gs, k, i);
  }

  lemma HistoryMembers(states: seq<State>, labels: seq<Label>, gs: seq<Ghost>, k: nat)
    requires Explains(states, labels, gs) && k < |states|
    ensures gs[k].r.disks.Keys == states[k].nodes.Keys
  {
    hide SimInv, Inv, GhostStep;
    assert SimInv(states[k], gs[k]);
    RaftFacts(states[k], gs[k]);
    DisksMembers(gs[k].r);
  }

  // Every granted vote ever sent is backed by its sender's disk: a later term, or
  // the same term with the vote for that candidate.
  lemma GrantBacked(states: seq<State>, labels: seq<Label>, k: nat, p: Outbound)
    requires Run(states, labels) && k < |states| && p in states[k].net && p.message.VoteReply? && p.message.granted
    ensures p.message.voter in states[k].nodes
    ensures
      var d := states[k].nodes[p.message.voter].durable;
      d.term > p.message.term || (d.term == p.message.term && d.votedFor == Some(p.to))
  {
    hide Run, Explains, Full, DisksOK, BallotsOK, BallotsCast, ReignsOK, AcksOK, AllSafe, VotesSafe, CommittedOK,
      DisksCommitted, TopsOK;
    var gs := RunExplained(states, labels);
    Lengths(states, labels, gs);
    Packet(states, labels, gs, k, p);
    assert VoteOK(gs[k].r, Vote(p.message.term, p.message.voter, p.to));
    MemberNode(states, labels, gs, k, p.message.voter);
  }

  // The entries m carries are on d.
  ghost predicate Carries(d: Durable, m: Message)
    requires m.AppendEntries?
  {
    m.prevIndex + |m.entries| <= LastIndex(d) &&
    (RetainedBy(d, m.prevIndex) ==> DurableTermAt(d, m.prevIndex) == Some(m.prevTerm)) &&
    forall k: nat :: k < |m.entries| && d.snapshotIndex <= m.prevIndex + k ==>
      EntryAt(d, m.prevIndex + k + 1) == m.entries[k]
  }

  // A positive append reply is backed by its sender's disk for every request of
  // that number: a later term, or the same term with the log of the request.
  lemma RequestBacked(states: seq<State>, labels: seq<Label>, k: nat, p: Outbound, q: Outbound)
    requires Run(states, labels) && k < |states| && p in states[k].net && q in states[k].net
    requires p.message.AppendReply? && p.message.success && q.message.AppendEntries?
    requires q.message.leader == p.to && q.message.term == p.message.term && q.message.requestId == p.message.requestId
    ensures p.message.follower in states[k].nodes && p.message.matched == q.message.prevIndex + |q.message.entries|
    ensures
      var d := states[k].nodes[p.message.follower].durable;
      d.term > p.message.term || (d.term == p.message.term && Carries(d, q.message))
  {
    hide Run, Explains, Full, Inv, Agree, Carries;
    var gs := RunExplained(states, labels);
    Lengths(states, labels, gs);
    Packet(states, labels, gs, k, p);
    Packet(states, labels, gs, k, q);
    var g := gs[k];
    AckHeld(g.r, Ack(p.message.term, p.message.follower, p.message.matched));
    MemberNode(states, labels, gs, k, p.message.follower);
    var d := states[k].nodes[p.message.follower].durable;
    if d.term == p.message.term {
      HeldCarries(d, g.r.disks[p.message.follower].log, g.r.lead[d.term].log, q.message);
    }
  }

  // Every positive append reply ever sent answers a request that was sent, and is
  // backed by its sender's disk: a later term, or the same term with the entries
  // of that request.
  lemma ReplyBacked(states: seq<State>, labels: seq<Label>, k: nat, p: Outbound) returns (q: Outbound)
    requires Run(states, labels) && k < |states| && p in states[k].net && p.message.AppendReply? && p.message.success
    ensures q in states[k].net && q.to == p.message.follower && q.message.AppendEntries? && Replies(q.to, q.message, p)
    ensures p.message.follower in states[k].nodes
    ensures
      var d := states[k].nodes[p.message.follower].durable;
      d.term > p.message.term || (d.term == p.message.term && Carries(d, q.message))
  {
    hide Run, Carries;
    q := RequestOf(states, labels, k, p);
    RequestBacked(states, labels, k, p, q);
  }

  // The request a positive reply answers.
  lemma RequestOf(states: seq<State>, labels: seq<Label>, k: nat, p: Outbound) returns (q: Outbound)
    requires Run(states, labels) && k < |states| && p in states[k].net && Succeeds(p)
    ensures q in states[k].net && Replies(q.to, q.message, p)
  {
    hide Run, Replies, KeepsAppends;
    RunAsks(states, labels, k);
    assert Asked(states[k].net, p);
    q :| q in states[k].net && Replies(q.to, q.message, p);
  }

  lemma HeldCarries(d: Durable, l: Log, lead: Log, m: Message)
    requires Full(d, l) && m.AppendEntries? && Agree(l, lead, m.prevIndex + |m.entries|)
    requires lead[m.prevIndex..m.prevIndex + |m.entries|] == m.entries && m.prevTerm == TermAt(lead, m.prevIndex)
    ensures Carries(d, m)
  {
    var end := m.prevIndex + |m.entries|;
    AgreeShorter(l, lead, end, m.prevIndex);
    AgreeTermAt(l, lead, m.prevIndex);
    if RetainedBy(d, m.prevIndex) {
      FullHasTerm(d, l, m.prevIndex);
    }
    forall k: nat | k < |m.entries| && d.snapshotIndex <= m.prevIndex + k
      ensures EntryAt(d, m.prevIndex + k + 1) == m.entries[k]
    {
      AgreeEntry(l, lead, end, m.prevIndex + k);
      assert m.entries[k] == lead[m.prevIndex + k];
      assert d.log[m.prevIndex + k - d.snapshotIndex] == l[m.prevIndex + k];
    }
  }

  // A positive snapshot reply is backed by its sender's commit index, and the
  // boundary carries the term of every request for that index.
  lemma OfferBacked(states: seq<State>, labels: seq<Label>, k: nat, p: Outbound, q: Outbound)
    requires Run(states, labels) && k < |states| && p in states[k].net && p.message.SnapshotReply? && p.message.success
    requires q in states[k].net && q.message.SnapshotRequest? && q.message.index == p.message.index
    ensures p.message.follower in states[k].nodes
    ensures
      var d := states[k].nodes[p.message.follower].durable;
      p.message.index <= d.commit &&
      (RetainedBy(d, p.message.index) ==> DurableTermAt(d, p.message.index) == Some(q.message.snapshotTerm))
  {
    hide Run, Explains, Full, Inv, Agree;
    var gs := RunExplained(states, labels);
    Lengths(states, labels, gs);
    Packet(states, labels, gs, k, p);
    Packet(states, labels, gs, k, q);
    var f, x := p.message.follower, p.message.index;
    MemberNode(states, labels, gs, k, f);
    DiskFacts(gs[k].r, f);
    var d := states[k].nodes[f].durable;
    AgreeShorter(gs[k].r.disks[f].log, gs[k].r.committed, d.commit, x);
    AgreeTermAt(gs[k].r.disks[f].log, gs[k].r.committed, x);
    if RetainedBy(d, x) {
      FullSize(d, gs[k].r.disks[f].log);
      FullHasTerm(d, gs[k].r.disks[f].log, x);
    }
  }

  // Every positive snapshot reply ever sent answers a request that was sent; its
  // sender has committed the boundary, which carries the offered term.
  lemma SnapshotReplyBacked(states: seq<State>, labels: seq<Label>, k: nat, p: Outbound) returns (q: Outbound)
    requires Run(states, labels) && k < |states| && p in states[k].net && p.message.SnapshotReply? && p.message.success
    ensures q in states[k].net && q.to == p.message.follower && q.message.SnapshotRequest? && Replies(q.to, q.message, p)
    ensures p.message.follower in states[k].nodes
    ensures
      var d := states[k].nodes[p.message.follower].durable;
      p.message.index <= d.commit &&
      (RetainedBy(d, p.message.index) ==> DurableTermAt(d, p.message.index) == Some(q.message.snapshotTerm))
  {
    hide Run, DurableTermAt;
    q := RequestOf(states, labels, k, p);
    OfferBacked(states, labels, k, p, q);
  }
}
