// Raft seen only through what reaches disk. A state records every member's
// durable term, vote, log (counted from the first entry ever, as if nothing had
// been compacted) and commit index, together with the history the safety
// argument needs: the log each candidate stood with, every vote and
// acknowledgement, the longest log of every elected leader and the committed
// prefix. Messages, roles and pending writes do not appear.
module Protocol {
  import opened Logs

  datatype Disk = Disk(term: nat, vote: Option<Id>, log: Log, commit: nat)

  datatype Ballot = Ballot(term: nat, candidate: Id)
  datatype Vote = Vote(term: nat, voter: Id, candidate: Id)
  // id durably held the leader's log through index while its term was `term`.
  datatype Ack = Ack(term: nat, id: Id, index: nat)
  // The leader of a term: who elected it, its log (staged entries included) and
  // the highest commit index it made durable.
  datatype Reign = Reign(owner: Id, electors: set<Id>, log: Log, top: nat)

  datatype Raft = Raft(
    members: set<Id>,
    disks: map<Id, Disk>,
    cand: map<Ballot, Log>,
    votes: set<Vote>,
    lead: map<nat, Reign>,
    acks: set<Ack>,
    committed: Log,
    chooser: nat)

  // ---------------------------------------------------------------- vocabulary

  // Position n of term t's leader log holds an entry created in term t.
  predicate Own(r: Raft, t: nat, n: nat) {
    t in r.lead && 1 <= n <= |r.lead[t].log| && r.lead[t].log[n - 1].term == t
  }

  ghost predicate AckedTo(r: Raft, t: nat, i: Id, n: nat) {
    exists k: nat :: k >= n && Ack(t, i, k) in r.acks
  }

  ghost predicate SealedBy(r: Raft, t: nat, n: nat, q: set<Id>) {
    Quorum(r.members, q) &&
    forall i :: i in q ==> i in r.disks && r.disks[i].term > t && !AckedTo(r, t, i, n)
  }

  // A quorum has moved past term t without acknowledging n: (t, n) can never be chosen.
  ghost predicate Dead(r: Raft, t: nat, n: nat) {
    exists q :: SealedBy(r, t, n, q)
  }

  ghost predicate ChosenBy(r: Raft, t: nat, n: nat, q: set<Id>) {
    Quorum(r.members, q) && forall i :: i in q ==> AckedTo(r, t, i, n)
  }

  ghost predicate Chosen(r: Raft, t: nat, n: nat) {
    exists q :: ChosenBy(r, t, n, q)
  }

  // The prefix of l ending at position k+1 is a prefix of its last entry's leader log.
  ghost predicate Backed(r: Raft, l: Log, k: nat)
    requires k < |l|
  {
    l[k].term in r.lead && Agree(l, r.lead[l[k].term].log, k + 1)
  }

  ghost predicate LogOK(r: Raft, l: Log) {
    forall k: nat :: k < |l| ==> Backed(r, l, k)
  }

  predicate TermsUpTo(l: Log, t: nat) {
    forall k :: 0 <= k < |l| ==> l[k].term <= t
  }

  predicate TermsBelow(l: Log, t: nat) {
    forall k :: 0 <= k < |l| ==> l[k].term < t
  }

  // ---------------------------------------------------------------- invariants

  ghost predicate DisksOK(r: Raft) {
    r.disks.Keys == r.members &&
    forall i :: i in r.disks ==> LogOK(r, r.disks[i].log) && TermsUpTo(r.disks[i].log, r.disks[i].term)
  }

  ghost predicate BallotsOK(r: Raft) {
    forall b :: b in r.cand ==>
      LogOK(r, r.cand[b]) && TermsBelow(r.cand[b], b.term)
  }

  ghost predicate BallotsCast(r: Raft) {
    forall b :: b in r.cand ==> b.candidate in r.disks && b.term <= r.disks[b.candidate].term
  }

  ghost predicate VoteOK(r: Raft, v: Vote) {
    v.voter in r.disks && Ballot(v.term, v.candidate) in r.cand &&
    v.term <= r.disks[v.voter].term &&
    (v.term == r.disks[v.voter].term ==> r.disks[v.voter].vote == Some(v.candidate))
  }

  ghost predicate VotesOK(r: Raft) {
    (forall v :: v in r.votes ==> VoteOK(r, v)) &&
    (forall v, w :: v in r.votes && w in r.votes && v.term == w.term && v.voter == w.voter ==> v == w) &&
    (forall i :: i in r.disks && r.disks[i].vote.Some? ==>
      Vote(r.disks[i].term, i, r.disks[i].vote.value) in r.votes)
  }

  ghost predicate ReignOK(r: Raft, t: nat)
    requires t in r.lead
  {
    var g := r.lead[t];
    LogOK(r, g.log) && TermsUpTo(g.log, t) && g.owner in r.members &&
    Quorum(r.members, g.electors) &&
    (forall e :: e in g.electors ==> Vote(t, e, g.owner) in r.votes)
  }

  ghost predicate ReignsOK(r: Raft) {
    forall t :: t in r.lead ==> ReignOK(r, t)
  }

  // What acknowledging position n in term t leaves behind on i's disk.
  ghost predicate Kept(r: Raft, t: nat, i: Id, n: nat)
    requires t in r.lead && i in r.disks
  {
    Agree(r.disks[i].log, r.lead[t].log, n) || Dead(r, t, n)
  }

  ghost predicate AckOK(r: Raft, a: Ack) {
    a.term in r.lead && a.id in r.disks && a.term <= r.disks[a.id].term &&
    a.index <= |r.lead[a.term].log| &&
    (r.disks[a.id].term == a.term ==> Agree(r.disks[a.id].log, r.lead[a.term].log, a.index)) &&
    forall n: nat {:trigger Kept(r, a.term, a.id, n)} :: n <= a.index && Own(r, a.term, n) ==> Kept(r, a.term, a.id, n)
  }

  ghost predicate AcksOK(r: Raft) {
    forall a :: a in r.acks ==> AckOK(r, a)
  }

  // A later leader either has the earlier leader's entry or it was never choosable.
  ghost predicate SafeAt(r: Raft, t: nat, u: nat, n: nat)
    requires t in r.lead && u in r.lead
  {
    Agree(r.lead[u].log, r.lead[t].log, n) || Dead(r, t, n)
  }

  ghost predicate AllSafe(r: Raft) {
    forall t: nat, u: nat, n: nat {:trigger SafeAt(r, t, u, n)} ::
      u in r.lead && t < u && Own(r, t, n) ==> SafeAt(r, t, u, n)
  }

  // What a vote says about the candidate's log.
  ghost predicate VoteCovers(r: Raft, v: Vote, a: Ack, n: nat)
    requires Ballot(v.term, v.candidate) in r.cand && a.term in r.lead
  {
    Agree(r.cand[Ballot(v.term, v.candidate)], r.lead[a.term].log, n) || Dead(r, a.term, n)
  }

  ghost predicate VotesSafe(r: Raft)
    requires VotesOK(r)
  {
    forall v: Vote, a: Ack, n: nat {:trigger VoteCovers(r, v, a, n)} ::
      v in r.votes && a in r.acks && a.id == v.voter && a.term < v.term && n <= a.index && Own(r, a.term, n)
      ==> VoteCovers(r, v, a, n)
  }

  ghost predicate CommittedOK(r: Raft) {
    r.committed == [] ||
    (Own(r, r.chooser, |r.committed|) && Chosen(r, r.chooser, |r.committed|) &&
     r.committed <= r.lead[r.chooser].log)
  }

  // Commit index c of a log came from the leader of term t.
  predicate Sourced(r: Raft, t: nat, c: nat) {
    t in r.lead && c <= r.lead[t].top
  }

  ghost predicate DiskCommitted(r: Raft, i: Id)
    requires i in r.disks
  {
    Agree(r.disks[i].log, r.committed, r.disks[i].commit) &&
    (r.disks[i].commit == 0 || exists t: nat :: t <= r.disks[i].term && Sourced(r, t, r.disks[i].commit))
  }

  ghost predicate DisksCommitted(r: Raft) {
    forall i :: i in r.disks ==> DiskCommitted(r, i)
  }

  // A commit index c recorded in term t was chosen in some term up to t.
  ghost predicate ChosenFrom(r: Raft, s: nat, n: nat, t: nat, c: nat) {
    s <= t && c <= n && Own(r, s, n) && Chosen(r, s, n)
  }

  ghost predicate TopsOK(r: Raft) {
    forall t :: t in r.lead ==> r.lead[t].top == 0 || exists s: nat, n: nat :: ChosenFrom(r, s, n, t, r.lead[t].top)
  }

  ghost predicate Inv(r: Raft) {
    DisksOK(r) && BallotsOK(r) && BallotsCast(r) && VotesOK(r) && ReignsOK(r) && AcksOK(r) && AllSafe(r) &&
    VotesSafe(r) && CommittedOK(r) && DisksCommitted(r) && TopsOK(r)
  }

  ghost predicate InvButCast(r: Raft) {
    DisksOK(r) && BallotsOK(r) && VotesOK(r) && ReignsOK(r) && AcksOK(r) && AllSafe(r) &&
    VotesSafe(r) && CommittedOK(r) && DisksCommitted(r) && TopsOK(r)
  }

  // ---------------------------------------------------------------- growth

  predicate ReignGrows(a: Reign, b: Reign) {
    a.owner == b.owner && a.electors == b.electors && a.log <= b.log && a.top <= b.top
  }

  // s can follow r: nothing recorded is forgotten, and a new acknowledgement is
  // never for a term its member had already left.
  ghost predicate Grows(r: Raft, s: Raft) {
    s.members == r.members && s.disks.Keys == r.disks.Keys &&
    (forall i :: i in r.disks ==> r.disks[i].term <= s.disks[i].term && r.disks[i].commit <= s.disks[i].commit) &&
    (forall b :: b in r.cand ==> b in s.cand && s.cand[b] == r.cand[b]) &&
    r.votes <= s.votes &&
    (forall t :: t in r.lead ==> t in s.lead && ReignGrows(r.lead[t], s.lead[t])) &&
    r.acks <= s.acks &&
    (forall a :: a in s.acks && a !in r.acks ==> a.id in r.disks && r.disks[a.id].term <= a.term) &&
    r.committed <= s.committed
  }

  lemma GrowsRefl(r: Raft)
    ensures Grows(r, r)
  {}

  lemma GrowsTrans(r: Raft, s: Raft, u: Raft)
    requires Grows(r, s) && Grows(s, u)
    ensures Grows(r, u)
  {}

  lemma OwnStable(r: Raft, s: Raft, t: nat, n: nat)
    requires Grows(r, s) && Own(r, t, n)
    ensures Own(s, t, n)
  {
    assert ReignGrows(r.lead[t], s.lead[t]);
  }

  lemma ChosenStable(r: Raft, s: Raft, t: nat, n: nat)
    requires Grows(r, s) && Chosen(r, t, n)
    ensures Chosen(s, t, n)
  {
    var q :| ChosenBy(r, t, n, q);
    forall i | i in q
      ensures AckedTo(s, t, i, n)
    {
      var k: nat :| k >= n && Ack(t, i, k) in r.acks;
      assert Ack(t, i, k) in s.acks;
    }
    assert ChosenBy(s, t, n, q);
  }

  lemma DeadStable(r: Raft, s: Raft, t: nat, n: nat)
    requires Grows(r, s) && Dead(r, t, n)
    ensures Dead(s, t, n)
  {
    var q :| SealedBy(r, t, n, q);
    assert SealedBy(s, t, n, q);
  }

  lemma LogOKStable(r: Raft, s: Raft, l: Log)
    requires Grows(r, s) && LogOK(r, l)
    ensures LogOK(s, l)
  {
    forall k: nat | k < |l|
      ensures Backed(s, l, k)
    {
      assert Backed(r, l, k);
      var t := l[k].term;
      assert ReignGrows(r.lead[t], s.lead[t]);
      AgreeExtend(l, r.lead[t].log, s.lead[t].log, k + 1);
    }
  }

  lemma LogOKPrefix(r: Raft, l: Log, n: nat)
    requires LogOK(r, l) && n <= |l|
    ensures LogOK(r, l[..n])
  {
    forall k: nat | k < n
      ensures Backed(r, l[..n], k)
    {
      assert Backed(r, l, k);
      assert l[..n][..k + 1] == l[..k + 1];
    }
  }

  // Terms never decrease along a backed log.
  lemma Ascending(r: Raft, l: Log, j: nat, k: nat)
    requires ReignsOK(r) && LogOK(r, l) && j <= k < |l|
    ensures l[j].term <= l[k].term
  {
    assert Backed(r, l, k);
    var t := l[k].term;
    var g := r.lead[t].log;
    assert ReignOK(r, t);
    assert l[j] == l[..k + 1][j] == g[..k + 1][j] == g[j];
  }

  // Chosen and dead exclude each other.
  lemma ChosenNotDead(r: Raft, t: nat, n: nat)
    requires Chosen(r, t, n)
    ensures !Dead(r, t, n)
  {
    if Dead(r, t, n) {
      var p :| ChosenBy(r, t, n, p);
      var q :| SealedBy(r, t, n, q);
      var i := QuorumsMeet(r.members, p, q);
      assert false;
    }
  }

  // ---------------------------------------------------------------- frames

  predicate SameLogs(r: Raft, s: Raft) {
    s.lead.Keys == r.lead.Keys && forall t :: t in r.lead ==> s.lead[t].log == r.lead[t].log
  }

  lemma BallotsFrame(r: Raft, s: Raft)
    requires Grows(r, s) && BallotsOK(r) && s.cand == r.cand
    ensures BallotsOK(s)
  {
    forall b | b in s.cand
      ensures LogOK(s, s.cand[b])
    {
      LogOKStable(r, s, r.cand[b]);
    }
  }

  lemma ReignsFrame(r: Raft, s: Raft)
    requires Grows(r, s) && ReignsOK(r) && SameLogs(r, s)
    ensures ReignsOK(s)
  {
    forall t | t in s.lead
      ensures ReignOK(s, t)
    {
      assert ReignOK(r, t);
      assert ReignGrows(r.lead[t], s.lead[t]);
      LogOKStable(r, s, r.lead[t].log);
    }
  }

  lemma SafeFrame(r: Raft, s: Raft)
    requires Grows(r, s) && AllSafe(r) && SameLogs(r, s)
    ensures AllSafe(s)
  {
    forall t: nat, u: nat, n: nat | u in s.lead && t < u && Own(s, t, n)
      ensures SafeAt(s, t, u, n)
    {
      assert Own(r, t, n);
      assert SafeAt(r, t, u, n);
      if Dead(r, t, n) {
        DeadStable(r, s, t, n);
      }
    }
  }

  lemma CommittedFrame(r: Raft, s: Raft)
    requires Grows(r, s) && CommittedOK(r) && s.committed == r.committed && s.chooser == r.chooser
    ensures CommittedOK(s)
  {
    if r.committed != [] {
      OwnStable(r, s, r.chooser, |r.committed|);
      ChosenStable(r, s, r.chooser, |r.committed|);
      assert ReignGrows(r.lead[r.chooser], s.lead[r.chooser]);
    }
  }

  lemma TopsFrame(r: Raft, s: Raft)
    requires Grows(r, s) && TopsOK(r) && s.lead.Keys == r.lead.Keys
    requires forall t :: t in r.lead ==> s.lead[t].top == r.lead[t].top
    ensures TopsOK(s)
  {
    forall t | t in s.lead && s.lead[t].top != 0
      ensures exists q: nat, n: nat :: ChosenFrom(s, q, n, t, s.lead[t].top)
    {
      var q: nat, n: nat :| ChosenFrom(r, q, n, t, r.lead[t].top);
      OwnStable(r, s, q, n);
      ChosenStable(r, s, q, n);
      assert ChosenFrom(s, q, n, t, s.lead[t].top);
    }
  }

  lemma DiskCommittedFrame(r: Raft, s: Raft, i: Id)
    requires Grows(r, s) && i in r.disks && DiskCommitted(r, i)
    requires s.disks[i].commit == r.disks[i].commit
    requires Agree(s.disks[i].log, r.disks[i].log, r.disks[i].commit)
    ensures DiskCommitted(s, i)
  {
    AgreeExtend(r.disks[i].log, r.committed, s.committed, r.disks[i].commit);
    if r.disks[i].commit != 0 {
      var t: nat :| t <= r.disks[i].term && Sourced(r, t, r.disks[i].commit);
      assert ReignGrows(r.lead[t], s.lead[t]);
      assert Sourced(s, t, s.disks[i].commit);
    }
  }

  lemma KeptFrame(r: Raft, s: Raft, a: Ack, n: nat)
    requires Grows(r, s) && a in r.acks && AckOK(r, a) && s.disks[a.id].log == r.disks[a.id].log
    requires n <= a.index && Own(r, a.term, n)
    ensures Kept(s, a.term, a.id, n)
  {
    assert Kept(r, a.term, a.id, n);
    if Dead(r, a.term, n) {
      DeadStable(r, s, a.term, n);
    } else {
      assert ReignGrows(r.lead[a.term], s.lead[a.term]);
      AgreeExtend(r.disks[a.id].log, r.lead[a.term].log, s.lead[a.term].log, n);
    }
  }

  // An old acknowledgement of a member whose log is untouched. A leader log may
  // have grown, but only beyond everything acknowledged.
  lemma AckFrame(r: Raft, s: Raft, a: Ack)
    requires Grows(r, s) && a in r.acks && AckOK(r, a) && s.disks[a.id].log == r.disks[a.id].log
    ensures AckOK(s, a)
  {
    assert ReignGrows(r.lead[a.term], s.lead[a.term]);
    if s.disks[a.id].term == a.term {
      AgreeExtend(r.disks[a.id].log, r.lead[a.term].log, s.lead[a.term].log, a.index);
    }
    forall n: nat | n <= a.index && Own(s, a.term, n)
      ensures Kept(s, a.term, a.id, n)
    {
      assert Own(r, a.term, n);
      KeptFrame(r, s, a, n);
    }
  }

  lemma VoteCoversFrame(r: Raft, s: Raft, v: Vote, a: Ack, n: nat)
    requires Grows(r, s) && VotesOK(r) && VotesSafe(r) && v in r.votes && a in r.acks && AckOK(r, a)
    requires a.id == v.voter && a.term < v.term && n <= a.index && Own(s, a.term, n)
    ensures Ballot(v.term, v.candidate) in s.cand && a.term in s.lead && VoteCovers(s, v, a, n)
  {
    assert VoteOK(r, v);
    assert ReignGrows(r.lead[a.term], s.lead[a.term]);
    assert Own(r, a.term, n);
    assert VoteCovers(r, v, a, n);
    if Dead(r, a.term, n) {
      DeadStable(r, s, a.term, n);
    } else {
      AgreeExtend(r.cand[Ballot(v.term, v.candidate)], r.lead[a.term].log, s.lead[a.term].log, n);
    }
  }
}
