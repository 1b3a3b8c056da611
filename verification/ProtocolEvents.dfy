// The events of the disk-level protocol, each shown to keep every invariant.
module ProtocolEvents {
  import opened Logs
  import opened Protocol

  function WithDisk(r: Raft, i: Id, d: Disk): Raft {
    r.(disks := r.disks[i := d])
  }

  // Everything that depends on logs and acknowledgements alone survives a change
  // of terms and votes.
  lemma KeepLogs(r: Raft, s: Raft)
    requires InvButCast(r) && Grows(r, s) && s.lead == r.lead && s.acks == r.acks
    requires s.committed == r.committed && s.chooser == r.chooser
    requires forall i :: i in r.disks ==> s.disks[i].log == r.disks[i].log && s.disks[i].commit == r.disks[i].commit
    ensures DisksOK(s) && ReignsOK(s) && AcksOK(s) && AllSafe(s) && CommittedOK(s) && DisksCommitted(s) && TopsOK(s)
  {
    ReignsFrame(r, s);
    SafeFrame(r, s);
    CommittedFrame(r, s);
    TopsFrame(r, s);
    SameAcks(r, s);
    SameDiskLogs(r, s);
  }

  lemma SameAcks(r: Raft, s: Raft)
    requires AcksOK(r) && Grows(r, s) && s.acks == r.acks
    requires forall a :: a in r.acks ==> s.disks[a.id].log == r.disks[a.id].log
    ensures AcksOK(s)
  {
    forall a | a in s.acks
      ensures AckOK(s, a)
    {
      AckFrame(r, s, a);
    }
  }

  lemma SameDiskLogs(r: Raft, s: Raft)
    requires Grows(r, s) && DisksOK(r) && DisksCommitted(r)
    requires forall i :: i in r.disks ==> s.disks[i].log == r.disks[i].log && s.disks[i].commit == r.disks[i].commit
    ensures DisksOK(s) && DisksCommitted(s)
  {
    forall i | i in s.disks
      ensures LogOK(s, s.disks[i].log) && TermsUpTo(s.disks[i].log, s.disks[i].term) && DiskCommitted(s, i)
    {
      LogOKStable(r, s, r.disks[i].log);
      DiskCommittedFrame(r, s, i);
    }
  }

  lemma SameVotes(r: Raft, s: Raft)
    requires Grows(r, s) && VotesOK(r) && VotesSafe(r) && AcksOK(r) && s.votes == r.votes && s.acks == r.acks
    requires forall i :: i in r.disks ==> s.disks[i].term == r.disks[i].term && s.disks[i].vote == r.disks[i].vote
    ensures VotesOK(s) && VotesSafe(s)
  {
    assert forall v :: v in r.votes ==> VoteOK(r, v);
    assert VotesOK(s);
    VotesSafeFrame(r, s);
  }

  lemma VotesSafeFrame(r: Raft, s: Raft)
    requires Grows(r, s) && VotesOK(r) && VotesSafe(r) && AcksOK(r) && VotesOK(s)
    requires s.votes == r.votes && s.acks == r.acks
    ensures VotesSafe(s)
  {
    forall v: Vote, a: Ack, n: nat | v in s.votes && a in s.acks && a.id == v.voter && a.term < v.term &&
      n <= a.index && Own(s, a.term, n)
      ensures VoteCovers(s, v, a, n)
    {
      VoteCoversFrame(r, s, v, a, n);
    }
  }

  // ---------------------------------------------------------------- terms and votes

  // i adopts a later term.
  function Raise(r: Raft, i: Id, t: nat): Raft
    requires i in r.disks
  {
    WithDisk(r, i, r.disks[i].(term := t, vote := None))
  }

  lemma RaiseVotes(r: Raft, i: Id, t: nat)
    requires VotesOK(r) && i in r.disks && t > r.disks[i].term
    ensures VotesOK(Raise(r, i, t))
  {
    assert forall v :: v in r.votes ==> VoteOK(r, v);
  }

  lemma RaiseGrows(r: Raft, i: Id, t: nat)
    requires i in r.disks && t > r.disks[i].term
    ensures Grows(r, Raise(r, i, t))
    ensures BallotsCast(r) ==> BallotsCast(Raise(r, i, t))
  {}

  lemma RaiseKeeps(r: Raft, i: Id, t: nat)
    requires Inv(r) && i in r.disks && t > r.disks[i].term
    ensures Inv(Raise(r, i, t)) && Grows(r, Raise(r, i, t))
  {
    hide DisksOK, BallotsOK, BallotsCast, VotesOK, ReignsOK, AcksOK, AllSafe, VotesSafe, CommittedOK,
      DisksCommitted, TopsOK, Grows;
    var s := Raise(r, i, t);
    RaiseGrows(r, i, t);
    RaiseVotes(r, i, t);
    KeepLogs(r, s);
    BallotsFrame(r, s);
    VotesSafeFrame(r, s);
  }

  // i votes for c in term t.
  function Grant(r: Raft, i: Id, t: nat, c: Id): Raft
    requires i in r.disks
  {
    WithDisk(r, i, r.disks[i].(term := t, vote := Some(c))).(votes := r.votes + {Vote(t, i, c)})
  }

  ghost predicate CanGrant(r: Raft, i: Id, t: nat, c: Id) {
    i in r.disks && Ballot(t, c) in r.cand && t >= r.disks[i].term &&
    (t == r.disks[i].term ==> r.disks[i].vote == None || r.disks[i].vote == Some(c)) &&
    AcceptsEnd(r.disks[i].log, LastTerm(r.cand[Ballot(t, c)]), |r.cand[Ballot(t, c)]|)
  }

  lemma LaterLeaderLength(r: Raft, c: Log, t: nat, v: nat, n: nat)
    requires ReignsOK(r) && t in r.lead && v in r.lead && t < v && c != [] && c[|c| - 1].term == v
    requires Agree(c, r.lead[v].log, |c|) && Agree(r.lead[v].log, r.lead[t].log, n)
    ensures n < |c|
  {
    assert ReignOK(r, t);
    AgreeTermAt(c, r.lead[v].log, |c|);
    if n >= |c| {
      AgreeShorter(r.lead[v].log, r.lead[t].log, n, |c|);
      AgreeTermAt(r.lead[v].log, r.lead[t].log, |c|);
    }
  }

  // The heart of leader completeness: a candidate that a voter accepts holds
  // every entry the voter acknowledged, unless that entry is dead.
  lemma AcceptedCovers(r: Raft, l: Log, c: Log, t: nat, n: nat)
    requires ReignsOK(r) && AllSafe(r) && LogOK(r, l) && LogOK(r, c) && Own(r, t, n)
    requires Agree(l, r.lead[t].log, n) && AcceptsEnd(l, LastTerm(c), |c|)
    ensures Agree(c, r.lead[t].log, n) || Dead(r, t, n)
  {
    AgreeTermAt(l, r.lead[t].log, n);
    Ascending(r, l, n - 1, |l| - 1);
    assert Backed(r, l, |l| - 1);
    var u := LastTerm(l);
    var v := LastTerm(c);
    assert Backed(r, c, |c| - 1);
    if v == u {
      AgreeShorter(l, r.lead[u].log, |l|, n);
      AgreeShorter(c, r.lead[u].log, |c|, n);
    } else {
      assert SafeAt(r, t, v, n);
      if !Dead(r, t, n) {
        LaterLeaderLength(r, c, t, v, n);
        AgreeShorter(c, r.lead[v].log, |c|, n);
      }
    }
  }

  lemma GrantVotes(r: Raft, i: Id, t: nat, c: Id)
    requires VotesOK(r) && CanGrant(r, i, t, c)
    ensures VotesOK(Grant(r, i, t, c))
  {
    assert forall v :: v in r.votes ==> VoteOK(r, v);
  }

  lemma GrantCovers(r: Raft, i: Id, t: nat, c: Id, a: Ack, n: nat)
    requires CanGrant(r, i, t, c) && ReignsOK(r) && AllSafe(r) && DisksOK(r) && BallotsOK(r)
    requires a in r.acks && AckOK(r, a) && a.id == i && n <= a.index && Own(r, a.term, n)
    ensures Agree(r.cand[Ballot(t, c)], r.lead[a.term].log, n) || Dead(r, a.term, n)
  {
    assert Kept(r, a.term, i, n);
    if !Dead(r, a.term, n) {
      AcceptedCovers(r, r.disks[i].log, r.cand[Ballot(t, c)], a.term, n);
    }
  }

  lemma GrantSafeAt(r: Raft, i: Id, t: nat, c: Id, v: Vote, a: Ack, n: nat)
    requires ReignsOK(r) && AllSafe(r) && DisksOK(r) && BallotsOK(r) && VotesOK(r) && VotesSafe(r) && CanGrant(r, i, t, c)
    requires Grows(r, Grant(r, i, t, c)) && v in Grant(r, i, t, c).votes && a in r.acks && AckOK(r, a)
    requires a.id == v.voter && a.term < v.term && n <= a.index && Own(r, a.term, n)
    ensures Ballot(v.term, v.candidate) in r.cand && a.term in r.lead && VoteCovers(Grant(r, i, t, c), v, a, n)
  {
    hide ReignsOK, AllSafe, DisksOK, BallotsOK, VotesSafe, AckOK, Dead, Agree;
    var s := Grant(r, i, t, c);
    if v in r.votes {
      VoteCoversFrame(r, s, v, a, n);
    } else {
      GrantCovers(r, i, t, c, a, n);
      if Dead(r, a.term, n) {
        DeadStable(r, s, a.term, n);
      }
    }
  }

  lemma GrantSafe(r: Raft, i: Id, t: nat, c: Id)
    requires InvButCast(r) && CanGrant(r, i, t, c)
    requires VotesOK(Grant(r, i, t, c)) && Grows(r, Grant(r, i, t, c))
    ensures VotesSafe(Grant(r, i, t, c))
  {
    hide DisksOK, BallotsOK, BallotsCast, ReignsOK, AllSafe, CommittedOK, DisksCommitted, TopsOK, Grows, AcceptsEnd,
      VoteCovers, Kept, Agree;
    var s := Grant(r, i, t, c);
    forall v: Vote, a: Ack, n: nat | v in s.votes && a in s.acks && a.id == v.voter && a.term < v.term &&
      n <= a.index && Own(s, a.term, n)
      ensures VoteCovers(s, v, a, n)
    {
      assert AckOK(r, a);
      GrantSafeAt(r, i, t, c, v, a, n);
    }
  }

  lemma GrantGrows(r: Raft, i: Id, t: nat, c: Id)
    requires i in r.disks && t >= r.disks[i].term
    ensures Grows(r, Grant(r, i, t, c))
    ensures BallotsCast(r) ==> BallotsCast(Grant(r, i, t, c))
  {}

  lemma GrantKeepsAll(r: Raft, i: Id, t: nat, c: Id)
    requires InvButCast(r) && CanGrant(r, i, t, c)
    ensures InvButCast(Grant(r, i, t, c)) && Grows(r, Grant(r, i, t, c))
  {
    hide DisksOK, BallotsOK, BallotsCast, VotesOK, ReignsOK, AcksOK, AllSafe, VotesSafe, CommittedOK,
      DisksCommitted, TopsOK, Grows;
    var s := Grant(r, i, t, c);
    GrantGrows(r, i, t, c);
    GrantVotes(r, i, t, c);
    GrantSafe(r, i, t, c);
    KeepLogs(r, s);
    BallotsFrame(r, s);
  }

  lemma GrantKeeps(r: Raft, i: Id, t: nat, c: Id)
    requires Inv(r) && CanGrant(r, i, t, c)
    ensures Inv(Grant(r, i, t, c)) && Grows(r, Grant(r, i, t, c))
  {
    hide DisksOK, BallotsOK, BallotsCast, VotesOK, ReignsOK, AcksOK, AllSafe, VotesSafe, CommittedOK,
      DisksCommitted, TopsOK, Grows;
    GrantGrows(r, i, t, c);
    GrantKeepsAll(r, i, t, c);
  }

  // i starts an election in term t with its own log and votes for itself.
  function Announce(r: Raft, i: Id, t: nat): Raft
    requires i in r.disks
  {
    r.(cand := r.cand[Ballot(t, i) := r.disks[i].log])
  }

  function Stand(r: Raft, i: Id, t: nat): Raft
    requires i in r.disks
  {
    Grant(Announce(r, i, t), i, t, i)
  }

  lemma AnnounceBallots(r: Raft, i: Id, t: nat)
    requires DisksOK(r) && BallotsOK(r) && i in r.disks && t > r.disks[i].term && Grows(r, Announce(r, i, t))
    ensures BallotsOK(Announce(r, i, t))
  {
    var s := Announce(r, i, t);
    forall b | b in s.cand
      ensures LogOK(s, s.cand[b]) && TermsBelow(s.cand[b], b.term)
    {
      LogOKStable(r, s, s.cand[b]);
    }
  }

  lemma AnnounceGrows(r: Raft, i: Id, t: nat)
    requires BallotsCast(r) && i in r.disks && t > r.disks[i].term
    ensures Grows(r, Announce(r, i, t))
    ensures BallotsCast(Stand(r, i, t))
  {
    assert Ballot(t, i) !in r.cand;
  }

  lemma AnnounceKeeps(r: Raft, i: Id, t: nat)
    requires Inv(r) && i in r.disks && t > r.disks[i].term
    ensures InvButCast(Announce(r, i, t)) && Grows(r, Announce(r, i, t))
  {
    hide DisksOK, BallotsOK, BallotsCast, VotesOK, ReignsOK, AcksOK, AllSafe, VotesSafe, CommittedOK,
      DisksCommitted, TopsOK, Grows;
    var s := Announce(r, i, t);
    AnnounceGrows(r, i, t);
    SameVotes(r, s);
    KeepLogs(r, s);
    AnnounceBallots(r, i, t);
  }

  lemma StandKeeps(r: Raft, i: Id, t: nat)
    requires Inv(r) && i in r.disks && t > r.disks[i].term
    ensures Inv(Stand(r, i, t)) && Grows(r, Stand(r, i, t))
  {
    hide DisksOK, BallotsOK, BallotsCast, VotesOK, ReignsOK, AcksOK, AllSafe, VotesSafe, CommittedOK,
      DisksCommitted, TopsOK, Grows;
    AnnounceGrows(r, i, t);
    AnnounceKeeps(r, i, t);
    var s := Announce(r, i, t);
    StandGrants(r, i, t);
    GrowsTrans(r, s, Stand(r, i, t));
  }

  lemma StandGrants(r: Raft, i: Id, t: nat)
    requires i in r.disks && t > r.disks[i].term && InvButCast(Announce(r, i, t))
    requires BallotsCast(Stand(r, i, t))
    ensures Inv(Stand(r, i, t)) && Grows(Announce(r, i, t), Stand(r, i, t))
  {
    hide DisksOK, BallotsOK, BallotsCast, VotesOK, ReignsOK, AcksOK, AllSafe, VotesSafe, CommittedOK,
      DisksCommitted, TopsOK, Grows;
    GrantKeepsAll(Announce(r, i, t), i, t, i);
  }

  // ---------------------------------------------------------------- logs on disk

  ghost predicate ConflictAt(l: Log, g: Log, p: nat) {
    p < |l| && p < |g| && l[p] != g[p]
  }

  // n is a prefix of the leader log g that contains everything l shares with g:
  // all of l, or at least the part before a conflict between l and g.
  ghost predicate Covers(n: Log, l: Log, g: Log) {
    n <= g && (l <= n || exists p: nat :: p <= |n| && ConflictAt(l, g, p))
  }

  lemma CoversShared(n: Log, l: Log, g: Log, k: nat)
    requires Covers(n, l, g) && Agree(l, g, k)
    ensures k <= |n|
  {
    if !(l <= n) {
      var p: nat :| p <= |n| && ConflictAt(l, g, p);
      if p < k {
        AgreeEntry(l, g, k, p);
      }
    }
  }

  // i's log follows the leader of its term.
  function Follow(r: Raft, i: Id, n: Log): Raft
    requires i in r.disks
  {
    WithDisk(r, i, r.disks[i].(log := n))
  }

  ghost predicate CanFollow(r: Raft, i: Id, n: Log) {
    i in r.disks && r.disks[i].term in r.lead && Covers(n, r.disks[i].log, r.lead[r.disks[i].term].log) &&
    Agree(n, r.committed, r.disks[i].commit)
  }

  lemma FollowKept(r: Raft, i: Id, n: Log, a: Ack, k: nat)
    requires AllSafe(r) && CanFollow(r, i, n) && Grows(r, Follow(r, i, n))
    requires a in r.acks && AckOK(r, a) && a.id == i && k <= a.index && Own(r, a.term, k)
    ensures Kept(Follow(r, i, n), a.term, i, k)
  {
    var s := Follow(r, i, n);
    assert Kept(r, a.term, i, k);
    var t := r.disks[i].term;
    var g := r.lead[t].log;
    if Dead(r, a.term, k) {
      DeadStable(r, s, a.term, k);
    } else {
      if a.term < t {
        assert SafeAt(r, a.term, t, k);
      }
      assert Agree(r.disks[i].log, g, k);
      CoversShared(n, r.disks[i].log, g, k);
      assert n[..k] == g[..k];
    }
  }

  lemma FollowAcks(r: Raft, i: Id, n: Log)
    requires AllSafe(r) && AcksOK(r) && CanFollow(r, i, n) && Grows(r, Follow(r, i, n))
    ensures AcksOK(Follow(r, i, n))
  {
    var s := Follow(r, i, n);
    forall a | a in s.acks
      ensures AckOK(s, a)
    {
      assert AckOK(r, a);
      if a.id == i {
        forall k: nat | k <= a.index && Own(s, a.term, k)
          ensures Kept(s, a.term, i, k)
        {
          FollowKept(r, i, n, a, k);
        }
      } else {
        AckFrame(r, s, a);
      }
    }
  }

  lemma FollowDisk(r: Raft, i: Id, n: Log)
    requires ReignsOK(r) && DisksCommitted(r) && CanFollow(r, i, n) && Grows(r, Follow(r, i, n))
    ensures LogOK(Follow(r, i, n), n) && TermsUpTo(n, r.disks[i].term) && DiskCommitted(Follow(r, i, n), i)
  {
    var s := Follow(r, i, n);
    var t := r.disks[i].term;
    assert ReignOK(r, t);
    LogOKPrefix(r, r.lead[t].log, |n|);
    assert n == r.lead[t].log[..|n|];
    LogOKStable(r, s, n);
    DiskCommittedFrame(r, s, i);
  }

  lemma FollowDisks(r: Raft, i: Id, n: Log)
    requires ReignsOK(r) && DisksOK(r) && DisksCommitted(r) && CanFollow(r, i, n) && Grows(r, Follow(r, i, n))
    ensures DisksOK(Follow(r, i, n)) && DisksCommitted(Follow(r, i, n))
  {
    var s := Follow(r, i, n);
    FollowDisk(r, i, n);
    forall j | j in s.disks && j != i
      ensures LogOK(s, s.disks[j].log) && DiskCommitted(s, j)
    {
      LogOKStable(r, s, r.disks[j].log);
      DiskCommittedFrame(r, s, j);
    }
  }

  lemma FollowGrows(r: Raft, i: Id, n: Log)
    requires i in r.disks
    ensures Grows(r, Follow(r, i, n))
    ensures BallotsCast(r) ==> BallotsCast(Follow(r, i, n))
  {}

  lemma FollowKeeps(r: Raft, i: Id, n: Log)
    requires Inv(r) && CanFollow(r, i, n)
    ensures Inv(Follow(r, i, n)) && Grows(r, Follow(r, i, n))
  {
    hide DisksOK, BallotsOK, BallotsCast, VotesOK, ReignsOK, AcksOK, AllSafe, VotesSafe, CommittedOK,
      DisksCommitted, TopsOK, Grows;
    var s := Follow(r, i, n);
    FollowGrows(r, i, n);
    FollowAcks(r, i, n);
    FollowDisks(r, i, n);
    BallotsFrame(r, s);
    ReignsFrame(r, s);
    SafeFrame(r, s);
    CommittedFrame(r, s);
    TopsFrame(r, s);
    SameVotes(r, s);
  }

  // ---------------------------------------------------------------- acknowledging

  function Acknowledge(r: Raft, i: Id, n: nat): Raft
    requires i in r.disks
  {
    r.(acks := r.acks + {Ack(r.disks[i].term, i, n)})
  }

  ghost predicate CanAcknowledge(r: Raft, i: Id, n: nat) {
    i in r.disks && r.disks[i].term in r.lead && Agree(r.disks[i].log, r.lead[r.disks[i].term].log, n)
  }

  lemma AcknowledgeAcks(r: Raft, i: Id, n: nat)
    requires AcksOK(r) && CanAcknowledge(r, i, n) && Grows(r, Acknowledge(r, i, n))
    ensures AcksOK(Acknowledge(r, i, n))
  {
    var s := Acknowledge(r, i, n);
    forall a | a in s.acks
      ensures AckOK(s, a)
    {
      if a in r.acks {
        AckFrame(r, s, a);
      } else {
        forall k: nat | k <= n && Own(s, a.term, k)
          ensures Kept(s, a.term, i, k)
        {
          AgreeShorter(r.disks[i].log, r.lead[a.term].log, n, k);
        }
      }
    }
  }

  lemma AcknowledgeVotes(r: Raft, i: Id, n: nat)
    requires AcksOK(r) && VotesOK(r) && VotesSafe(r) && CanAcknowledge(r, i, n) && Grows(r, Acknowledge(r, i, n))
    ensures VotesOK(Acknowledge(r, i, n)) && VotesSafe(Acknowledge(r, i, n))
  {
    var s := Acknowledge(r, i, n);
    assert forall v :: v in r.votes ==> VoteOK(r, v);
    assert VotesOK(s);
    forall v: Vote, a: Ack, k: nat | v in s.votes && a in s.acks && a.id == v.voter && a.term < v.term &&
      k <= a.index && Own(s, a.term, k)
      ensures VoteCovers(s, v, a, k)
    {
      assert VoteOK(r, v);
      VoteCoversFrame(r, s, v, a, k);
    }
  }

  lemma AcknowledgeGrows(r: Raft, i: Id, n: nat)
    requires i in r.disks
    ensures Grows(r, Acknowledge(r, i, n))
    ensures BallotsCast(r) ==> BallotsCast(Acknowledge(r, i, n))
  {}

  lemma AcknowledgeKeeps(r: Raft, i: Id, n: nat)
    requires Inv(r) && CanAcknowledge(r, i, n)
    ensures Inv(Acknowledge(r, i, n)) && Grows(r, Acknowledge(r, i, n))
  {
    hide DisksOK, BallotsOK, BallotsCast, VotesOK, ReignsOK, AcksOK, AllSafe, VotesSafe, CommittedOK,
      DisksCommitted, TopsOK, Grows;
    var s := Acknowledge(r, i, n);
    AcknowledgeGrows(r, i, n);
    AcknowledgeAcks(r, i, n);
    AcknowledgeVotes(r, i, n);
    BallotsFrame(r, s);
    ReignsFrame(r, s);
    SafeFrame(r, s);
    CommittedFrame(r, s);
    TopsFrame(r, s);
    SameDiskLogs(r, s);
  }

  // ---------------------------------------------------------------- leaders

  // i becomes leader of its term with the votes of q.
  function Elect(r: Raft, i: Id, q: set<Id>): Raft
    requires i in r.disks
  {
    r.(lead := r.lead[r.disks[i].term := Reign(i, q, r.disks[i].log, r.disks[i].commit)])
  }

  ghost predicate Elected(r: Raft, i: Id, q: set<Id>) {
    i in r.disks && Quorum(r.members, q) && forall e :: e in q ==> Vote(r.disks[i].term, e, i) in r.votes
  }

  ghost predicate CanElect(r: Raft, i: Id, q: set<Id>) {
    Elected(r, i, q) && r.disks[i].term !in r.lead &&
    Ballot(r.disks[i].term, i) in r.cand && r.cand[Ballot(r.disks[i].term, i)] == r.disks[i].log
  }

  // A term has one leader: nobody else can collect a quorum of its votes.
  lemma OneLeader(r: Raft, i: Id, q: set<Id>)
    requires VotesOK(r) && ReignsOK(r) && Elected(r, i, q) && r.disks[i].term in r.lead
    ensures r.lead[r.disks[i].term].owner == i
  {
    var t := r.disks[i].term;
    assert ReignOK(r, t);
    var e := QuorumsMeet(r.members, q, r.lead[t].electors);
    assert Vote(t, e, i) in r.votes && Vote(t, e, r.lead[t].owner) in r.votes;
  }

  lemma ElectGrows(r: Raft, i: Id, q: set<Id>)
    requires CanElect(r, i, q)
    ensures Grows(r, Elect(r, i, q))
    ensures BallotsCast(r) ==> BallotsCast(Elect(r, i, q))
  {}

  lemma ElectReigns(r: Raft, i: Id, q: set<Id>)
    requires CanElect(r, i, q) && Grows(r, Elect(r, i, q)) && ReignsOK(r) && DisksOK(r)
    ensures ReignsOK(Elect(r, i, q))
  {
    var s := Elect(r, i, q);
    forall t | t in s.lead
      ensures ReignOK(s, t)
    {
      LogOKStable(r, s, s.lead[t].log);
      if t in r.lead {
        assert ReignOK(r, t);
      }
    }
  }

  // The votes that elect a leader bring every choosable entry of earlier terms.
  lemma ElectSafeAt(r: Raft, i: Id, q: set<Id>, t: nat, n: nat)
    requires CanElect(r, i, q) && VotesOK(r) && VotesSafe(r) && AcksOK(r) && t < r.disks[i].term && Own(r, t, n)
    ensures Agree(r.disks[i].log, r.lead[t].log, n) || Dead(r, t, n)
  {
    var u := r.disks[i].term;
    if e :| e in q && AckedTo(r, t, e, n) {
      var k: nat :| k >= n && Ack(t, e, k) in r.acks;
      assert VoteCovers(r, Vote(u, e, i), Ack(t, e, k), n);
    } else {
      forall e | e in q
        ensures e in r.disks && r.disks[e].term > t
      {
        assert VoteOK(r, Vote(u, e, i));
      }
      assert SealedBy(r, t, n, q);
    }
  }

  lemma ElectSafe(r: Raft, i: Id, q: set<Id>)
    requires CanElect(r, i, q) && Grows(r, Elect(r, i, q))
    requires VotesOK(r) && VotesSafe(r) && AcksOK(r) && BallotsOK(r) && AllSafe(r)
    ensures AllSafe(Elect(r, i, q))
  {
    var s := Elect(r, i, q);
    forall t: nat, u: nat, n: nat | u in s.lead && t < u && Own(s, t, n)
      ensures SafeAt(s, t, u, n)
    {
      assert TermsBelow(r.cand[Ballot(r.disks[i].term, i)], r.disks[i].term);
      assert Own(r, t, n);
      if u in r.lead {
        assert SafeAt(r, t, u, n);
      } else {
        ElectSafeAt(r, i, q, t, n);
      }
      if Dead(r, t, n) {
        DeadStable(r, s, t, n);
      }
    }
  }

  lemma ElectTops(r: Raft, i: Id, q: set<Id>)
    requires CanElect(r, i, q) && Grows(r, Elect(r, i, q)) && TopsOK(r) && DisksCommitted(r)
    ensures TopsOK(Elect(r, i, q))
  {
    var s := Elect(r, i, q);
    forall t | t in s.lead && s.lead[t].top != 0
      ensures exists u: nat, n: nat :: ChosenFrom(s, u, n, t, s.lead[t].top)
    {
      var v := t;
      if t !in r.lead {
        assert DiskCommitted(r, i);
        v :| v <= t && Sourced(r, v, r.disks[i].commit);
      }
      var u: nat, n: nat :| ChosenFrom(r, u, n, v, r.lead[v].top);
      OwnStable(r, s, u, n);
      ChosenStable(r, s, u, n);
      assert ChosenFrom(s, u, n, t, s.lead[t].top);
    }
  }

  lemma ElectKeeps(r: Raft, i: Id, q: set<Id>)
    requires Inv(r) && CanElect(r, i, q)
    ensures Inv(Elect(r, i, q)) && Grows(r, Elect(r, i, q))
  {
    hide DisksOK, BallotsOK, BallotsCast, VotesOK, ReignsOK, AcksOK, AllSafe, VotesSafe, CommittedOK,
      DisksCommitted, TopsOK, Grows;
    var s := Elect(r, i, q);
    ElectGrows(r, i, q);
    ElectReigns(r, i, q);
    ElectSafe(r, i, q);
    ElectTops(r, i, q);
    BallotsFrame(r, s);
    CommittedFrame(r, s);
    SameDiskLogs(r, s);
    SameAcks(r, s);
    SameVotes(r, s);
  }

  // The leader of term t stages one more entry of its own term.
  function Extend(r: Raft, t: nat, e: Entry): Raft
    requires t in r.lead
  {
    r.(lead := r.lead[t := r.lead[t].(log := r.lead[t].log + [e])])
  }

  lemma ExtendGrows(r: Raft, t: nat, e: Entry)
    requires t in r.lead
    ensures Grows(r, Extend(r, t, e))
    ensures BallotsCast(r) ==> BallotsCast(Extend(r, t, e))
  {}

  lemma ExtendReigns(r: Raft, t: nat, e: Entry)
    requires t in r.lead && e.term == t && Grows(r, Extend(r, t, e)) && ReignsOK(r)
    ensures ReignsOK(Extend(r, t, e))
  {
    var s := Extend(r, t, e);
    forall u | u in s.lead
      ensures ReignOK(s, u)
    {
      assert ReignOK(r, u);
      LogOKStable(r, s, r.lead[u].log);
      if u == t {
        forall k: nat | k < |s.lead[t].log|
          ensures Backed(s, s.lead[t].log, k)
        {
          if k < |r.lead[t].log| {
            assert Backed(s, r.lead[t].log, k);
            assert s.lead[t].log[..k + 1] == r.lead[t].log[..k + 1];
          }
        }
      }
    }
  }

  // Nobody past term t can still acknowledge the entry just staged in it.
  lemma NewEntryDead(r: Raft, t: nat, u: nat, n: nat)
    requires VotesOK(r) && ReignsOK(r) && AcksOK(r) && t in r.lead && u in r.lead && t < u && n > |r.lead[t].log|
    ensures Dead(r, t, n)
  {
    assert ReignOK(r, u);
    var q := r.lead[u].electors;
    forall e | e in q
      ensures e in r.disks && r.disks[e].term > t && !AckedTo(r, t, e, n)
    {
      assert VoteOK(r, Vote(u, e, r.lead[u].owner));
      assert forall k: nat :: Ack(t, e, k) in r.acks ==> AckOK(r, Ack(t, e, k));
    }
    assert SealedBy(r, t, n, q);
  }

  lemma ExtendSafe(r: Raft, t: nat, e: Entry)
    requires t in r.lead && Grows(r, Extend(r, t, e))
    requires VotesOK(r) && ReignsOK(r) && AcksOK(r) && AllSafe(r)
    ensures AllSafe(Extend(r, t, e))
  {
    var s := Extend(r, t, e);
    forall v: nat, u: nat, n: nat | u in s.lead && v < u && Own(s, v, n)
      ensures SafeAt(s, v, u, n)
    {
      if n > |r.lead[v].log| {
        NewEntryDead(r, t, u, n);
      } else {
        assert Own(r, v, n);
        assert SafeAt(r, v, u, n);
      }
      if Dead(r, v, n) {
        DeadStable(r, s, v, n);
      } else {
        AgreeExtend(r.lead[u].log, r.lead[v].log, s.lead[v].log, n);
        AgreeExtend(s.lead[v].log, r.lead[u].log, s.lead[u].log, n);
      }
    }
  }

  lemma ExtendKeeps(r: Raft, t: nat, e: Entry)
    requires Inv(r) && t in r.lead && e.term == t
    ensures Inv(Extend(r, t, e)) && Grows(r, Extend(r, t, e))
  {
    hide DisksOK, BallotsOK, BallotsCast, VotesOK, ReignsOK, AcksOK, AllSafe, VotesSafe, CommittedOK,
      DisksCommitted, TopsOK, Grows;
    var s := Extend(r, t, e);
    ExtendGrows(r, t, e);
    ExtendReigns(r, t, e);
    ExtendSafe(r, t, e);
    TopsFrame(r, s);
    BallotsFrame(r, s);
    CommittedFrame(r, s);
    SameDiskLogs(r, s);
    SameAcks(r, s);
    SameVotes(r, s);
  }

  // ---------------------------------------------------------------- committing

  // Position n of term t's leader log, chosen in its own term, becomes committed.
  function Choose(r: Raft, t: nat, n: nat): Raft
    requires Own(r, t, n)
  {
    if n <= |r.committed| then r else r.(committed := r.lead[t].log[..n], chooser := t)
  }

  // Two chosen prefixes never disagree.
  lemma ChosenAgree(r: Raft, t: nat, n: nat, u: nat, k: nat)
    requires AllSafe(r) && Own(r, t, n) && Chosen(r, t, n) && Own(r, u, k) && Chosen(r, u, k)
    ensures Agree(r.lead[t].log, r.lead[u].log, if n <= k then n else k)
  {
    ChosenNotDead(r, t, n);
    ChosenNotDead(r, u, k);
    if t < u {
      assert SafeAt(r, t, u, n);
      if k < n { AgreeShorter(r.lead[u].log, r.lead[t].log, n, k); }
    } else if u < t {
      assert SafeAt(r, u, t, k);
      if n < k { AgreeShorter(r.lead[t].log, r.lead[u].log, k, n); }
    }
  }

  lemma ChooseExtends(r: Raft, t: nat, n: nat)
    requires AllSafe(r) && CommittedOK(r) && Own(r, t, n) && Chosen(r, t, n)
    ensures r.committed <= Choose(r, t, n).committed
    ensures Agree(r.lead[t].log, Choose(r, t, n).committed, n)
    ensures CommittedOK(Choose(r, t, n))
  {
    var s := Choose(r, t, n);
    if n > |r.committed| {
      assert Own(s, t, n);
      var q :| ChosenBy(r, t, n, q);
      assert ChosenBy(s, t, n, q) by {
        assert forall i :: AckedTo(r, t, i, n) ==> AckedTo(s, t, i, n);
      }
    }
    if r.committed != [] {
      ChosenAgree(r, t, n, r.chooser, |r.committed|);
      assert r.committed == r.lead[r.chooser].log[..|r.committed|];
      if n <= |r.committed| {
        assert r.committed[..n] == r.lead[r.chooser].log[..n];
      }
    }
  }

  lemma ChooseKeeps(r: Raft, t: nat, n: nat)
    requires Inv(r) && Own(r, t, n) && Chosen(r, t, n)
    ensures Inv(Choose(r, t, n)) && Grows(r, Choose(r, t, n))
    ensures Agree(r.lead[t].log, Choose(r, t, n).committed, n)
  {
    hide DisksOK, BallotsOK, BallotsCast, VotesOK, ReignsOK, AcksOK, AllSafe, VotesSafe, CommittedOK,
      DisksCommitted, TopsOK, Grows;
    var s := Choose(r, t, n);
    ChooseExtends(r, t, n);
    ChooseGrows(r, s);
    BallotsFrame(r, s);
    ReignsFrame(r, s);
    SafeFrame(r, s);
    TopsFrame(r, s);
    SameDiskLogs(r, s);
    SameAcks(r, s);
    SameVotes(r, s);
  }

  lemma ChooseGrows(r: Raft, s: Raft)
    requires r.committed <= s.committed && s == r.(committed := s.committed, chooser := s.chooser)
    ensures Grows(r, s)
    ensures BallotsCast(r) ==> BallotsCast(s)
  {}

  // The leader of term t has made commit index c durable.
  function Crown(r: Raft, t: nat, c: nat): Raft
    requires t in r.lead
  {
    if c <= r.lead[t].top then r else r.(lead := r.lead[t := r.lead[t].(top := c)])
  }

  lemma CrownTops(r: Raft, t: nat, c: nat, u: nat, n: nat)
    requires t in r.lead && ChosenFrom(r, u, n, t, c) && TopsOK(r) && Grows(r, Crown(r, t, c))
    ensures TopsOK(Crown(r, t, c))
  {
    var s := Crown(r, t, c);
    forall v | v in s.lead && s.lead[v].top != 0
      ensures exists u: nat, n: nat :: ChosenFrom(s, u, n, v, s.lead[v].top)
    {
      var p, m := u, n;
      if s.lead[v].top == r.lead[v].top {
        p, m :| ChosenFrom(r, p, m, v, r.lead[v].top);
      }
      OwnStable(r, s, p, m);
      ChosenStable(r, s, p, m);
      assert ChosenFrom(s, p, m, v, s.lead[v].top);
    }
  }

  lemma CrownGrows(r: Raft, t: nat, c: nat)
    requires t in r.lead
    ensures Grows(r, Crown(r, t, c)) && SameLogs(r, Crown(r, t, c))
    ensures BallotsCast(r) ==> BallotsCast(Crown(r, t, c))
  {}

  lemma CrownKeeps(r: Raft, t: nat, c: nat, u: nat, n: nat)
    requires Inv(r) && t in r.lead && ChosenFrom(r, u, n, t, c)
    ensures Inv(Crown(r, t, c)) && Grows(r, Crown(r, t, c))
  {
    hide DisksOK, BallotsOK, BallotsCast, VotesOK, ReignsOK, AcksOK, AllSafe, VotesSafe, CommittedOK,
      DisksCommitted, TopsOK, Grows;
    hide SameLogs;
    var s := Crown(r, t, c);
    CrownGrows(r, t, c);
    CrownTops(r, t, c, u, n);
    BallotsFrame(r, s);
    ReignsFrame(r, s);
    SafeFrame(r, s);
    CommittedFrame(r, s);
    SameDiskLogs(r, s);
    SameAcks(r, s);
    SameVotes(r, s);
  }

  // i's disk records commit index c.
  function Learn(r: Raft, i: Id, c: nat): Raft
    requires i in r.disks
  {
    WithDisk(r, i, r.disks[i].(commit := c))
  }

  ghost predicate CanLearn(r: Raft, i: Id, c: nat) {
    i in r.disks && r.disks[i].commit <= c && Agree(r.disks[i].log, r.committed, c) &&
    (c == 0 || exists t: nat :: t <= r.disks[i].term && Sourced(r, t, c))
  }

  lemma LearnGrows(r: Raft, i: Id, c: nat)
    requires CanLearn(r, i, c)
    ensures Grows(r, Learn(r, i, c))
    ensures BallotsCast(r) ==> BallotsCast(Learn(r, i, c))
  {}

  lemma LearnDisks(r: Raft, i: Id, c: nat)
    requires CanLearn(r, i, c) && Grows(r, Learn(r, i, c)) && DisksOK(r) && DisksCommitted(r)
    ensures DisksOK(Learn(r, i, c)) && DisksCommitted(Learn(r, i, c))
  {
    var s := Learn(r, i, c);
    forall j | j in s.disks
      ensures LogOK(s, s.disks[j].log) && DiskCommitted(s, j)
    {
      LogOKStable(r, s, r.disks[j].log);
      if j == i {
        if c != 0 {
          var t: nat :| t <= r.disks[i].term && Sourced(r, t, c);
          assert Sourced(s, t, c);
        }
      } else {
        DiskCommittedFrame(r, s, j);
      }
    }
  }

  lemma LearnKeeps(r: Raft, i: Id, c: nat)
    requires Inv(r) && CanLearn(r, i, c)
    ensures Inv(Learn(r, i, c)) && Grows(r, Learn(r, i, c))
  {
    hide DisksOK, BallotsOK, BallotsCast, VotesOK, ReignsOK, AcksOK, AllSafe, VotesSafe, CommittedOK,
      DisksCommitted, TopsOK, Grows;
    var s := Learn(r, i, c);
    LearnGrows(r, i, c);
    LearnDisks(r, i, c);
    BallotsFrame(r, s);
    ReignsFrame(r, s);
    SafeFrame(r, s);
    CommittedFrame(r, s);
    TopsFrame(r, s);
    SameAcks(r, s);
    SameVotes(r, s);
  }
}
