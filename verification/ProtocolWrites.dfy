// One durable write of one member, as a sequence of protocol events.
module ProtocolWrites {
  import opened Logs
  import opened Protocol
  import opened ProtocolEvents

  // Only member i's disk and i's own reigns may differ.
  ghost predicate Touches(r: Raft, s: Raft, i: Id) {
    s.disks.Keys == r.disks.Keys &&
    (forall j :: j in r.disks && j != i ==> s.disks[j] == r.disks[j]) &&
    (forall t :: t in s.lead && s.lead[t].owner != i ==> t in r.lead && s.lead[t] == r.lead[t])
  }

  // Growth caused by a step of i.
  ghost predicate Moves(r: Raft, s: Raft, i: Id) {
    Grows(r, s) && Touches(r, s, i)
  }

  lemma MovesRefl(r: Raft, i: Id)
    ensures Moves(r, r, i)
  {}

  lemma MovesTrans(r: Raft, s: Raft, u: Raft, i: Id)
    requires Moves(r, s, i) && Moves(s, u, i)
    ensures Moves(r, u, i)
  {
    GrowsTrans(r, s, u);
  }

  // The new term and vote are the old ones, a later term, a candidacy or a vote
  // the member may cast.
  ghost predicate MetaOK(r: Raft, i: Id, d: Disk)
    requires i in r.disks
  {
    (d.term == r.disks[i].term && d.vote == r.disks[i].vote) ||
    (d.term > r.disks[i].term && d.vote == None) ||
    (d.term > r.disks[i].term && d.vote == Some(i)) ||
    (d.vote.Some? && CanGrant(r, i, d.term, d.vote.value))
  }

  ghost predicate EntriesOK(r: Raft, i: Id, d: Disk)
    requires i in r.disks
  {
    d.log == r.disks[i].log || (d.term in r.lead && Covers(d.log, r.disks[i].log, r.lead[d.term].log))
  }

  ghost predicate SourceOK(r: Raft, i: Id, t: nat, c: nat) {
    c == 0 || (exists u: nat :: u <= t && Sourced(r, u, c)) ||
    (t in r.lead && r.lead[t].owner == i && exists u: nat, n: nat :: ChosenFrom(r, u, n, t, c))
  }

  ghost predicate CommitOK(r: Raft, i: Id, d: Disk)
    requires i in r.disks
  {
    r.disks[i].commit <= d.commit && Agree(d.log, r.committed, d.commit) && SourceOK(r, i, d.term, d.commit)
  }

  // i may write d over its disk.
  ghost predicate CanWrite(r: Raft, i: Id, d: Disk) {
    i in r.disks && MetaOK(r, i, d) && EntriesOK(r, i, d) && CommitOK(r, i, d)
  }

  // The result of a write: nothing but i's disk, ballots, votes and commit mark.
  ghost predicate Written(r: Raft, s: Raft, i: Id, d: Disk) {
    Moves(r, s, i) && s.disks == r.disks[i := d] && s.acks == r.acks && s.committed == r.committed &&
    s.lead.Keys == r.lead.Keys && SameLogs(r, s)
  }

  lemma WriteMeta(r: Raft, i: Id, d: Disk) returns (s: Raft)
    requires Inv(r) && i in r.disks && MetaOK(r, i, d)
    ensures Inv(s) && Written(r, s, i, r.disks[i].(term := d.term, vote := d.vote)) && s.lead == r.lead
    ensures d.term > r.disks[i].term && d.vote == Some(i) ==>
              Ballot(d.term, i) in s.cand && s.cand[Ballot(d.term, i)] == r.disks[i].log
  {
    hide Inv, Grows, CanGrant;
    if d.term == r.disks[i].term && d.vote == r.disks[i].vote {
      s := r;
      GrowsRefl(r);
      assert r.disks[i := r.disks[i]] == r.disks;
    } else if d.vote == None {
      s := Raise(r, i, d.term);
      RaiseKeeps(r, i, d.term);
    } else if d.vote == Some(i) && d.term > r.disks[i].term {
      s := Stand(r, i, d.term);
      StandKeeps(r, i, d.term);
    } else {
      s := Grant(r, i, d.term, d.vote.value);
      GrantKeeps(r, i, d.term, d.vote.value);
    }
  }

  lemma WriteLog(r: Raft, i: Id, n: Log) returns (s: Raft)
    requires Inv(r) && i in r.disks && (n == r.disks[i].log || CanFollow(r, i, n))
    ensures Inv(s) && Written(r, s, i, r.disks[i].(log := n)) && s.lead == r.lead && s.cand == r.cand
  {
    hide Inv, Grows, CanFollow;
    if n == r.disks[i].log {
      s := r;
      GrowsRefl(r);
      assert r.disks[i := r.disks[i]] == r.disks;
    } else {
      s := Follow(r, i, n);
      FollowKeeps(r, i, n);
    }
  }

  // A commit index from an earlier leader was chosen too.
  lemma SourceChosen(r: Raft, i: Id, t: nat, c: nat) returns (u: nat, n: nat)
    requires TopsOK(r) && SourceOK(r, i, t, c) && c != 0
    ensures ChosenFrom(r, u, n, t, c)
  {
    if v: nat :| v <= t && Sourced(r, v, c) {
      u, n :| ChosenFrom(r, u, n, v, r.lead[v].top);
    } else {
      u, n :| ChosenFrom(r, u, n, t, c);
    }
  }

  // What the leader of a term has made durable counts as that term's mark.
  function Marked(r: Raft, i: Id, t: nat, term: nat, c: nat): nat
    requires t in r.lead
  {
    if t == term && r.lead[t].owner == i && c > r.lead[t].top then c else r.lead[t].top
  }

  // The leader's own mark first.
  lemma CrownOwn(r: Raft, i: Id, c: nat) returns (q: Raft)
    requires Inv(r) && i in r.disks && Agree(r.disks[i].log, r.committed, c) && SourceOK(r, i, r.disks[i].term, c)
    ensures Inv(q) && Grows(r, q) && SameLogs(r, q) && q == r.(lead := q.lead)
    ensures forall t :: t in r.lead ==> q.lead[t].top == Marked(r, i, t, r.disks[i].term, c)
    ensures forall t :: t in q.lead && q.lead[t].owner != i ==> q.lead[t] == r.lead[t]
    ensures c == 0 || exists u: nat :: u <= r.disks[i].term && Sourced(q, u, c)
  {
    hide Grows, Agree, DisksOK, BallotsOK, BallotsCast, VotesOK, ReignsOK, AcksOK, AllSafe, VotesSafe, CommittedOK,
      DisksCommitted, TopsOK, ChosenFrom;
    var t := r.disks[i].term;
    q := r;
    GrowsRefl(r);
    if c != 0 && t in r.lead && r.lead[t].owner == i {
      var u, n := SourceChosen(r, i, t, c);
      q := Crown(r, t, c);
      CrownKeeps(r, t, c, u, n);
      assert Sourced(q, t, c);
    }
  }

  lemma WriteCommit(r: Raft, i: Id, c: nat) returns (s: Raft)
    requires Inv(r) && i in r.disks && r.disks[i].commit <= c && Agree(r.disks[i].log, r.committed, c)
    requires SourceOK(r, i, r.disks[i].term, c)
    ensures Inv(s) && Written(r, s, i, r.disks[i].(commit := c)) && s.cand == r.cand
    ensures forall t :: t in r.lead ==> s.lead[t].top == Marked(r, i, t, r.disks[i].term, c)
  {
    hide Grows, Agree, Inv, SourceOK, Marked, Sourced;
    var q := CrownOwn(r, i, c);
    s := Learn(q, i, c);
    LearnKeeps(q, i, c);
    GrowsTrans(r, q, s);
  }

  // Term, vote and log together.
  lemma WriteEntries(r: Raft, i: Id, d: Disk) returns (s: Raft)
    requires Inv(r) && CanWrite(r, i, d)
    ensures Inv(s) && Written(r, s, i, r.disks[i].(term := d.term, vote := d.vote, log := d.log)) && s.lead == r.lead
    ensures d.term > r.disks[i].term && d.vote == Some(i) ==>
              Ballot(d.term, i) in s.cand && s.cand[Ballot(d.term, i)] == r.disks[i].log
  {
    hide Inv, Grows, CanGrant, Covers, Agree, SourceOK;
    var a := WriteMeta(r, i, d);
    LogStep(r, a, i, d);
    s := WriteLog(a, i, d.log);
    GrowsTrans(r, a, s);
    assert s.disks == r.disks[i := r.disks[i].(term := d.term, vote := d.vote, log := d.log)];
  }

  // Every admissible write keeps the protocol invariant.
  lemma WriteKeeps(r: Raft, i: Id, d: Disk) returns (s: Raft)
    requires Inv(r) && CanWrite(r, i, d)
    ensures Inv(s) && Written(r, s, i, d)
    ensures d.term > r.disks[i].term && d.vote == Some(i) ==>
              Ballot(d.term, i) in s.cand && s.cand[Ballot(d.term, i)] == r.disks[i].log
    ensures forall t :: t in r.lead ==> s.lead[t].top == Marked(r, i, t, d.term, d.commit)
  {
    hide Inv, Grows, CanWrite;
    assert i in r.disks by { Present(r, i, d); }
    var b := WriteEntries(r, i, d);
    CommitStep(r, b, i, d);
    s := WriteCommit(b, i, d.commit);
    GrowsTrans(r, b, s);
    assert s.disks == r.disks[i := d];
    BallotKept(b, s);
  }

  lemma Present(r: Raft, i: Id, d: Disk)
    requires CanWrite(r, i, d)
    ensures i in r.disks
  {}

  lemma BallotKept(a: Raft, s: Raft)
    requires Grows(a, s)
    ensures forall b :: b in a.cand ==> b in s.cand && s.cand[b] == a.cand[b]
  {}

  lemma LogStep(r: Raft, a: Raft, i: Id, d: Disk)
    requires CanWrite(r, i, d) && Written(r, a, i, r.disks[i].(term := d.term, vote := d.vote)) && a.lead == r.lead
    ensures d.log == a.disks[i].log || CanFollow(a, i, d.log)
  {
    AgreeShorter(d.log, r.committed, d.commit, r.disks[i].commit);
  }

  lemma CommitStep(r: Raft, b: Raft, i: Id, d: Disk)
    requires CanWrite(r, i, d) && b.lead == r.lead && b.committed == r.committed && Grows(r, b)
    requires b.disks == r.disks[i := r.disks[i].(term := d.term, vote := d.vote, log := d.log)]
    ensures b.disks[i].commit <= d.commit && Agree(b.disks[i].log, b.committed, d.commit)
    ensures SourceOK(b, i, b.disks[i].term, d.commit)
  {
    if d.commit != 0 {
      if u: nat :| u <= d.term && Sourced(r, u, d.commit) {
        assert Sourced(b, u, d.commit);
      } else {
        var u: nat, n: nat :| ChosenFrom(r, u, n, d.term, d.commit);
        OwnStable(r, b, u, n);
        ChosenStable(r, b, u, n);
        assert ChosenFrom(b, u, n, d.term, d.commit);
      }
    }
  }
}
