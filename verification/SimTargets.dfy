// The full log behind every target a follower stages, and why writing it is
// admissible at the level of disks.
module SimTargets {
  import opened Logs
  import opened Transition
  import opened Local
  import opened Protocol
  import opened ProtocolEvents
  import opened ProtocolWrites
  import opened Simulation

  // Two backed logs with the same term at the same position coincide up to it.
  lemma SamePosition(r: Raft, l: Log, g: Log, n: nat)
    requires LogOK(r, l) && LogOK(r, g) && n <= |l| && n <= |g| && TermAt(l, n) == TermAt(g, n)
    ensures Agree(l, g, n)
  {
    if n > 0 {
      assert Backed(r, l, n - 1);
      assert Backed(r, g, n - 1);
    }
  }

  // Following g up to k where l differs is a covering write.
  lemma CoversCut(l: Log, g: Log, k: nat)
    requires k <= |g| && !Agree(l, g, k)
    ensures Covers(g[..k], l, g)
  {
    var p := CommonPrefix(l, g);
    if p >= k {
      AgreeShorter(l, g, p, k);
    } else if p < |l| {
      assert ConflictAt(l, g, p);
    } else {
      assert l == g[..p] == g[..k][..p];
    }
  }

  // The log that follows g through index n: l itself if it already does.
  ghost function FollowLog(l: Log, g: Log, n: nat): Log
    requires n <= |g|
  {
    if Agree(l, g, n) then l else g[..n]
  }

  lemma FollowLogOK(l: Log, g: Log, n: nat)
    requires n <= |g|
    ensures Agree(FollowLog(l, g, n), g, n)
    ensures FollowLog(l, g, n) == l || Covers(FollowLog(l, g, n), l, g)
  {
    if !Agree(l, g, n) {
      CoversCut(l, g, n);
    }
  }

  // ---------------------------------------------------------------- durable images

  lemma FullTermAt(d: Durable, l: Log, k: nat)
    requires Full(d, l) && DurableTermAt(d, k).Some?
    ensures d.snapshotIndex <= k <= |l| && DurableTermAt(d, k).value == TermAt(l, k)
  {}

  lemma FullHasTerm(d: Durable, l: Log, k: nat)
    requires Full(d, l) && d.snapshotIndex <= k <= |l|
    ensures DurableTermAt(d, k) == Some(TermAt(l, k))
  {}

  lemma FullLastTerm(d: Durable, l: Log)
    requires Full(d, l)
    ensures DurableLastTerm(d) == LastTerm(l)
  {}

  // Facts about i's disk that every target starts from.
  lemma DiskFacts(r: Raft, i: Id)
    requires Inv(r) && i in r.disks
    ensures LogOK(r, r.disks[i].log) && Agree(r.disks[i].log, r.committed, r.disks[i].commit)
    ensures forall t :: t >= r.disks[i].term ==> SourceOK(r, i, t, r.disks[i].commit)
  {
    assert DiskCommitted(r, i);
  }

  lemma LeadFacts(r: Raft, t: nat)
    requires Inv(r) && t in r.lead
    ensures LogOK(r, r.lead[t].log)
  {
    assert ReignOK(r, t);
  }

  // ---------------------------------------------------------------- terms and votes

  lemma CanAdopt(r: Raft, i: Id, d: Durable, term: nat)
    requires Inv(r) && i in r.disks && DiskRel(d, r.disks[i]) && term >= d.term
    ensures Full(AdoptTerm(d, term), r.disks[i].log) && CanWrite(r, i, DiskOf(AdoptTerm(d, term), r.disks[i].log))
  {
    hide Inv, Agree, SourceOK;
    DiskFacts(r, i);
  }

  lemma CanVote(g: Ghost, i: Id, d: Durable, m: Message)
    requires Inv(g.r) && i in g.r.disks && DiskRel(d, g.r.disks[i]) && m.RequestVote? && m.term >= d.term
    requires MsgOK(g, Outbound(i, m)) && UpToDate(AdoptTerm(d, m.term), m.lastTerm, m.lastIndex)
    requires AdoptTerm(d, m.term).votedFor == None || AdoptTerm(d, m.term).votedFor == Some(m.candidate)
    ensures Full(AdoptTerm(d, m.term).(votedFor := Some(m.candidate)), g.r.disks[i].log)
    ensures CanWrite(g.r, i, DiskOf(AdoptTerm(d, m.term).(votedFor := Some(m.candidate)), g.r.disks[i].log))
  {
    hide Inv, Agree, SourceOK;
    DiskFacts(g.r, i);
    FullLastTerm(d, g.r.disks[i].log);
    assert CanGrant(g.r, i, m.term, m.candidate);
  }

  lemma CanStand(r: Raft, i: Id, d: Durable)
    requires Inv(r) && i in r.disks && DiskRel(d, r.disks[i])
    ensures Full(d.(term := d.term + 1, votedFor := Some(i)), r.disks[i].log)
    ensures CanWrite(r, i, DiskOf(d.(term := d.term + 1, votedFor := Some(i)), r.disks[i].log))
  {
    hide Inv, Agree, SourceOK;
    DiskFacts(r, i);
  }

  // ---------------------------------------------------------------- appends

  ghost predicate Arrives(g: Ghost, i: Id, d: Durable, m: Message) {
    Inv(g.r) && i in g.r.disks && DiskRel(d, g.r.disks[i]) && ValidDurable(d) && m.AppendEntries? && m.term >= d.term &&
    AppendOK(g, m) && DurableTermAt(AdoptTerm(d, m.term), m.prevIndex) == Some(m.prevTerm)
  }

  // The log below an accepted append is the leader's.
  lemma PrevAgrees(g: Ghost, i: Id, d: Durable, m: Message)
    requires Arrives(g, i, d, m)
    ensures d.snapshotIndex <= m.prevIndex && Agree(g.r.disks[i].log, g.r.lead[m.term].log, m.prevIndex)
  {
    hide Inv, Agree;
    DiskFacts(g.r, i);
    LeadFacts(g.r, m.term);
    FullTermAt(d, g.r.disks[i].log, m.prevIndex);
    SamePosition(g.r, g.r.disks[i].log, g.r.lead[m.term].log, m.prevIndex);
  }

  lemma HoldsAgrees(d: Durable, l: Log, lead: Log, prev: nat, entries: Log)
    requires Full(d, l) && d.snapshotIndex <= prev && Agree(l, lead, prev)
    requires prev + |entries| <= |lead| && lead[prev..prev + |entries|] == entries
    ensures Holds(d.log, prev - d.snapshotIndex, entries) <==> Agree(l, lead, prev + |entries|)
    ensures !Agree(l, lead, prev + |entries|) ==> l[..prev] + entries == lead[..prev + |entries|]
  {
    var end, o := prev + |entries|, prev - d.snapshotIndex;
    assert lead[..end] == lead[..prev] + lead[prev..end];
    if end <= |l| {
      assert l[..end] == l[..prev] + l[prev..end];
      assert d.log[o..o + |entries|] == l[prev..end];
      assert Agree(l, lead, end) ==> l[prev..end] == l[..end][prev..] == lead[..end][prev..];
    }
  }

  // Merging retained entries is following the leader's log.
  lemma MergeFollows(d: Durable, l: Log, lead: Log, prev: nat, entries: Log)
    requires Full(d, l) && d.snapshotIndex <= d.commit <= |l| && d.snapshotIndex <= prev && Agree(l, lead, prev)
    requires prev + |entries| <= |lead| && lead[prev..prev + |entries|] == entries
    requires Merge(d.log, d.snapshotIndex, d.commit, prev, entries).ok
    ensures
      var n := FollowLog(l, lead, prev + |entries|);
      d.snapshotIndex <= |n| && n[d.snapshotIndex..] == Merge(d.log, d.snapshotIndex, d.commit, prev, entries).log &&
      Agree(n, l, d.commit) && Agree(n, l, d.snapshotIndex)
  {
    hide Merge, Holds, Agree, Full, FollowLog;
    var si, end := d.snapshotIndex, prev + |entries|;
    FullEnd(d, l);
    AgreeLength(l, lead, prev);
    MergeShape(d.log, si, d.commit, prev, entries);
    MergeKeepsCommitted(d.log, si, d.commit, prev, entries);
    HoldsAgrees(d, l, lead, prev, entries);
    if Agree(l, lead, end) {
      FollowKept(d, l, lead, end);
    } else {
      FollowCut(d, l, lead, prev, entries);
    }
  }

  lemma FullEnd(d: Durable, l: Log)
    requires Full(d, l)
    ensures d.snapshotIndex + |d.log| == |l|
  {}

  lemma FollowKept(d: Durable, l: Log, lead: Log, end: nat)
    requires Full(d, l) && d.snapshotIndex <= d.commit <= |l| && end <= |lead| && Agree(l, lead, end)
    ensures
      var n := FollowLog(l, lead, end);
      d.snapshotIndex <= |n| && n[d.snapshotIndex..] == d.log && Agree(n, l, d.commit) && Agree(n, l, d.snapshotIndex)
  {
    hide Agree;
    AgreeSelf(l, d.commit);
    AgreeSelf(l, d.snapshotIndex);
  }

  lemma FollowCut(d: Durable, l: Log, lead: Log, prev: nat, entries: Log)
    requires Full(d, l) && d.snapshotIndex <= d.commit <= |l| && d.snapshotIndex <= prev && Agree(l, lead, prev)
    requires prev + |entries| <= |lead| && lead[prev..prev + |entries|] == entries
    requires !Agree(l, lead, prev + |entries|) && d.commit <= prev + |entries| && prev <= |l|
    requires (d.log[..prev - d.snapshotIndex] + entries)[..d.commit - d.snapshotIndex] ==
             d.log[..d.commit - d.snapshotIndex]
    ensures
      var n := FollowLog(l, lead, prev + |entries|);
      d.snapshotIndex <= |n| && n[d.snapshotIndex..] == d.log[..prev - d.snapshotIndex] + entries &&
      Agree(n, l, d.commit) && Agree(n, l, d.snapshotIndex)
  {
    hide Agree;
    CutSuffix(d, l, lead, prev, entries);
    PrefixJoin(l, lead[..prev + |entries|], d.snapshotIndex, d.commit);
  }

  lemma AgreeSelf(l: Log, n: nat)
    requires n <= |l|
    ensures Agree(l, l, n)
  {}

  // What a cut at the end of the entries retains.
  lemma CutSuffix(d: Durable, l: Log, lead: Log, prev: nat, entries: Log)
    requires Full(d, l) && d.snapshotIndex <= prev && Agree(l, lead, prev)
    requires prev + |entries| <= |lead| && lead[prev..prev + |entries|] == entries
    ensures lead[..prev + |entries|][d.snapshotIndex..] == d.log[..prev - d.snapshotIndex] + entries
    ensures lead[..prev + |entries|][..d.snapshotIndex] == l[..d.snapshotIndex]
  {
    var si, n := d.snapshotIndex, lead[..prev + |entries|];
    assert d.log[..prev - si] == l[si..prev];
    assert l[si..prev] == l[..prev][si..] == lead[..prev][si..];
    assert n[si..] == lead[..prev][si..] + entries;
    assert n[..si] == l[..prev][..si] == l[..si];
  }

  lemma PrefixJoin(l: Log, n: Log, a: nat, b: nat)
    requires a <= b <= |l| && b <= |n| && l[..a] == n[..a] && l[a..][..b - a] == n[a..][..b - a]
    ensures Agree(n, l, a) && Agree(n, l, b)
  {
    assert l[..b] == l[..a] + l[a..][..b - a];
    assert n[..b] == n[..a] + n[a..][..b - a];
  }

  // The target's commit index lies inside the committed prefix.
  lemma AppendCommits(g: Ghost, i: Id, d: Durable, m: Message, n: Log, end: nat)
    requires Inv(g.r) && i in g.r.disks && DiskRel(d, g.r.disks[i])
    requires m.AppendEntries? && m.term >= d.term && AppendOK(g, m)
    requires Agree(n, g.r.disks[i].log, d.commit) && Agree(n, g.r.lead[m.term].log, end)
    ensures
      var c := Max(d.commit, Min(m.leaderCommit, end));
      Agree(n, g.r.committed, c) && SourceOK(g.r, i, m.term, c)
  {
    hide Inv, Full;
    var c := Max(d.commit, Min(m.leaderCommit, end));
    DiskFacts(g.r, i);
    if c != d.commit {
      AgreeShorter(n, g.r.lead[m.term].log, end, c);
      AgreeShorter(g.r.lead[m.term].log, g.r.committed, m.leaderCommit, c);
      assert Sourced(g.r, m.term, c);
    }
  }

  lemma CanAppend(g: Ghost, i: Id, d: Durable, m: Message)
    requires Arrives(g, i, d, m) && d.snapshotIndex <= m.prevIndex <= LastIndex(d)
    requires Merge(d.log, d.snapshotIndex, d.commit, m.prevIndex, m.entries).ok
    ensures
      var a := AdoptTerm(d, m.term);
      var end := m.prevIndex + |m.entries|;
      var target := a.(log := Merge(d.log, d.snapshotIndex, d.commit, m.prevIndex, m.entries).log,
                       commit := Max(d.commit, Min(m.leaderCommit, end)));
      var n := FollowLog(g.r.disks[i].log, g.r.lead[m.term].log, end);
      Full(target, n) && CanWrite(g.r, i, DiskOf(target, n)) && Agree(n, g.r.lead[m.term].log, end)
  {
    hide Inv, Merge, ValidTerms, Agree, SourceOK, Covers, FollowLog;
    var l, lead := g.r.disks[i].log, g.r.lead[m.term].log;
    var end := m.prevIndex + |m.entries|;
    var n := FollowLog(l, lead, end);
    PrevAgrees(g, i, d, m);
    AppendedFull(d, l, lead, m.prevIndex, m.entries);
    FollowLogOK(l, lead, end);
    AgreeLength(n, l, d.commit);
    AppendCommits(g, i, d, m, n, end);
  }

  // The merged log is an image of the followed one.
  lemma AppendedFull(d: Durable, l: Log, lead: Log, prev: nat, entries: Log)
    requires Full(d, l) && d.snapshotIndex <= d.commit <= |l| && d.snapshotIndex <= prev && Agree(l, lead, prev)
    requires prev + |entries| <= |lead| && lead[prev..prev + |entries|] == entries
    requires Merge(d.log, d.snapshotIndex, d.commit, prev, entries).ok
    ensures
      var n := FollowLog(l, lead, prev + |entries|);
      Full(d.(log := Merge(d.log, d.snapshotIndex, d.commit, prev, entries).log), n) && Agree(n, l, d.commit)
  {
    hide Merge, Agree, FollowLog;
    MergeFollows(d, l, lead, prev, entries);
    AgreeTermAt(FollowLog(l, lead, prev + |entries|), l, d.snapshotIndex);
  }

  lemma AgreeLength(a: Log, b: Log, n: nat)
    requires Agree(a, b, n)
    ensures n <= |a| && n <= |b|
  {}

  lemma CanCatchUp(g: Ghost, i: Id, d: Durable, m: Message)
    requires Arrives(g, i, d, m)
    ensures
      var target := AdoptTerm(d, m.term).(commit := Max(d.commit, Min(m.leaderCommit, m.prevIndex)));
      Full(target, g.r.disks[i].log) && CanWrite(g.r, i, DiskOf(target, g.r.disks[i].log))
  {
    hide Inv;
    PrevAgrees(g, i, d, m);
    AppendCommits(g, i, d, m, g.r.disks[i].log, m.prevIndex);
  }

  // ---------------------------------------------------------------- snapshots

  ghost predicate Offered(g: Ghost, i: Id, d: Durable, m: Message) {
    Inv(g.r) && i in g.r.disks && DiskRel(d, g.r.disks[i]) && ValidDurable(d) && m.SnapshotRequest? && m.term >= d.term &&
    BoundaryOK(g.r, m.term, m.index, m.snapshotTerm)
  }

  // A log with the boundary's term at the boundary holds the snapshot's prefix.
  lemma BoundaryAgrees(g: Ghost, i: Id, d: Durable, m: Message)
    requires Offered(g, i, d, m) && DurableTermAt(AdoptTerm(d, m.term), m.index) == Some(m.snapshotTerm)
    ensures Agree(g.r.disks[i].log, g.r.lead[m.term].log, m.index)
  {
    hide Inv;
    DiskFacts(g.r, i);
    LeadFacts(g.r, m.term);
    FullTermAt(d, g.r.disks[i].log, m.index);
    AgreeTermAt(g.r.lead[m.term].log, g.r.committed, m.index);
    SamePosition(g.r, g.r.disks[i].log, g.r.lead[m.term].log, m.index);
  }

  lemma BoundaryMisses(g: Ghost, i: Id, d: Durable, m: Message)
    requires Offered(g, i, d, m) && m.index > d.commit
    requires DurableTermAt(AdoptTerm(d, m.term), m.index) != Some(m.snapshotTerm)
    ensures !Agree(g.r.disks[i].log, g.r.lead[m.term].log, m.index)
  {
    hide Inv;
    if Agree(g.r.disks[i].log, g.r.lead[m.term].log, m.index) {
      AgreeTermAt(g.r.disks[i].log, g.r.lead[m.term].log, m.index);
      AgreeTermAt(g.r.lead[m.term].log, g.r.committed, m.index);
      FullHasTerm(d, g.r.disks[i].log, m.index);
    }
  }

  // The installed log is an image of the followed one.
  lemma InstalledFull(d: Durable, l: Log, lead: Log, index: nat, term: nat)
    requires Full(d, l) && d.snapshotIndex < index <= |lead| && TermAt(lead, index) == term
    requires DurableTermAt(d, index) == Some(term) <==> Agree(l, lead, index)
    ensures Full(InstallTarget(d, index, term), FollowLog(l, lead, index))
  {
    if Agree(l, lead, index) {
      AgreeTermAt(l, lead, index);
      assert d.log[index - d.snapshotIndex..] == l[index..];
    }
  }

  // The followed log holds the committed prefix up to the boundary.
  lemma InstalledCommit(r: Raft, i: Id, t: nat, index: nat, term: nat, n: Log)
    requires BoundaryOK(r, t, index, term) && index <= |r.lead[t].log| && Agree(n, r.lead[t].log, index)
    ensures Agree(n, r.committed, index) && SourceOK(r, i, t, index)
  {
    assert Sourced(r, t, index);
  }

  lemma BoundaryTerm(r: Raft, t: nat, index: nat, term: nat)
    requires BoundaryOK(r, t, index, term)
    ensures index <= |r.lead[t].log| && TermAt(r.lead[t].log, index) == term
  {
    AgreeTermAt(r.lead[t].log, r.committed, index);
  }

  lemma CanInstall(g: Ghost, i: Id, d: Durable, m: Message)
    requires Offered(g, i, d, m) && m.index > d.commit
    ensures
      var target := InstallTarget(AdoptTerm(d, m.term), m.index, m.snapshotTerm);
      var n := FollowLog(g.r.disks[i].log, g.r.lead[m.term].log, m.index);
      Full(target, n) && CanWrite(g.r, i, DiskOf(target, n)) && Agree(n, g.r.lead[m.term].log, m.index)
  {
    hide Inv, Agree, SourceOK, Covers, FollowLog, DurableTermAt, ValidTerms;
    var l, lead := g.r.disks[i].log, g.r.lead[m.term].log;
    BoundaryTerm(g.r, m.term, m.index, m.snapshotTerm);
    var n := FollowLog(l, lead, m.index);
    FollowLogOK(l, lead, m.index);
    if DurableTermAt(AdoptTerm(d, m.term), m.index) == Some(m.snapshotTerm) {
      BoundaryAgrees(g, i, d, m);
    } else {
      BoundaryMisses(g, i, d, m);
    }
    InstalledFull(AdoptTerm(d, m.term), l, lead, m.index, m.snapshotTerm);
    InstalledCommit(g.r, i, m.term, m.index, m.snapshotTerm, n);
  }
}
