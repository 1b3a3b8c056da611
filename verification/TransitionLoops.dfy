// The loops of the transition core, proved against the functions the model uses.
module TransitionLoops {
  import opened Logs
  import opened Transition
  import opened Local

  // An append is acceptable when no committed entry would change.
  predicate NoCommittedConflict(log: Log, base: nat, commit: nat, prev: nat, entries: Log)
    requires base <= prev
  {
    forall k :: 0 <= k < |entries| && prev + k < commit && prev + k - base < |log| ==> log[prev + k - base] == entries[k]
  }

  // The merge refuses exactly the appends that contradict the committed prefix.
  lemma {:induction false} MergeAccepts(log: Log, base: nat, commit: nat, prev: nat, entries: Log)
    requires base <= prev <= base + |log| && commit <= base + |log|
    ensures Merge(log, base, commit, prev, entries).ok <==> NoCommittedConflict(log, base, commit, prev, entries)
    decreases |entries|
  {
    var o := prev - base;
    if entries != [] {
      var rest := entries[1..];
      if o == |log| {
        MergeTail(log, base, commit, prev, entries);
      } else if log[o] != entries[0] {
        if prev + 1 <= commit {
          assert log[prev + 0 - base] != entries[0];
        } else {
          MergeTail(log[..o] + [entries[0]], base, commit, prev + 1, rest);
        }
      } else {
        MergeAccepts(log, base, commit, prev + 1, rest);
        ConflictRest(log, base, commit, prev, entries);
      }
    }
  }

  lemma ConflictRest(log: Log, base: nat, commit: nat, prev: nat, entries: Log)
    requires base <= prev < base + |log| && entries != [] && log[prev - base] == entries[0]
    ensures NoCommittedConflict(log, base, commit, prev, entries) <==>
            NoCommittedConflict(log, base, commit, prev + 1, entries[1..])
  {
    var rest := entries[1..];
    if NoCommittedConflict(log, base, commit, prev + 1, rest) {
      forall k | 0 <= k < |entries| && prev + k < commit && prev + k - base < |log|
        ensures log[prev + k - base] == entries[k]
      {
        if k > 0 {
          assert rest[k - 1] == entries[k];
          assert log[prev + 1 + (k - 1) - base] == rest[k - 1];
        }
      }
    }
    if NoCommittedConflict(log, base, commit, prev, entries) {
      forall k | 0 <= k < |rest| && prev + 1 + k < commit && prev + 1 + k - base < |log|
        ensures log[prev + 1 + k - base] == rest[k]
      {
        assert log[prev + (k + 1) - base] == entries[k + 1];
      }
    }
  }

  // The entry loop of an append: cut at the first conflict, then extend.
  method MergeEntries(log: Log, base: nat, commit: nat, prev: nat, entries: Log) returns (merged: Log, ok: bool)
    requires base <= prev <= base + |log| && base <= commit <= base + |log|
    ensures ok <==> NoCommittedConflict(log, base, commit, prev, entries)
    ensures ok ==> merged == if Holds(log, prev - base, entries) then log else log[..prev - base] + entries
    ensures ok ==> commit - base <= |merged| && merged[..commit - base] == log[..commit - base]
    ensures ok ==> Merge(log, base, commit, prev, entries) == Merged(merged, true)
  {
    merged, ok := log, true;
    MergeAccepts(log, base, commit, prev, entries);
    var k := 0;
    while k < |entries|
      invariant 0 <= k <= |entries| && prev + k - base <= |merged| && ok
      invariant Merge(merged, base, commit, prev + k, entries[k..]) == Merge(log, base, commit, prev, entries)
    {
      var index := prev + k + 1;
      var offset := index - base - 1;
      if index <= base + |merged| && merged[offset] != entries[k] {
        if index <= commit {
          ok := false;
          return;
        }
        merged := merged[..offset];
      }
      if index == base + |merged| + 1 {
        merged := merged + [entries[k]];
      }
      k := k + 1;
    }
    assert entries[k..] == [];
    MergeShape(log, base, commit, prev, entries);
    MergeKeepsCommitted(log, base, commit, prev, entries);
  }

  // Count the leader itself and every peer whose match reaches n.
  method CountSupport(node: Node, n: nat) returns (votes: nat)
    ensures votes == 1 + |Supporters(node, n)|
  {
    votes := 1;
    var rest := node.vol.peers.Keys;
    ghost var counted: set<Id> := {};
    while rest != {}
      invariant rest <= node.vol.peers.Keys
      invariant counted == (set p | p in Supporters(node, n) && p !in rest)
      invariant votes == 1 + |counted|
      decreases |rest|
    {
      var p :| p in rest;
      rest := rest - {p};
      if node.vol.peers[p].matched >= n {
        votes := votes + 1;
        counted := counted + {p};
      }
    }
    assert counted == Supporters(node, n);
  }

  // The commit rule: the highest entry of the leader's own term that a quorum stores.
  method HighestCommittable(config: Config, node: Node) returns (n: nat)
    requires ValidDurable(node.durable)
    ensures node.durable.commit <= n <= LastIndex(node.durable)
    ensures n == node.durable.commit || Committable(config, node, n)
    ensures forall m: nat :: n < m <= LastIndex(node.durable) ==> !Committable(config, node, m)
    ensures n == HighestFrom(config, node, LastIndex(node.durable))
  {
    var d := node.durable;
    n := LastIndex(d);
    while n > d.commit
      invariant d.commit <= n <= LastIndex(d)
      invariant forall m: nat :: n < m <= LastIndex(d) ==> !Committable(config, node, m)
      invariant HighestFrom(config, node, n) == HighestFrom(config, node, LastIndex(d))
    {
      if d.log[n - d.snapshotIndex - 1].term == d.term {
        var votes := CountSupport(node, n);
        if votes >= QuorumSize(config) {
          return;
        }
      }
      n := n - 1;
    }
  }

  // Both copy loops keep exactly the entries after the new boundary.
  method RetainedSuffix(log: Log, removed: nat) returns (suffix: Log)
    requires removed <= |log|
    ensures log[..removed] + suffix == log
  {
    suffix := [];
    var offset := removed;
    while offset < |log|
      invariant removed <= offset <= |log| && log[..removed] + suffix == log[..offset]
    {
      suffix := suffix + [log[offset]];
      offset := offset + 1;
    }
  }

  // Compaction is invisible to every question about the commit index or beyond.
  lemma CompactAnswers(d: Durable)
    requires ValidDurable(d)
    ensures LastIndex(CompactTarget(d)) == LastIndex(d)
    ensures forall k: nat {:trigger DurableTermAt(d, k)} :: k >= d.commit ==>
      DurableTermAt(CompactTarget(d), k) == DurableTermAt(d, k)
    ensures forall k: nat {:trigger EntryAt(d, k)} :: d.commit < k <= LastIndex(d) ==>
      EntryAt(CompactTarget(d), k) == EntryAt(d, k)
  {
    hide ValidTerms;
  }

  method Compact(d: Durable) returns (target: Durable)
    requires ValidDurable(d) && d.applied == d.commit
    ensures target == CompactTarget(d) && Target(d, target)
  {
    hide Target, ValidTerms;
    var removed := d.commit - d.snapshotIndex;
    var suffix := RetainedSuffix(d.log, removed);
    assert suffix == (d.log[..removed] + suffix)[removed..];
    target := d.(snapshotIndex := d.commit, snapshotTerm := DurableTermAt(d, d.commit).value, log := suffix);
    TargetCompact(d);
  }
}
