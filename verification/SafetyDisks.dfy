// What never goes backwards: on one node under any inputs, and in every run of
// a cluster, crashes included.
module SafetyDisks {
  import opened Logs
  import opened Transition
  import opened Local
  import opened Cluster
  import opened Simulation
  import opened SimLeader
  import opened SimSteps
  import opened Safety

  // ---------------------------------------------------------------- one node

  // A node driven by arbitrary inputs.
  predicate Driven(config: Config, nodes: seq<Node>, inputs: seq<Input>) {
    |nodes| == |inputs| + 1 &&
    forall k: nat :: k < |inputs| ==> nodes[k + 1] == Step(config, nodes[k], inputs[k]).0
  }

  lemma {:induction false} DrivenValid(config: Config, nodes: seq<Node>, inputs: seq<Input>, k: nat)
    requires Driven(config, nodes, inputs) && k < |nodes| && LocalInv(nodes[0])
    ensures LocalInv(nodes[k])
    decreases k
  {
    hide LocalInv, Step;
    if k > 0 {
      DrivenValid(config, nodes, inputs, k - 1);
      StepKeeps(config, nodes[k - 1], inputs[k - 1]);
      assert nodes[k - 1 + 1] == Step(config, nodes[k - 1], inputs[k - 1]).0;
    }
  }

  lemma StepAdvances(config: Config, node: Node, input: Input)
    requires LocalInv(node)
    ensures Advances(node.durable, Step(config, node, input).0.durable)
  {
    hide Step, ValidDurable, Advances;
    StepKeeps(config, node, input);
    NodeAdvances(node);
  }

  lemma NodeAdvances(node: Node)
    requires LocalInv(node)
    ensures Advances(node.durable, node.durable)
    ensures node.pending.Some? ==> Advances(node.durable, node.pending.value.target)
  {
    hide Advances, ValidTerms;
    AdvancesRefl(node.durable);
  }

  // The local run invariant: from any valid state, whatever the inputs, disk and
  // staged target stay valid, nothing on disk goes backwards between any two
  // moments, and the node never takes the branch for an invalid state.
  lemma {:induction false} LocalRun(config: Config, nodes: seq<Node>, inputs: seq<Input>, j: nat, k: nat)
    requires Driven(config, nodes, inputs) && j <= k < |nodes| && LocalInv(nodes[0])
    ensures LocalInv(nodes[k]) && Advances(nodes[j].durable, nodes[k].durable)
    ensures k < |inputs| && Step(config, nodes[k], inputs[k]).1.halt ==>
              inputs[k].PersistFailed? && nodes[k].pending.Some? && nodes[k].pending.value.token == inputs[k].token
    decreases k
  {
    hide Step, LocalInv, Advances;
    DrivenValid(config, nodes, inputs, k);
    if k < |inputs| {
      StepKeeps(config, nodes[k], inputs[k]);
    }
    if j == k {
      NodeAdvances(nodes[k]);
    } else {
      LocalRun(config, nodes, inputs, j, k - 1);
      DrivenValid(config, nodes, inputs, k - 1);
      StepAdvances(config, nodes[k - 1], inputs[k - 1]);
      assert nodes[k - 1 + 1] == Step(config, nodes[k - 1], inputs[k - 1]).0;
      AdvancesTrans(nodes[j].durable, nodes[k - 1].durable, nodes[k].durable);
    }
  }

  // Every recovered state with a positive term is a start for such a run.
  lemma BootValid(config: Config, d: Durable)
    requires ValidDurable(d) && d.term >= 1
    ensures LocalInv(Boot(config, d)) && Boot(config, d).durable == d
  {}

  // ---------------------------------------------------------------- crashes

  lemma ReplayedAdvances(d: Durable, e: Durable)
    requires Advances(d, e) && ValidDurable(e)
    ensures ValidDurable(Replayed(e)) && Advances(d, Replayed(e))
  {
    forall k: nat | Replayed(e).snapshotIndex < k <= d.commit && d.snapshotIndex < k
      ensures EntryAt(Replayed(e), k) == EntryAt(d, k)
    {
      assert EntryAt(e, k) == EntryAt(d, k);
    }
    forall k: nat | Replayed(e).snapshotIndex <= k <= d.commit
      ensures DurableTermAt(Replayed(e), k) == DurableTermAt(d, k)
    {
      assert DurableTermAt(e, k) == DurableTermAt(d, k);
    }
  }

  lemma MetaAdvances(d: Durable, target: Durable)
    requires ValidDurable(d) && Target(d, target)
    ensures ValidDurable(WithMeta(d, target)) && Advances(d, WithMeta(d, target))
  {
    TargetSameLog(d, WithMeta(d, target));
  }

  // A committed entry is never behind the point where the log is cut.
  lemma CommitShared(d: Durable, target: Durable)
    requires ValidDurable(d) && Target(d, target) && d.snapshotIndex == target.snapshotIndex
    ensures d.commit - d.snapshotIndex <= CommonPrefix(d.log, target.log)
  {
    var n := CommonPrefix(d.log, target.log);
    if n < d.commit - d.snapshotIndex {
      CommittedEntry(d, target, n);
    }
  }

  lemma CommittedEntry(d: Durable, target: Durable, n: nat)
    requires ValidDurable(d) && Target(d, target) && d.snapshotIndex == target.snapshotIndex
    requires n < d.commit - d.snapshotIndex
    ensures n < |d.log| && n < |target.log| && d.log[n] == target.log[n]
  {
    assert EntryAt(target, d.snapshotIndex + n + 1) == EntryAt(d, d.snapshotIndex + n + 1);
  }

  lemma PartAdvances(d: Durable, target: Durable, n: nat)
    requires ValidDurable(d) && Target(d, target)
    requires d.snapshotIndex == target.snapshotIndex && d.snapshotTerm == target.snapshotTerm
    requires CommonPrefix(d.log, target.log) <= n <= |target.log|
    ensures ValidDurable(PartlyWritten(d, target, n)) && Advances(d, PartlyWritten(d, target, n))
  {
    CommitShared(d, target);
    var c := CommonPrefix(d.log, target.log);
    forall k | 0 <= k < d.commit - d.snapshotIndex
      ensures PartlyWritten(d, target, n).log[k] == d.log[k]
    {
      assert d.log[..c][k] == target.log[..c][k];
    }
    MergedKeeps(d, PartlyWritten(d, target, n));
  }

  // Whatever part of a write survives, recovery finds a valid state that is not
  // behind the old disk.
  lemma CrashAdvances(d: Durable, w: Option<PersistRequest>, e: Durable)
    requires ValidDurable(d) && Recoverable(d, w, e)
    requires w.Some? ==> Target(d, w.value.target)
    requires w.Some? && w.value.kind == StateUpdate ==>
               w.value.target.snapshotIndex == d.snapshotIndex && w.value.target.snapshotTerm == d.snapshotTerm
    ensures ValidDurable(e) && Advances(d, e)
  {
    hide Advances, ValidDurable, CommonPrefix, Replayed, PartlyWritten;
    if e == Replayed(d) {
      AdvancesRefl(d);
      ReplayedAdvances(d, d);
    } else {
      var target := w.value.target;
      if e == Replayed(target) {
        ReplayedAdvances(d, target);
      } else if w.value.kind != LocalCompaction && e == Replayed(WithMeta(d, target)) {
        MetaAdvances(d, target);
        ReplayedAdvances(d, WithMeta(d, target));
      } else {
        var n: nat :| CommonPrefix(d.log, target.log) <= n <= |target.log| &&
                      e == Replayed(PartlyWritten(d, target, n));
        PartAdvances(d, target, n);
        ReplayedAdvances(d, PartlyWritten(d, target, n));
      }
    }
  }

  // ---------------------------------------------------------------- runs

  lemma MemberLocal(g: Ghost, net: set<Outbound>, i: Id, node: Node, w: Option<PersistRequest>)
    requires MemberOK(g, net, i, node, w)
    ensures LocalInv(node) && (w.Some? ==> Target(node.durable, w.value.target))
    ensures w.Some? && w.value.kind == StateUpdate ==>
              w.value.target.snapshotIndex == node.durable.snapshotIndex &&
              w.value.target.snapshotTerm == node.durable.snapshotTerm
  {
    hide LeaderOK, CandidateOK, ReadOK, DiskRel, LocalInv, AfterOK, Full, Target;
  }

  lemma NextAdvances(s: State, s': State, g: Ghost, l: Label, i: Id)
    requires SimInv(s, g) && Next(s, s', l) && i in s.nodes
    ensures i in s'.nodes && Advances(s.nodes[i].durable, s'.nodes[i].durable)
  {
    hide SimInv, MemberOK, ConfigOK, Step, Recoverable, Advances, Target, ValidDurable;
    Located(s, g, i);
    MemberLocal(g, s.net, i, s.nodes[i], s.writes[i]);
    NodeAdvances(s.nodes[i]);
    if l.who == i {
      match l.action
      case Handle(input) => StepAdvances(s.configs[i], s.nodes[i], input);
      case Crash(d) => CrashAdvances(s.nodes[i].durable, s.writes[i], d);
      case _ =>
    }
  }

  // In every run, crashes included, no member's term, commit, applied or snapshot
  // index falls, no vote changes within its term and no committed entry that is
  // still retained is altered.
  lemma {:induction false} DisksAdvance(states: seq<State>, labels: seq<Label>, gs: seq<Ghost>, j: nat, k: nat, i: Id)
    requires Run(states, labels) && Explains(states, labels, gs) && j <= k < |states| && i in states[j].nodes
    ensures i in states[k].nodes && Advances(states[j].nodes[i].durable, states[k].nodes[i].durable)
    decreases k
  {
    hide SimInv, Next, GhostStep, Init, Advances, MemberOK, ValidDurable, DiskRel;
    if j == k {
      At(states, labels, gs, k, i);
      AdvancesRefl(states[k].nodes[i].durable);
    } else {
      DisksAdvance(states, labels, gs, j, k - 1, i);
      assert SimInv(states[k - 1], gs[k - 1]);
      assert Next(states[k - 1], states[k - 1 + 1], labels[k - 1]);
      NextAdvances(states[k - 1], states[k], gs[k - 1], labels[k - 1], i);
      AdvancesTrans(states[j].nodes[i].durable, states[k - 1].nodes[i].durable, states[k].nodes[i].durable);
    }
  }

  lemma DurableNeverRegresses(states: seq<State>, labels: seq<Label>, j: nat, k: nat, i: Id)
    requires Run(states, labels) && j <= k < |states| && i in states[j].nodes
    ensures i in states[k].nodes && Advances(states[j].nodes[i].durable, states[k].nodes[i].durable)
  {
    hide Run, Explains, Advances;
    var gs := RunExplained(states, labels);
    DisksAdvance(states, labels, gs, j, k, i);
  }
}
