// Hosts over their files and a network: every run of them is a run of the
// cluster, so what is safe there is safe here.
module HostRuns {
  import opened Logs
  import opened Transition
  import opened Local
  import opened Cluster
  import opened Safety
  import opened SafetyReads
  import opened SafetyDisks
  import opened Adapter
  import opened AdapterWrites
  import opened HostTraces
  import opened Host

  // Between two dispatches a host is ready, or stopped over what recovery will
  // find in its files.
  datatype HostView = Running(node: Node) | Stopped(image: Durable)

  datatype HostState = HostState(configs: map<Id, Config>, hosts: map<Id, HostView>, net: set<Outbound>)

  datatype HostAction =
    // One dispatch: the core steps it took and, if it did not succeed or the
    // process died meanwhile, the image left on disk.
    | Drive(input: Input, nodes: seq<Node>, inputs: seq<Input>, left: Option<Durable>)
    // The process dies between two dispatches.
    | Kill
    // A stopped host is opened again.
    | Revive
    | OfferChunk(peer: Id, ready: bool)
    | RefuseOffer(leader: Id, requestId: nat)

  datatype HostLabel = HostLabel(who: Id, action: HostAction)

  ghost predicate DriveStep(h: HostState, h': HostState, i: Id, a: HostAction)
    requires i in h.hosts && i in h.configs && a.Drive?
  {
    var config := h.configs[i];
    h.hosts[i].Running? && !a.input.Restart? && (a.input.Receive? ==> Outbound(i, a.input.message) in h.net) &&
    Trace(config, h.hosts[i].node, a.input, a.nodes, a.inputs) &&
    match a.left
    case None =>
      Writing(config, a.nodes, a.inputs) == None &&
      h' == h.(hosts := h.hosts[i := Running(a.nodes[|a.inputs|])],
               net := h.net + Sends(Output(config, a.nodes, a.inputs).send))
    case Some(e) =>
      LeftBy(config, a.nodes, a.inputs, e) && h' == h.(hosts := h.hosts[i := Stopped(e)])
  }

  ghost predicate HostNext(h: HostState, h': HostState, l: HostLabel) {
    var i := l.who;
    i in h.hosts && i in h.configs &&
    match l.action
    case Drive(_, _, _, _) => DriveStep(h, h', i, l.action)
    case Kill => h.hosts[i].Running? && h' == h.(hosts := h.hosts[i := Stopped(Replayed(h.hosts[i].node.durable))])
    case Revive => h.hosts[i].Stopped? && h' == h.(hosts := h.hosts[i := Running(Boot(h.configs[i], h.hosts[i].image))])
    case OfferChunk(peer, ready) =>
      h.hosts[i].Running? &&
      var node := h.hosts[i].node;
      node.vol.role == Leader && peer in node.vol.peers && node.vol.peers[peer].snapshotInFlight.Some? &&
      var needed := node.vol.peers[peer].snapshotInFlight.value;
      h' == h.(net := h.net + {Outbound(peer, SnapshotRequest(node.durable.term, i, needed.index, needed.term,
                                                              needed.requestId, ready))})
    case RefuseOffer(leader, requestId) =>
      h.hosts[i].Running? &&
      h' == h.(net := h.net + {Outbound(leader, SnapshotReply(h.hosts[i].node.durable.term, i, false, 0, requestId))})
  }

  // Empty stores, freshly opened.
  ghost predicate HostInit(h: HostState) {
    h.net == {} && h.hosts.Keys == h.configs.Keys &&
    (forall i :: i in h.configs ==>
      h.configs[i].self == i && Distinct(h.configs[i].peers) &&
      (set p | p in h.configs[i].peers) == h.configs.Keys - {i}) &&
    forall i :: i in h.hosts ==>
      h.hosts[i].Running? && Blank(h.hosts[i].node.durable) &&
      h.hosts[i].node == Boot(h.configs[i], h.hosts[i].node.durable)
  }

  ghost predicate HostRun(hs: seq<HostState>, ls: seq<HostLabel>) {
    |hs| == |ls| + 1 && HostInit(hs[0]) && forall k: nat :: k < |ls| ==> HostNext(hs[k], hs[k + 1], ls[k])
  }

  // ---------------------------------------------------------------- the hosts do this

  // What the abstract state says about a host object.
  ghost predicate Represents(h: HostState, i: Id, host: RuntimeHost)
    reads host, host.adapter, host.adapter.store
  {
    i in h.hosts && i in h.configs && h.configs[i] == host.config &&
    h.hosts[i] == if host.node.halted then Stopped(Image(host.adapter.store.files)) else Running(host.node)
  }

  // A dispatch is one step, whether it succeeds or not.
  method DispatchIn(ghost h: HostState, i: Id, host: RuntimeHost, input: Input, installing: Option<Snapshot>)
    returns (result: Option<HostEffects>, ghost h': HostState, ghost a: HostAction)
    requires host.Valid() && !host.node.halted && Represents(h, i, host)
    requires !input.Restart? && (input.Receive? ==> Outbound(i, input.message) in h.net)
    modifies host, host.adapter, host.adapter.store
    ensures host.Valid() && Represents(h', i, host) && HostNext(h, h', HostLabel(i, a)) && a.Drive? && a.input == input
    ensures h'.net == h.net + if result.Some? then Sends(result.value.send) else {}
  {
    hide Image, Step, Output, Writing;
    ghost var nodes, inputs;
    result, nodes, inputs := host.Dispatch(input, installing);
    if result.Some? {
      a := Drive(input, nodes, inputs, None);
      h' := h.(hosts := h.hosts[i := Running(host.node)], net := h.net + Sends(result.value.send));
    } else {
      a := Drive(input, nodes, inputs, Some(Image(host.adapter.store.files)));
      h' := h.(hosts := h.hosts[i := Stopped(Image(host.adapter.store.files))]);
      assert h.net + {} == h.net;
    }
  }

  // So is opening a stopped host again.
  method ReopenIn(ghost h: HostState, i: Id, host: RuntimeHost, fuel: nat, torn: bool, refuseAfter: nat)
    returns (again: RuntimeHost, ghost h': HostState)
    requires host.Valid() && host.node.halted && Represents(h, i, host)
    ensures fresh(again) && again.Valid() && Represents(h', i, again) && HostNext(h, h', HostLabel(i, Revive))
  {
    hide Image;
    again := Reopen(host, fuel, torn, refuseAfter);
    h' := h.(hosts := h.hosts[i := Running(again.node)]);
  }

  // ---------------------------------------------------------------- simulation

  ghost predicate Shows(host: HostView, node: Node, w: Option<PersistRequest>) {
    match host
    case Running(n) => n == node && w == None
    case Stopped(e) => Recoverable(node.durable, w, e)
  }

  // The cluster state s explains h; messages of failed dispatches stay unsent.
  ghost predicate Matches(h: HostState, s: State) {
    s.configs == h.configs && h.hosts.Keys == h.configs.Keys && s.nodes.Keys == h.configs.Keys &&
    s.writes.Keys == h.configs.Keys && h.net <= s.net &&
    forall i :: i in h.hosts ==> Shows(h.hosts[i], s.nodes[i], s.writes[i])
  }

  // Steps p.. of the run are these steps of node i.
  ghost predicate Segment(states: seq<State>, labels: seq<Label>, p: nat, i: Id, nodes: seq<Node>, inputs: seq<Input>) {
    p + |inputs| <= |labels| && |states| == |labels| + 1 && |nodes| == |inputs| + 1 &&
    (forall m :: 0 <= m < |inputs| ==> labels[p + m] == Label(i, Handle(inputs[m]))) &&
    (forall m :: 0 <= m <= |inputs| ==> NodeAt(states, p, p + m, i, nodes[m]))
  }

  predicate NodeAt(states: seq<State>, p: nat, k: nat, i: Id, node: Node) {
    p < |states| && k < |states| && i in states[k].nodes && states[k].nodes[i] == node &&
    states[k].configs == states[p].configs
  }

  lemma RunMore(states: seq<State>, labels: seq<Label>, s: State, l: Label)
    requires Run(states, labels) && Next(states[|labels|], s, l)
    ensures Run(states + [s], labels + [l])
  {
    hide Next, Init;
    var ss, ll := states + [s], labels + [l];
    forall k: nat | k < |ll|
      ensures Next(ss[k], ss[k + 1], ll[k])
    {
      if k < |labels| {
        assert Next(states[k], states[k + 1], labels[k]);
      }
    }
  }

  // Inputs node i may be given in this network.
  ghost predicate Allowed(net: set<Outbound>, i: Id, inputs: seq<Input>) {
    forall k :: 0 <= k < |inputs| ==>
      !inputs[k].Restart? && (inputs[k].Receive? ==> Outbound(i, inputs[k].message) in net)
  }

  // The state after these steps of i.
  function AfterSteps(s: State, i: Id, nodes: seq<Node>, inputs: seq<Input>): State
    requires i in s.configs && Driven(s.configs[i], nodes, inputs)
  {
    s.(nodes := s.nodes[i := nodes[|inputs|]],
       writes := s.writes[i := Writing(s.configs[i], nodes, inputs)],
       net := s.net + Sends(Output(s.configs[i], nodes, inputs).send))
  }

  lemma SendsJoin(a: seq<Outbound>, b: seq<Outbound>)
    ensures Sends(a + b) == Sends(a) + Sends(b)
  {}

  lemma DrivenPrefix(config: Config, nodes: seq<Node>, inputs: seq<Input>)
    requires Driven(config, nodes, inputs) && inputs != []
    ensures
      var n := |inputs| - 1;
      Driven(config, nodes[..n + 1], inputs[..n]) && nodes[n + 1] == Step(config, nodes[n], inputs[n]).0
  {
    hide Step;
  }

  // A sequence of core steps is a stretch of a cluster run.
  lemma {:induction false} TraceRuns(states: seq<State>, labels: seq<Label>, i: Id, nodes: seq<Node>, inputs: seq<Input>)
    returns (states': seq<State>, labels': seq<Label>)
    requires Run(states, labels)
    requires
      var s := states[|labels|];
      i in s.nodes && i in s.configs && i in s.writes && Driven(s.configs[i], nodes, inputs) &&
      nodes[0] == s.nodes[i] && s.writes[i] == None && Allowed(s.net, i, inputs)
    ensures Run(states', labels') && states <= states' && labels <= labels' && |labels'| == |labels| + |inputs|
    ensures states'[|labels'|] == AfterSteps(states[|labels|], i, nodes, inputs)
    ensures Segment(states', labels', |labels|, i, nodes, inputs)
    decreases |inputs|
  {
    hide Init, Next, Step, Segment;
    var s := states[|labels|];
    if inputs == [] {
      states', labels' := states, labels;
      SegmentStart(states, labels, i, nodes);
      assert s.nodes[i := nodes[0]] == s.nodes && s.writes[i := None] == s.writes && s.net + Sends([]) == s.net;
    } else {
      var n := |inputs| - 1;
      DrivenPrefix(s.configs[i], nodes, inputs);
      var ss, ll := TraceRuns(states, labels, i, nodes[..n + 1], inputs[..n]);
      var t, next := AfterSteps(s, i, nodes[..n + 1], inputs[..n]), AfterSteps(s, i, nodes, inputs);
      LastStep(s, i, nodes, inputs);
      HandleNext(t, next, i, inputs[n]);
      RunMore(ss, ll, next, Label(i, Handle(inputs[n])));
      states', labels' := ss + [next], ll + [Label(i, Handle(inputs[n]))];
      SegmentMore(ss, ll, |labels|, i, nodes, inputs, next);
    }
  }

  lemma SegmentStart(states: seq<State>, labels: seq<Label>, i: Id, nodes: seq<Node>)
    requires |states| == |labels| + 1 && |nodes| == 1
    requires i in states[|labels|].nodes && states[|labels|].nodes[i] == nodes[0]
    ensures Segment(states, labels, |labels|, i, nodes, [])
  {}

  lemma SegmentMore(states: seq<State>, labels: seq<Label>, p: nat, i: Id, nodes: seq<Node>, inputs: seq<Input>, next: State)
    requires |nodes| == |inputs| + 1 && inputs != [] && |labels| == p + |inputs| - 1
    requires Segment(states, labels, p, i, nodes[..|inputs|], inputs[..|inputs| - 1])
    requires i in next.nodes && next.nodes[i] == nodes[|inputs|] && next.configs == states[p].configs
    ensures Segment(states + [next], labels + [Label(i, Handle(inputs[|inputs| - 1]))], p, i, nodes, inputs)
  {
    var ss, ll := states + [next], labels + [Label(i, Handle(inputs[|inputs| - 1]))];
    forall m | 0 <= m < |inputs|
      ensures ll[p + m] == Label(i, Handle(inputs[m]))
    {
      if m < |inputs| - 1 {
        assert inputs[..|inputs| - 1][m] == inputs[m];
      }
    }
    forall m | 0 <= m <= |inputs|
      ensures NodeAt(ss, p, p + m, i, nodes[m])
    {
      if m < |inputs| {
        assert NodeAt(states, p, p + m, i, nodes[..|inputs|][m]);
      }
    }
  }

  lemma LastStep(s: State, i: Id, nodes: seq<Node>, inputs: seq<Input>)
    requires i in s.nodes && i in s.configs && i in s.writes && inputs != []
    requires Driven(s.configs[i], nodes, inputs) && Allowed(s.net, i, inputs)
    ensures
      var n := |inputs| - 1;
      Driven(s.configs[i], nodes[..n + 1], inputs[..n]) &&
      HandleStep(AfterSteps(s, i, nodes[..n + 1], inputs[..n]), AfterSteps(s, i, nodes, inputs), i, inputs[n])
  {
    hide Step, Completes;
    var n := |inputs| - 1;
    var config := s.configs[i];
    DrivenPrefix(config, nodes, inputs);
    var before := Output(config, nodes[..n + 1], inputs[..n]);
    var effects := Step(config, nodes[n], inputs[n]).1;
    SendsJoin(before.send, effects.send);
    assert s.net + Sends(before.send) + Sends(effects.send) == s.net + (Sends(before.send) + Sends(effects.send));
  }

  lemma HandleNext(s: State, s': State, i: Id, input: Input)
    requires i in s.nodes && i in s.configs && i in s.writes && HandleStep(s, s', i, input)
    ensures Next(s, s', Label(i, Handle(input)))
  {
    hide HandleStep;
  }

  // ---------------------------------------------------------------- one host step

  // How a host step shows in the cluster run between positions p and q.
  ghost predicate ShownAs(states: seq<State>, labels: seq<Label>, p: nat, q: nat, l: HostLabel) {
    match l.action
    case Drive(_, nodes, inputs, _) => q == p + |inputs| && Segment(states, labels, p, l.who, nodes, inputs)
    case Kill => q == p
    case _ => q == p + 1 <= |labels| && labels[p].who == l.who && !labels[p].action.Handle?
  }

  lemma TraceAllowed(h: HostState, s: State, i: Id, a: HostAction)
    requires Matches(h, s) && i in h.hosts && i in h.configs && a.Drive?
    requires !a.input.Restart? && (a.input.Receive? ==> Outbound(i, a.input.message) in h.net)
    requires a.inputs != [] && a.inputs[0] == a.input && forall k :: 0 < k < |a.inputs| ==> Internal(a.inputs[k])
    ensures Allowed(s.net, i, a.inputs)
  {
    hide Shows;
  }

  lemma DriveMatches(h: HostState, h': HostState, s: State, i: Id, a: HostAction)
    requires Matches(h, s) && i in h.hosts && i in h.configs && a.Drive? && DriveStep(h, h', i, a)
    ensures Driven(s.configs[i], a.nodes, a.inputs) && Matches(h', AfterSteps(s, i, a.nodes, a.inputs))
  {
    hide Output, Writing, Recoverable, Step;
    var t := AfterSteps(s, i, a.nodes, a.inputs);
    forall j | j in h'.hosts
      ensures Shows(h'.hosts[j], t.nodes[j], t.writes[j])
    {
      assert j in h.hosts && Shows(h.hosts[j], s.nodes[j], s.writes[j]);
    }
  }

  // One step that is not a dispatch: at most one step of the cluster.
  lemma OtherStep(h: HostState, h': HostState, s: State, l: HostLabel) returns (s': State, a: Action)
    requires Matches(h, s) && HostNext(h, h', l) && !l.action.Drive? && !l.action.Kill?
    ensures Next(s, s', Label(l.who, a)) && !a.Handle? && Matches(h', s')
  {
    hide Recoverable, Boot;
    var i := l.who;
    assert Shows(h.hosts[i], s.nodes[i], s.writes[i]);
    match l.action
    case Revive =>
      var e := h.hosts[i].image;
      a := Crash(e);
      s' := s.(nodes := s.nodes[i := Boot(s.configs[i], e)], writes := s.writes[i := None]);
      OthersShow(h, h', s, s', i);
    case OfferChunk(peer, ready) =>
      a := Offer(peer, ready);
      var needed := s.nodes[i].vol.peers[peer].snapshotInFlight.value;
      s' := s.(net := s.net + {Outbound(peer, SnapshotRequest(s.nodes[i].durable.term, i, needed.index, needed.term,
                                                              needed.requestId, ready))});
      OthersShow(h, h', s, s', i);
    case RefuseOffer(leader, requestId) =>
      a := RefuseChunk(leader, requestId);
      s' := s.(net := s.net + {Outbound(leader, SnapshotReply(s.nodes[i].durable.term, i, false, 0, requestId))});
      OthersShow(h, h', s, s', i);
  }

  lemma OthersShow(h: HostState, h': HostState, s: State, s': State, i: Id)
    requires Matches(h, s) && i in h.hosts && i in h'.hosts && i in s'.nodes && i in s'.writes
    requires h'.configs == h.configs && s'.configs == s.configs && h'.hosts == h.hosts[i := h'.hosts[i]]
    requires s'.nodes == s.nodes[i := s'.nodes[i]] && s'.writes == s.writes[i := s'.writes[i]] && h'.net <= s'.net
    requires Shows(h'.hosts[i], s'.nodes[i], s'.writes[i])
    ensures Matches(h', s')
  {
    hide Shows;
    forall j | j in h'.hosts
      ensures Shows(h'.hosts[j], s'.nodes[j], s'.writes[j])
    {
      assert Shows(h.hosts[j], s.nodes[j], s.writes[j]);
    }
  }

  lemma HostStepRuns(h: HostState, h': HostState, l: HostLabel, states: seq<State>, labels: seq<Label>)
    returns (states': seq<State>, labels': seq<Label>)
    requires Run(states, labels) && Matches(h, states[|labels|]) && HostNext(h, h', l)
    ensures Run(states', labels') && states <= states' && labels <= labels' && Matches(h', states'[|labels'|])
    ensures ShownAs(states', labels', |labels|, |labels'|, l)
  {
    hide Init, Next, Shows, Segment, Trace, AfterSteps, Output, Writing, LeftBy;
    var s, i := states[|labels|], l.who;
    if l.action.Drive? {
      var a := l.action;
      DriveMatches(h, h', s, i, a);
      TraceStarts(h, h', s, i, a);
      states', labels' := TraceRuns(states, labels, i, a.nodes, a.inputs);
    } else if l.action.Kill? {
      states', labels' := states, labels;
      KillMatches(h, h', s, i);
    } else {
      var t, a := OtherStep(h, h', s, l);
      RunMore(states, labels, t, Label(i, a));
      states', labels' := states + [t], labels + [Label(i, a)];
    }
  }

  lemma TraceStarts(h: HostState, h': HostState, s: State, i: Id, a: HostAction)
    requires Matches(h, s) && i in h.hosts && i in h.configs && a.Drive? && DriveStep(h, h', i, a)
    ensures Driven(s.configs[i], a.nodes, a.inputs) && a.nodes[0] == s.nodes[i] && s.writes[i] == None
    ensures Allowed(s.net, i, a.inputs)
  {
    hide Output, Writing, Recoverable, Step, Allowed;
    assert Shows(h.hosts[i], s.nodes[i], s.writes[i]);
    TraceAllowed(h, s, i, a);
  }

  lemma KillMatches(h: HostState, h': HostState, s: State, i: Id)
    requires Matches(h, s) && HostNext(h, h', HostLabel(i, Kill))
    ensures Matches(h', s)
  {
    assert Shows(h.hosts[i], s.nodes[i], s.writes[i]);
    assert s.nodes == s.nodes[i := s.nodes[i]] && s.writes == s.writes[i := s.writes[i]];
    OthersShow(h, h', s, s, i);
  }

  // ---------------------------------------------------------------- whole runs

  // The cluster run behind a run of hosts, and where each host step begins in it.
  datatype Behind = Behind(states: seq<State>, labels: seq<Label>, at: seq<nat>)

  ghost predicate Refines(hs: seq<HostState>, ls: seq<HostLabel>, b: Behind) {
    |hs| == |ls| + 1 == |b.at| && Run(b.states, b.labels) && b.at[0] == 0 && b.at[|ls|] == |b.labels| &&
    (forall k :: 0 <= k < |hs| ==> b.at[k] < |b.states| && Matches(hs[k], b.states[b.at[k]])) &&
    (forall k: nat :: k < |ls| ==> ShownAs(b.states, b.labels, b.at[k], b.at[k + 1], ls[k]))
  }

  lemma StartMatches(h: HostState) returns (s: State)
    requires HostInit(h)
    ensures Init(s) && Matches(h, s)
  {
    s := State(h.configs, map i | i in h.hosts :: h.hosts[i].node, map i | i in h.hosts :: None, {});
  }

  lemma ShownStill(states: seq<State>, labels: seq<Label>, states': seq<State>, labels': seq<Label>, p: nat, q: nat,
                   l: HostLabel)
    requires ShownAs(states, labels, p, q, l) && states <= states' && labels <= labels'
    requires |states| == |labels| + 1 && |states'| == |labels'| + 1
    ensures ShownAs(states', labels', p, q, l)
  {}

  // Every run of hosts is a run of the cluster.
  lemma {:induction false} HostsRefine(hs: seq<HostState>, ls: seq<HostLabel>) returns (b: Behind)
    requires HostRun(hs, ls)
    ensures Refines(hs, ls, b)
    decreases |ls|
  {
    hide HostInit, HostNext, Init, Next, Matches, ShownAs;
    if ls == [] {
      var s := StartMatches(hs[0]);
      b := Behind([s], [], [0]);
    } else {
      var n := |ls| - 1;
      RunPrefix(hs, ls);
      var c := HostsRefine(hs[..n + 1], ls[..n]);
      assert c.at[n] == |c.labels| && Matches(hs[..n + 1][n], c.states[c.at[n]]);
      var states, labels := HostStepRuns(hs[n], hs[n + 1], ls[n], c.states, c.labels);
      b := Behind(states, labels, c.at + [|labels|]);
      forall k: nat | k < |ls|
        ensures ShownAs(states, labels, b.at[k], b.at[k + 1], ls[k])
      {
        if k < n {
          assert ShownAs(c.states, c.labels, c.at[k], c.at[k + 1], ls[..n][k]);
          ShownStill(c.states, c.labels, states, labels, c.at[k], c.at[k + 1], ls[k]);
        }
      }
      forall k | 0 <= k < |hs|
        ensures b.at[k] < |states| && Matches(hs[k], states[b.at[k]])
      {
        if k <= n {
          assert Matches(hs[..n + 1][k], c.states[c.at[k]]);
        }
      }
    }
  }

  lemma RunPrefix(hs: seq<HostState>, ls: seq<HostLabel>)
    requires HostRun(hs, ls) && ls != []
    ensures
      var n := |ls| - 1;
      HostRun(hs[..n + 1], ls[..n]) && HostNext(hs[n], hs[n + 1], ls[n])
  {
    hide HostInit, HostNext;
    var n := |ls| - 1;
    assert HostNext(hs[n], hs[n + 1], ls[n]);
    forall k: nat | k < n
      ensures HostNext(hs[..n + 1][k], hs[..n + 1][k + 1], ls[..n][k])
    {
      assert HostNext(hs[k], hs[k + 1], ls[k]);
    }
  }

  // ---------------------------------------------------------------- safety of hosts

  predicate RunsAt(hs: seq<HostState>, k: nat, i: Id) {
    k < |hs| && i in hs[k].hosts && hs[k].hosts[i].Running?
  }

  lemma RunningNode(hs: seq<HostState>, ls: seq<HostLabel>, b: Behind, k: nat, i: Id)
    requires Refines(hs, ls, b) && RunsAt(hs, k, i)
    ensures b.at[k] < |b.states| && i in b.states[b.at[k]].nodes
    ensures b.states[b.at[k]].nodes[i] == hs[k].hosts[i].node
  {
    hide Run, ShownAs;
    var s := b.states[b.at[k]];
    assert Matches(hs[k], s);
    assert Shows(hs[k].hosts[i], s.nodes[i], s.writes[i]);
  }

  // Any two hosts at any two moments agree on every index both had committed.
  lemma HostsAgree(hs: seq<HostState>, ls: seq<HostLabel>, j: nat, k: nat, a: Id, b: Id, n: nat)
    requires HostRun(hs, ls) && RunsAt(hs, j, a) && RunsAt(hs, k, b)
    requires
      var d, e := hs[j].hosts[a].node.durable, hs[k].hosts[b].node.durable;
      n <= d.commit && n <= e.commit && RetainedBy(d, n) && RetainedBy(e, n)
    ensures SameAt(hs[j].hosts[a].node.durable, hs[k].hosts[b].node.durable, n)
  {
    hide HostRun, Refines, SameAt;
    var r := HostsRefine(hs, ls);
    RunningNode(hs, ls, r, j, a);
    RunningNode(hs, ls, r, k, b);
    Underlying(hs, ls, r);
    StateMachineSafety(r.states, r.labels, r.at[j], r.at[k], a, b, n);
  }

  lemma Underlying(hs: seq<HostState>, ls: seq<HostLabel>, b: Behind)
    requires Refines(hs, ls, b)
    ensures Run(b.states, b.labels) && |hs| == |ls| + 1 == |b.at|
  {}

  // No two hosts ever lead the same term.
  lemma OneLeadingHost(hs: seq<HostState>, ls: seq<HostLabel>, j: nat, k: nat, a: Id, b: Id)
    requires HostRun(hs, ls) && RunsAt(hs, j, a) && RunsAt(hs, k, b)
    requires hs[j].hosts[a].node.vol.role == Leader && hs[k].hosts[b].node.vol.role == Leader
    requires hs[j].hosts[a].node.durable.term == hs[k].hosts[b].node.durable.term
    ensures a == b
  {
    hide HostRun, Refines;
    var r := HostsRefine(hs, ls);
    RunningNode(hs, ls, r, j, a);
    RunningNode(hs, ls, r, k, b);
    Underlying(hs, ls, r);
    ElectionSafety(r.states, r.labels, r.at[j], r.at[k], a, b, hs[j].hosts[a].node.durable.term);
  }

  // ---------------------------------------------------------------- reads through hosts

  // A successful dispatch returns this read result.
  ghost predicate Returned(h: HostState, l: HostLabel, result: ReadResult) {
    l.who in h.configs && l.action.Drive? && l.action.left.None? &&
    Driven(h.configs[l.who], l.action.nodes, l.action.inputs) &&
    result in Output(h.configs[l.who], l.action.nodes, l.action.inputs).results
  }

  // Every returned result was produced by one of the core steps.
  lemma {:induction false} ResultStep(config: Config, nodes: seq<Node>, inputs: seq<Input>, result: ReadResult)
    returns (m: nat)
    requires Driven(config, nodes, inputs) && result in Output(config, nodes, inputs).results
    ensures m < |inputs| && Step(config, nodes[m], inputs[m]).1.read == Some(result)
    decreases |inputs|
  {
    hide Step;
    var n := |inputs| - 1;
    DrivenPrefix(config, nodes, inputs);
    if Step(config, nodes[n], inputs[n]).1.read == Some(result) {
      m := n;
    } else {
      m := ResultStep(config, nodes[..n + 1], inputs[..n], result);
    }
  }

  lemma {:induction false} Ordered(hs: seq<HostState>, ls: seq<HostLabel>, b: Behind, j: nat, k: nat)
    requires Refines(hs, ls, b) && j <= k <= |ls|
    ensures b.at[j] <= b.at[k]
    decreases k
  {
    hide Run, Matches, Segment;
    if j < k {
      Ordered(hs, ls, b, j, k - 1);
      assert ShownAs(b.states, b.labels, b.at[k - 1], b.at[k - 1 + 1], ls[k - 1]);
    }
  }

  // The host step a cluster step belongs to.
  lemma {:induction false} Locate(hs: seq<HostState>, ls: seq<HostLabel>, b: Behind, n: nat, q: nat) returns (a: nat)
    requires Refines(hs, ls, b) && n <= |ls| && q < b.at[n]
    ensures a < n && b.at[a] <= q < b.at[a + 1] && ShownAs(b.states, b.labels, b.at[a], b.at[a + 1], ls[a])
    decreases n
  {
    hide Run, Matches, ShownAs;
    if q < b.at[n - 1] {
      a := Locate(hs, ls, b, n - 1, q);
    } else {
      a := n - 1;
    }
  }

  // A read enters the core only as the input of a dispatch.
  lemma ReadDispatched(hs: seq<HostState>, ls: seq<HostLabel>, b: Behind, q: nat, i: Id, context: nat) returns (a: nat)
    requires HostRun(hs, ls) && Refines(hs, ls, b) && q < |b.labels| && b.labels[q] == Label(i, Handle(BeginRead(context)))
    ensures a < |ls| && b.at[a] == q < b.at[a + 1]
    ensures ls[a].who == i && ls[a].action.Drive? && ls[a].action.input == BeginRead(context)
  {
    hide Run, Matches, HostInit, Driven, Output, Writing, LeftBy;
    a := Locate(hs, ls, b, |ls|, q);
    assert HostNext(hs[a], hs[a + 1], ls[a]);
    if ls[a].action.Drive? {
      var inputs := ls[a].action.inputs;
      var m := q - b.at[a];
      assert b.labels[b.at[a] + m] == Label(ls[a].who, Handle(inputs[m]));
      assert m > 0 ==> Internal(inputs[m]);
    }
  }

  // The read barrier as a client of a host sees it: a ready result belongs to a
  // dispatched read, is at least every commit index any running host had then,
  // and the answering host has applied through it.
  lemma HostReadBarrier(hs: seq<HostState>, ls: seq<HostLabel>, k: nat, result: ReadResult) returns (a: nat)
    requires HostRun(hs, ls) && k < |ls| && Returned(hs[k], ls[k], result) && result.status == Ready
    ensures a <= k && ls[a].who == ls[k].who && ls[a].action.Drive? && ls[a].action.input == BeginRead(result.context)
    ensures forall x :: RunsAt(hs, a, x) ==> hs[a].hosts[x].node.durable.commit <= result.index
    ensures RunsAt(hs, k + 1, ls[k].who) && result.index <= hs[k + 1].hosts[ls[k].who].node.durable.applied
  {
    hide HostRun, Refines, Run, Step, Output, Driven, Advances, ReadyAt, AdmitsAt, Returned;
    var b := HostsRefine(hs, ls);
    Underlying(hs, ls, b);
    var i, q := ReadyIn(hs, ls, b, k, result);
    var p := ReadBarrierHolds(b.states, b.labels, q, i, result);
    AdmittedAs(b.states, b.labels, p, i, result.context);
    a := ReadDispatched(hs, ls, b, p, i, result.context);
    if a > k {
      Ordered(hs, ls, b, k + 1, a);
    }
    forall x | RunsAt(hs, a, x)
      ensures hs[a].hosts[x].node.durable.commit <= result.index
    {
      RunningNode(hs, ls, b, a, x);
    }
    RunningNode(hs, ls, b, k + 1, i);
    DurableNeverRegresses(b.states, b.labels, q + 1, b.at[k + 1], i);
    AppliedRises(b.states[q + 1].nodes[i].durable, hs[k + 1].hosts[i].node.durable);
  }

  lemma AppliedRises(d: Durable, e: Durable)
    requires Advances(d, e)
    ensures d.applied <= e.applied
  {}

  lemma AdmittedAs(states: seq<State>, labels: seq<Label>, k: nat, i: Id, context: nat)
    requires |states| == |labels| + 1 && AdmitsAt(states, labels, k, i, context)
    ensures k < |labels| && labels[k] == Label(i, Handle(BeginRead(context)))
  {}

  // The cluster step behind a returned result.
  lemma ReadyIn(hs: seq<HostState>, ls: seq<HostLabel>, b: Behind, k: nat, result: ReadResult) returns (i: Id, q: nat)
    requires HostRun(hs, ls) && Refines(hs, ls, b) && k < |ls| && Returned(hs[k], ls[k], result)
    requires result.status == Ready
    ensures i == ls[k].who && b.at[k] <= q < b.at[k + 1] <= |b.labels| && |b.states| == |b.labels| + 1
    ensures ReadyAt(b.states, b.labels, q, i, result) && RunsAt(hs, k + 1, i)
  {
    hide Init, Next, Step, Output, Writing, HostInit;
    i := ls[k].who;
    var a := ls[k].action;
    var m := ResultStep(hs[k].configs[i], a.nodes, a.inputs, result);
    assert HostNext(hs[k], hs[k + 1], ls[k]);
    assert ShownAs(b.states, b.labels, b.at[k], b.at[k + 1], ls[k]);
    q := b.at[k] + m;
    assert NodeAt(b.states, b.at[k], b.at[k] + m, i, a.nodes[m]);
    assert b.labels[b.at[k] + m] == Label(i, Handle(a.inputs[m]));
    assert Matches(hs[k], b.states[b.at[k]]);
  }
}
