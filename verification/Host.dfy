// The synchronous host: one input in, all writes and applications drained, then
// and only then the messages out.
module Host {
  import opened Logs
  import opened Transition
  import opened Local
  import opened Cluster
  import opened SafetyDisks
  import opened Adapter
  import opened AdapterWrites
  import opened HostSteps
  import opened HostPins
  import opened HostTraces
  import opened StepSends
  import opened StepLeader

  // ---------------------------------------------------------------- one write

  // The adapter holds d, with everything committed applied.
  ghost predicate Backed(adapter: FileEngineAdapter, d: Durable)
    reads adapter, adapter.store
  {
    adapter.Valid() && !adapter.uncertain && adapter.current == Replayed(d)
  }

  lemma BackedFiles(adapter: FileEngineAdapter, d: Durable)
    requires Backed(adapter, d)
    ensures FilesOK(adapter.store.files) && Image(adapter.store.files) == Replayed(d)
  {}

  // A staged request and the node that staged it.
  ghost predicate Requested(config: Config, node: Node, w: PersistRequest) {
    NodeFit(config, node) && ConfigIds(config) && node.pending.Some? && node.pending.value.target == w.target &&
    KindFits(node.durable, w)
  }

  lemma RequestedStaged(config: Config, node: Node, w: PersistRequest)
    requires Requested(config, node, w) && w.kind == StateUpdate
    ensures Staged(node.durable, w.target)
  {
    hide Advances, ValidTerms, Applies, ValidId;
  }

  lemma RequestedTarget(config: Config, node: Node, w: PersistRequest)
    requires Requested(config, node, w)
    ensures ValidDurable(node.durable) && Target(node.durable, w.target)
  {}

  // An application step writes nothing: the store applied the entry when it
  // committed it.
  lemma OnlyApplied(config: Config, node: Node, w: PersistRequest)
    requires Requested(config, node, w) && w.target.(applied := node.durable.applied) == node.durable
    ensures Replayed(w.target) == Replayed(node.durable)
  {}

  lemma CompactsTo(config: Config, node: Node, w: PersistRequest)
    requires Requested(config, node, w) && w.kind == LocalCompaction
    ensures Replayed(node.durable) == node.durable && node.durable.commit > 0
    ensures CompactTarget(node.durable) == w.target && Replayed(w.target) == w.target
  {}

  lemma InstallsTo(config: Config, node: Node, w: PersistRequest)
    requires Requested(config, node, w) && w.kind == SnapshotInstall
    ensures Replayed(w.target) == w.target && node.durable.snapshotIndex < w.target.snapshotIndex
    ensures
      var d := WithMeta(Replayed(node.durable), w.target);
      InstallTarget(d, w.target.snapshotIndex, w.target.snapshotTerm) == w.target
    ensures Replayed(WithMeta(node.durable, w.target)) == WithMeta(Replayed(node.durable), w.target)
  {}

  // What these files recover to can start a host.
  ghost predicate Reopenable(config: Config, f: Files) {
    FilesOK(f) && ValidDurable(Image(f)) && Image(f).term >= 1 && VoteKnown(config, Image(f))
  }

  // The image e is what an interruption of these steps can leave on disk.
  ghost predicate LeftBy(config: Config, nodes: seq<Node>, inputs: seq<Input>, e: Durable) {
    Driven(config, nodes, inputs) && Recoverable(nodes[|inputs|].durable, Writing(config, nodes, inputs), e)
  }

  // A ready request for a snapshot beyond the commit index, without that snapshot.
  predicate Unmatched(node: Node, input: Input, installing: Option<Snapshot>) {
    input.Receive? && input.message.SnapshotRequest? && input.message.ready &&
    input.message.index > node.durable.commit &&
    (installing.None? || installing.value.index != input.message.index ||
     installing.value.term != input.message.snapshotTerm || !installing.value.verified)
  }

  // The node still waits for peer to take what was pinned.
  predicate StillWanted(node: Node, pin: SnapshotNeeded, peer: Id) {
    peer in node.vol.peers && node.vol.peers[peer].snapshotInFlight.Some? &&
    node.vol.peers[peer].snapshotInFlight.value.requestId == pin.requestId
  }

  // Everything a step asks for can be pinned from these files.
  ghost predicate Collectible(node: Node, pins: Pins, effects: Effects, f: Files) {
    !effects.halt && forall n :: n in effects.snapshotNeeded ==> Flies(node, n) && Backs(pins, Image(f), n)
  }

  // ---------------------------------------------------------------- the host

  class RuntimeHost {
    const config: Config
    const adapter: FileEngineAdapter
    const snapshotEvery: nat
    var node: Node
    var pinned: Pins
    // How many writes the application accepts before it refuses one.
    var refuseAfter: nat

    // Ready for the next input: nothing in flight, the disk behind the node,
    // every awaited snapshot pinned.
    ghost predicate Ready()
      reads this, adapter, adapter.store
    {
      ConfigIds(config) && NodeFit(config, node) && !node.halted && node.pending.None? &&
      Backed(adapter, node.durable) && PinsFit(node, pinned)
    }

    // Between two dispatches everything committed is also applied; a stopped
    // host can be reopened from its files.
    ghost predicate Valid()
      reads this, adapter, adapter.store
    {
      ConfigIds(config) && NodeFit(config, node) &&
      (if node.halted then Reopenable(config, adapter.store.files)
       else Ready() && node.durable.applied == node.durable.commit)
    }

    // Start from what recovery found on disk.
    constructor (config: Config, adapter: FileEngineAdapter, snapshotEvery: nat, refuseAfter: nat)
      requires ConfigIds(config) && adapter.Valid() && !adapter.uncertain
      requires ValidDurable(adapter.current) && adapter.current.term >= 1 && VoteKnown(config, adapter.current)
      ensures Valid() && this.adapter == adapter && this.config == config && node == Boot(config, adapter.current)
      ensures this.snapshotEvery == snapshotEvery && this.refuseAfter == refuseAfter && pinned == map[]
    {
      this.config := config;
      this.adapter := adapter;
      this.snapshotEvery := snapshotEvery;
      this.refuseAfter := refuseAfter;
      node := Boot(config, adapter.current);
      pinned := map[];
      new;
      assert adapter.current.applied == adapter.current.commit;
      assert forall n :: !Flies(node, n);
    }

    method PersistUpdate(request: PersistRequest) returns (ok: bool)
      requires Requested(config, node, request) && request.kind == StateUpdate && Backed(adapter, node.durable)
      modifies this`refuseAfter, adapter, adapter.store
      ensures ok ==> Backed(adapter, request.target)
      ensures !ok ==>
        FilesOK(adapter.store.files) && Recoverable(node.durable, Some(request), Image(adapter.store.files))
      ensures old(refuseAfter) > 0 && old(adapter.store.fuel) > |request.target.log| + 2 ==> ok
      ensures !ok ==> refuseAfter == 0 || adapter.store.fuel == 0
    {
      hide FilesOK, Image, DeltaPoint, DeltaFits, Staged, Recoverable, LocalInv, KindFits, ConfigIds, NodeFit;
      var d, target := node.durable, request.target;
      RequestedStaged(config, node, request);
      BackedFiles(adapter, d);
      RecoverOld(d, request);
      if target.(applied := d.applied) == d {
        OnlyApplied(config, node, request);
        return true;
      }
      // An ordinary update keeps the boundary, so this is never refused.
      BoundaryKept(config, node, request);
      assert target.snapshotIndex == d.snapshotIndex && target.snapshotTerm == d.snapshotTerm;
      DeltaFaithful(d, target);
      ok := adapter.PersistDelta(DeltaOf(d, target), refuseAfter > 0);
      if refuseAfter > 0 {
        refuseAfter := refuseAfter - 1;
      }
      if !ok && adapter.uncertain {
        DeltaPointRecoverable(d, target, request.token, Image(adapter.store.files));
      }
    }

    method Persist(request: PersistRequest, installing: Option<Snapshot>) returns (ok: bool)
      requires Requested(config, node, request) && Backed(adapter, node.durable)
      modifies this`refuseAfter, adapter, adapter.store
      ensures ok ==> Backed(adapter, request.target)
      ensures !ok ==>
        FilesOK(adapter.store.files) && Recoverable(node.durable, Some(request), Image(adapter.store.files))
      ensures !ok ==>
        refuseAfter == 0 || adapter.store.fuel == 0 ||
        (request.kind == SnapshotInstall &&
         (installing.None? || installing.value.index != request.target.snapshotIndex ||
          installing.value.term != request.target.snapshotTerm || !installing.value.verified))
    {
      hide FilesOK, Image, DeltaPoint, DeltaFits, Staged, LocalInv, ConfigIds, NodeFit, ValidId, CommonPrefix;
      var d, target := node.durable, request.target;
      BackedFiles(adapter, d);
      match request.kind
      case LocalCompaction =>
        CompactsTo(config, node, request);
        ok := adapter.Checkpoint();
      case SnapshotInstall =>
        InstallsTo(config, node, request);
        InstallTerms(config, node, request);
        if installing.None? || installing.value.index != target.snapshotIndex ||
           installing.value.term != target.snapshotTerm {
          return false;
        }
        ok := adapter.InstallSnapshot(installing.value, target.term, target.votedFor);
      case StateUpdate =>
        ok := PersistUpdate(request);
    }

    // Gather what one step released.
    method Collect(effects: Effects, output: HostEffects) returns (ok: bool, out: HostEffects)
      modifies this`pinned
      ensures ok ==>
        !effects.halt && out.send == output.send + effects.send &&
        out.results == output.results + (if effects.read.Some? then [effects.read.value] else []) &&
        out.capacityExhausted == (output.capacityExhausted || effects.capacityExhausted)
      ensures ok ==>
        |out.snapshots| == |output.snapshots| + |effects.snapshotNeeded| &&
        forall k :: 0 <= k < |effects.snapshotNeeded| ==>
          out.snapshots[|output.snapshots| + k].requestId == effects.snapshotNeeded[k].requestId
      ensures Collectible(node, old(pinned), effects, adapter.store.files) ==>
        ok && out == Gathered(output, effects) && pinned == PinAll(old(pinned), effects.snapshotNeeded)
    {
      hide Image, Backs, PinAll, Flies, OnePerPeer, Collectible;
      out := output;
      if effects.halt {
        HaltRefused(node, pinned, effects, adapter.store.files);
        return false, out;
      }
      if effects.read.Some? {
        out := out.(results := out.results + [effects.read.value]);
      }
      out := out.(capacityExhausted := out.capacityExhausted || effects.capacityExhausted,
                  send := out.send + effects.send);
      ghost var needs := effects.snapshotNeeded;
      ghost var fits := Collectible(node, pinned, effects, adapter.store.files);
      var k := 0;
      NothingPinned(pinned);
      assert needs[..0] == [] && output.snapshots + needs[..0] == output.snapshots;
      while k < |effects.snapshotNeeded|
        invariant 0 <= k <= |effects.snapshotNeeded|
        invariant out.send == output.send + effects.send
        invariant out.results == output.results + (if effects.read.Some? then [effects.read.value] else [])
        invariant out.capacityExhausted == (output.capacityExhausted || effects.capacityExhausted)
        invariant |out.snapshots| == |output.snapshots| + k
        invariant forall j :: 0 <= j < k ==>
          out.snapshots[|output.snapshots| + j].requestId == effects.snapshotNeeded[j].requestId
        invariant fits ==> out.snapshots == output.snapshots + needs[..k] && pinned == PinAll(old(pinned), needs[..k])
      {
        var needed := effects.snapshotNeeded[k];
        if fits {
          PinNext(node, old(pinned), effects, k, adapter.store.files);
        }
        if needed.peer !in pinned || pinned[needed.peer].requestId != needed.requestId {
          var f := adapter.store.files;
          if f.snapshotIndex == 0 || f.snapshotIndex != needed.index || f.snapshotTerm != needed.term {
            return false, out;
          }
          pinned := pinned[needed.peer := needed];
        }
        out := out.(snapshots := out.snapshots + [pinned[needed.peer]]);
        assert output.snapshots + needs[..k] + [needed] == output.snapshots + needs[..k + 1];
        k := k + 1;
      }
      assert needs[..k] == needs;
      ok := true;
    }

    // One input and the write it stages. It fails only if the device fails, the
    // application refuses or the snapshot to install is not the requested one.
    method Advance(input: Input, installing: Option<Snapshot>, output: HostEffects, ghost nodes: seq<Node>,
                   ghost inputs: seq<Input>)
      returns (ok: bool, out: HostEffects, ghost nodes': seq<Node>, ghost inputs': seq<Input>)
      requires Ready() && Driven(config, nodes, inputs) && nodes[|inputs|] == node
      requires output == Output(config, nodes, inputs) && Writing(config, nodes, inputs) == None
      modifies this`node, this`pinned, this`refuseAfter, adapter, adapter.store
      ensures ConfigIds(config) && NodeFit(config, node) && Advances(old(node.durable), node.durable)
      ensures nodes <= nodes' && inputs + [input] <= inputs' && Driven(config, nodes', inputs')
      ensures nodes'[|inputs'|] == node && forall k :: |inputs| < k < |inputs'| ==> Internal(inputs'[k])
      ensures ok ==>
        Ready() && node == Drain(config, old(node), input) && out == Output(config, nodes', inputs') &&
        Writing(config, nodes', inputs') == None
      ensures !ok ==>
        Reopenable(config, adapter.store.files) && LeftBy(config, nodes', inputs', Image(adapter.store.files)) &&
        Advances(old(node.durable), Image(adapter.store.files))
      ensures !ok ==> adapter.store.fuel == 0 || refuseAfter == 0 || Unmatched(old(node), input, installing)
    {
      hide Step, LocalInv, Advances, KindFits, VoteKnown, Applies, ValidId, FilesOK, Image, Recoverable, ReleasesNext,
        Output, Writing, Flies, Backs, Fresh, PinAll, FlightInv, PinsFit, Flown;
      ghost var start := node;
      NodeValid(node);
      StepFits(config, node, input);
      StepHalts(config, node, input);
      StepInstalls(config, node, input);
      OneMore(config, nodes, inputs, input);
      var (next, effects) := Step(config, node, input);
      PinStep(node, next, effects, pinned);
      node := next;
      nodes', inputs' := nodes + [next], inputs + [input];
      out := output;
      while effects.persist.Some?
        invariant ConfigIds(config) && NodeFit(config, node) && Advances(start.durable, node.durable)
        invariant nodes <= nodes' && inputs + [input] <= inputs'
        invariant forall k :: |inputs| < k < |inputs'| ==> Internal(inputs'[k])
        invariant Driven(config, nodes', inputs') && nodes'[|inputs'|] == node
        invariant Output(config, nodes', inputs') == Gathered(out, effects)
        invariant Writing(config, nodes', inputs') == effects.persist
        invariant !node.halted && !effects.halt
        invariant adapter.Valid() && !adapter.uncertain && Backed(adapter, node.durable)
        invariant forall n :: n in effects.snapshotNeeded ==> Flies(node, n) && Backs(pinned, Newest(node), n)
        invariant PinsFit(node, PinAll(pinned, effects.snapshotNeeded))
        invariant effects.persist.Some? ==>
          node == Step(config, start, input).0 && effects == Step(config, start, input).1 &&
          Requested(config, node, effects.persist.value) && node.pending.value.token == effects.persist.value.token &&
          node.durable == start.durable && AsksInstall(start, input, effects.persist) && effects.snapshotNeeded == []
        invariant !effects.persist.Some? ==> node.pending.None? && node == Drain(config, start, input)
        decreases if effects.persist.Some? then 1 else 0
      {
        var request := effects.persist.value;
        BackedFiles(adapter, node.durable);
        ok, out := Collect(effects, out);
        assert ok;
        ok := Persist(request, installing);
        if !ok {
          RequestedTarget(config, node, request);
          CrashStill(node, request, Image(adapter.store.files));
          CrashVote(config, node, request, Image(adapter.store.files));
          return;
        }
        NodeValid(node);
        StepFits(config, node, PersistCompleted(request.token));
        StepHalts(config, node, PersistCompleted(request.token));
        CompletedStep(config, node, request.token);
        OneMore(config, nodes', inputs', PersistCompleted(request.token));
        AdvancesTrans(start.durable, node.durable, Step(config, node, PersistCompleted(request.token)).0.durable);
        var (done, released) := Step(config, node, PersistCompleted(request.token));
        NothingPinned(pinned);
        PinStep(node, done, released, pinned);
        node := done;
        nodes', inputs' := nodes' + [done], inputs' + [PersistCompleted(request.token)];
        effects := released;
      }
      BackedFiles(adapter, node.durable);
      BackedPins(adapter.store.files, node, pinned, effects);
      ok, out := Collect(effects, out);
    }

    // Lose the staged write, forget everything volatile and stop.
    method Halt()
      requires ConfigIds(config) && NodeFit(config, node) && Reopenable(config, adapter.store.files)
      modifies this`node, this`pinned
      ensures Valid() && node.halted && node.durable == old(node.durable)
      ensures !old(node.halted) ==> node.pending.None?
      ensures node.vol == FreshVolatile(config) && pinned == map[]
    {
      hide LocalInv, Advances, VoteKnown, Applies, ValidId, Reopenable, FlightInv, Flown;
      if node.pending.Some? {
        StepFits(config, node, PersistFailed(node.pending.value.token));
        NodeValid(node);
        FailedStep(config, node);
        node := Step(config, node, PersistFailed(node.pending.value.token)).0;
      }
      StoppedFits(config, node);
      node := node.(halted := true, vol := FreshVolatile(config));
      pinned := map[];
    }

    // A snapshot stays pinned only while its transfer is still wanted.
    predicate Wanted(peer: Id)
      requires peer in pinned
      reads this
    {
      StillWanted(node, pinned[peer], peer)
    }

    method Unpin()
      modifies this`pinned
      ensures forall p :: p in pinned <==> p in old(pinned) && old(Wanted(p))
      ensures forall p :: p in pinned ==> pinned[p] == old(pinned)[p]
    {
      var rest := pinned.Keys;
      while rest != {}
        invariant rest <= old(pinned).Keys
        invariant forall p :: p in pinned <==> p in old(pinned) && (p in rest || old(Wanted(p)))
        invariant forall p :: p in pinned ==> pinned[p] == old(pinned)[p]
        decreases |rest|
      {
        var p :| p in rest;
        rest := rest - {p};
        if !Wanted(p) {
          pinned := pinned - {p};
        }
      }
    }

    // In the middle of a dispatch that began at start with this input.
    ghost predicate Driving(start: Node, input: Input, nodes: seq<Node>, inputs: seq<Input>, ok: bool, out: HostEffects)
      reads this, adapter, adapter.store
    {
      ConfigIds(config) && NodeFit(config, node) && Advances(start.durable, node.durable) &&
      Trace(config, start, input, nodes, inputs) && nodes[|inputs|] == node &&
      if ok then Ready() && out == Output(config, nodes, inputs) && Writing(config, nodes, inputs) == None
      else
        Reopenable(config, adapter.store.files) && LeftBy(config, nodes, inputs, Image(adapter.store.files)) &&
        Advances(start.durable, Image(adapter.store.files))
    }

    // One more input of the host's own.
    method Further(next: Input, output: HostEffects, ghost start: Node, ghost input: Input, ghost nodes: seq<Node>,
                   ghost inputs: seq<Input>)
      returns (ok: bool, out: HostEffects, ghost nodes': seq<Node>, ghost inputs': seq<Input>)
      requires Internal(next) && Driving(start, input, nodes, inputs, true, output)
      modifies this`node, this`pinned, this`refuseAfter, adapter, adapter.store
      ensures Driving(start, input, nodes', inputs', ok, out)
      ensures ok ==> node == Drain(config, old(node), next)
      ensures !ok ==> adapter.store.fuel == 0 || refuseAfter == 0
    {
      hide Step, NodeFit, Advances, ConfigIds, FilesOK, Image, Output, Writing, Drain, PinsFit, Reopenable, LeftBy;
      ok, out, nodes', inputs' := Advance(next, None, output, nodes, inputs);
      AdvancesTrans(start.durable, old(node).durable, node.durable);
      if !ok {
        AdvancesTrans(start.durable, old(node).durable, Image(adapter.store.files));
      }
    }

    // Take one input to quiescence. Nothing is released unless every write and
    // application it led to succeeded; then everything the core released is. A
    // failure has one of three causes and leaves files to reopen from.
    method Dispatch(input: Input, installing: Option<Snapshot>)
      returns (result: Option<HostEffects>, ghost nodes: seq<Node>, ghost inputs: seq<Input>)
      requires Valid()
      modifies this`node, this`pinned, this`refuseAfter, adapter, adapter.store
      ensures Valid() && Advances(old(node.durable), node.durable)
      ensures old(node.halted) ==> result.None? && node == old(node) && adapter.store.files == old(adapter.store.files)
      ensures !old(node.halted) ==> Trace(config, old(node), input, nodes, inputs)
      ensures result.Some? ==>
        !node.halted && node.pending.None? && node.durable.applied == node.durable.commit &&
        adapter.current == node.durable
      // Nothing is left to commit, and the log is not due for compaction.
      ensures result.Some? ==>
        AllCommitted(config, node) &&
        (snapshotEvery != 0 ==> node.durable.commit - node.durable.snapshotIndex < snapshotEvery)
      ensures result.Some? ==>
        !old(node.halted) && nodes[|inputs|] == node && result.value == Output(config, nodes, inputs) &&
        Writing(config, nodes, inputs) == None
      ensures result.None? && !old(node.halted) ==>
        node.halted && node.vol == FreshVolatile(config) && pinned == map[] &&
        Advances(old(node.durable), Image(adapter.store.files)) &&
        LeftBy(config, nodes, inputs, Image(adapter.store.files))
      ensures result.None? && !old(node.halted) ==>
        adapter.store.fuel == 0 || refuseAfter == 0 || Unmatched(old(node), input, installing)
    {
      hide Step, LocalInv, Advances, KindFits, VoteKnown, Applies, ValidId, FilesOK, Image, Output, Writing, Drain,
        FlightInv, PinsFit, Reopenable, LeftBy, Free, AllCommitted;
      nodes, inputs := [node], [];
      SameStill(config, node);
      if node.halted {
        return None, nodes, inputs;
      }
      Nothing(config, node);
      var ok, out;
      ok, out, nodes, inputs := Advance(input, installing, NO_OUTPUT, nodes, inputs);
      if ok {
        ReadyFree(config, node);
        DrainAdvances(config, node);
        ok, out, nodes, inputs := Further(AdvanceCommit, out, old(node), input, nodes, inputs);
      }
      while ok && node.durable.applied < node.durable.commit
        invariant Driving(old(node), input, nodes, inputs, ok, out) && (ok ==> AllCommitted(config, node))
        invariant !ok ==> adapter.store.fuel == 0 || refuseAfter == 0 || Unmatched(old(node), input, installing)
        decreases ok, node.durable.commit - node.durable.applied
      {
        DrainApplies(config, node);
        ReadyFree(config, node);
        DrainStaysCommitted(config, node, ApplyCommitted);
        ok, out, nodes, inputs := Further(ApplyCommitted, out, old(node), input, nodes, inputs);
      }
      if ok {
        AppliedAll(config, node);
      }
      if ok && snapshotEvery != 0 && node.durable.commit - node.durable.snapshotIndex >= snapshotEvery {
        ReadyFree(config, node);
        DrainTrims(config, node);
        DrainStaysCommitted(config, node, CompactCommitted);
        ok, out, nodes, inputs := Further(CompactCommitted, out, old(node), input, nodes, inputs);
      }
      if !ok {
        Halt();
        return None, nodes, inputs;
      }
      ghost var pins := pinned;
      Unpin();
      UnpinnedFit(node, pins, pinned);
      result := Some(out);
    }
  }

  // A stopped host is reopened from its files, on a device that works again.
  method Reopen(host: RuntimeHost, fuel: nat, torn: bool, refuseAfter: nat) returns (again: RuntimeHost)
    requires host.Valid() && host.node.halted
    ensures fresh(again) && again.Valid() && again.config == host.config
    ensures again.node == Boot(host.config, Image(host.adapter.store.files))
    ensures again.adapter.store.files == host.adapter.store.files
  {
    var store := new Store(host.adapter.store.files, fuel, torn);
    var adapter := new FileEngineAdapter(store);
    again := new RuntimeHost(host.config, adapter, host.snapshotEvery, refuseAfter);
  }

  // The request at k is pinned already or can be pinned now.
  lemma PinNext(node: Node, pins: Pins, effects: Effects, k: nat, f: Files)
    requires Collectible(node, pins, effects, f) && k < |effects.snapshotNeeded|
    ensures
      var needed := effects.snapshotNeeded;
      var now := PinAll(pins, needed[..k]);
      var n := needed[k];
      PinAll(pins, needed[..k + 1]) == now[n.peer := n] &&
      (if n.peer in now && now[n.peer].requestId == n.requestId then now[n.peer] == n && now[n.peer := n] == now
       else 0 < n.index == f.snapshotIndex && n.term == f.snapshotTerm)
  {
    hide Suffix;
    var needed := effects.snapshotNeeded;
    FliesOnce(node, needed);
    assert needed[k] in needed && Backs(pins, Image(f), needed[k]);
    assert needed[..k + 1][..k] == needed[..k];
    assert OnePerPeer(needed[..k]);
    PinAllAt(pins, needed[..k], needed[k].peer);
    if j :| 0 <= j < k && needed[j].peer == needed[k].peer {
      assert needed[..k][j] == needed[j] == needed[k];
    }
  }

  lemma HaltRefused(node: Node, pins: Pins, effects: Effects, f: Files)
    requires effects.halt
    ensures !Collectible(node, pins, effects, f)
  {}

  lemma BackedPins(f: Files, node: Node, pins: Pins, effects: Effects)
    requires Image(f) == Replayed(node.durable) && node.pending.None? && !effects.halt
    requires forall n :: n in effects.snapshotNeeded ==> Flies(node, n) && Backs(pins, Newest(node), n)
    ensures Collectible(node, pins, effects, f)
  {
    hide Image;
  }

  // Dropping what nobody waits for keeps the books.
  lemma UnpinnedFit(node: Node, pins: Pins, kept: Pins)
    requires PinsFit(node, pins) && node.pending.None?
    requires forall p :: p in kept <==> p in pins && StillWanted(node, pins[p], p)
    requires forall p :: p in kept ==> kept[p] == pins[p]
    ensures PinsFit(node, kept)
  {
    forall n | Flies(node, n)
      ensures n.peer in kept && kept[n.peer] == n
    {
      assert Backs(pins, Newest(node), n);
    }
  }

  lemma InstallTerms(config: Config, node: Node, w: PersistRequest)
    requires Requested(config, node, w) && w.kind == SnapshotInstall
    ensures 0 < w.target.snapshotTerm <= w.target.term && node.durable.term <= w.target.term
    ensures node.durable.term == w.target.term && node.durable.votedFor.Some? ==> w.target.votedFor == node.durable.votedFor
    ensures w.target.votedFor.Some? ==> ValidId(w.target.votedFor.value)
    ensures node.durable.commit < w.target.snapshotIndex < MAX_U64
  {
    hide ValidTerms, Applies, ValidId, FlightInv;
  }

  // Whatever survives of a write, its vote is the old or the new one.
  lemma CrashVote(config: Config, node: Node, w: PersistRequest, e: Durable)
    requires Requested(config, node, w) && Recoverable(node.durable, Some(w), e) && Advances(node.durable, e)
    ensures VoteKnown(config, e) && e.term >= 1
  {
    hide ValidDurable, KeepsCommitted, Applies, FlightInv, KindFits, CommonPrefix;
  }

  lemma FailedStep(config: Config, node: Node)
    requires ValidNode(node) && node.pending.Some?
    ensures
      var next := Step(config, node, PersistFailed(node.pending.value.token)).0;
      next.durable == node.durable && (next.pending.None? || node.halted)
  {
    hide ValidDurable;
  }

  lemma StoppedFits(config: Config, node: Node)
    requires NodeFit(config, node)
    ensures NodeFit(config, node.(halted := true, vol := FreshVolatile(config)))
  {
    hide ValidDurable, Advances, Applies;
    assert forall n :: !Flies(node.(vol := FreshVolatile(config)), n);
  }

  lemma SameStill(config: Config, node: Node)
    requires NodeFit(config, node)
    ensures Advances(node.durable, node.durable)
  {
    NodeAdvances(node);
  }

  lemma AppliedAll(config: Config, node: Node)
    requires NodeFit(config, node) && node.durable.applied >= node.durable.commit
    ensures node.durable.applied == node.durable.commit
  {}

  lemma ReadyFree(config: Config, node: Node)
    requires NodeFit(config, node) && node.pending.None? && !node.halted
    ensures LocalInv(node) && Free(node)
  {
    hide Advances, ValidTerms, Applies, FlightInv;
  }

  lemma CompletedStep(config: Config, node: Node, token: nat)
    requires ValidNode(node) && node.pending.Some? && node.pending.value.token == token && !node.halted
    ensures
      var (next, effects) := Step(config, node, PersistCompleted(token));
      effects.persist.None? && next.durable == node.pending.value.target && next.pending.None?
  {
    hide ValidDurable, OnPersistCompleted;
    CompletedFrame(config, node, token);
  }

  lemma CrashStill(node: Node, w: PersistRequest, e: Durable)
    requires ValidDurable(node.durable) && Target(node.durable, w.target) && KindFits(node.durable, w)
    requires Recoverable(node.durable, Some(w), e)
    ensures ValidDurable(e) && Advances(node.durable, e)
  {
    hide Advances, ValidTerms, Recoverable;
    CrashAdvances(node.durable, Some(w), e);
  }

  lemma RecoverOld(d: Durable, w: PersistRequest)
    ensures Recoverable(d, Some(w), Replayed(d))
  {}

  lemma BoundaryKept(config: Config, node: Node, w: PersistRequest)
    requires Requested(config, node, w) && w.kind == StateUpdate
    ensures w.target.snapshotIndex == node.durable.snapshotIndex && w.target.snapshotTerm == node.durable.snapshotTerm
  {}
}
