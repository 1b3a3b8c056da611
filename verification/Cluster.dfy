// A fixed set of nodes, each running the transition core over its own disk. Every
// packet ever sent stays available, so loss, delay, duplication and reordering
// need no separate steps.
module Cluster {
  import opened Logs
  import opened Transition

  // writes[i] is the disk write member i has started and not yet completed. It
  // outlives a failed completion: the disk may then hold any part of it.
  datatype State = State(
    configs: map<Id, Config>,
    nodes: map<Id, Node>,
    writes: map<Id, Option<PersistRequest>>,
    net: set<Outbound>)

  // Each member knows all the others, once, and itself.
  ghost predicate Configured(s: State) {
    s.nodes.Keys == s.configs.Keys && s.writes.Keys == s.configs.Keys &&
    forall i :: i in s.configs ==>
      s.configs[i].self == i && Distinct(s.configs[i].peers) &&
      (set p | p in s.configs[i].peers) == s.configs.Keys - {i}
  }

  // A node as the host builds it from a recovered disk image.
  function Boot(config: Config, d: Durable): Node {
    OnRestart(config, Initial(config).(durable := d)).0
  }

  // An empty store. Terms start wherever the metadata says, but at least at 1.
  predicate Blank(d: Durable) {
    d.term >= 1 && d == Durable(d.term, None, [], 0, 0, 0, 0)
  }

  ghost predicate Init(s: State) {
    Configured(s) && s.net == {} &&
    forall i :: i in s.configs ==>
      Blank(s.nodes[i].durable) && s.nodes[i] == Boot(s.configs[i], s.nodes[i].durable) && s.writes[i] == None
  }

  // ---------------------------------------------------------------- crashes

  // Recovery replays the store up to its commit index.
  function Replayed(d: Durable): Durable {
    d.(applied := d.commit)
  }

  function WithMeta(d: Durable, target: Durable): Durable {
    d.(term := target.term, votedFor := target.votedFor)
  }

  // Term and vote written, the log cut back to what both share and n entries of
  // the target log present, the commit index still the old one.
  function PartlyWritten(d: Durable, target: Durable, n: nat): Durable
    requires n <= |target.log|
  {
    WithMeta(d, target).(log := target.log[..n])
  }

  // e is what recovery can find when the write w over d was interrupted.
  ghost predicate Recoverable(d: Durable, w: Option<PersistRequest>, e: Durable) {
    e == Replayed(d) ||
    (w.Some? && (e == Replayed(w.value.target) ||
      (w.value.kind != LocalCompaction && e == Replayed(WithMeta(d, w.value.target))) ||
      (w.value.kind == StateUpdate && exists n: nat ::
        CommonPrefix(d.log, w.value.target.log) <= n <= |w.value.target.log| &&
        e == Replayed(PartlyWritten(d, w.value.target, n)))))
  }

  // ---------------------------------------------------------------- steps

  datatype Action =
    // The core handles one input; a received message must have been sent to it.
    | Handle(input: Input)
    // The process stops at any moment and restarts from its disk.
    | Crash(recovered: Durable)
    // The host sends (a chunk of) the snapshot a leader's peer is waiting for.
    | Offer(peer: Id, ready: bool)
    // The host refuses a snapshot chunk, quoting its durable term.
    | RefuseChunk(leader: Id, requestId: nat)

  function Sends(out: seq<Outbound>): set<Outbound> {
    set p | p in out
  }

  predicate Completes(node: Node, input: Input) {
    input.PersistCompleted? && node.pending.Some? && node.pending.value.token == input.token && !node.halted
  }

  ghost predicate HandleStep(s: State, s': State, i: Id, input: Input)
    requires i in s.nodes && i in s.configs && i in s.writes
  {
    var (node, effects) := Step(s.configs[i], s.nodes[i], input);
    (input.Receive? ==> Outbound(i, input.message) in s.net) && !input.Restart? &&
    s' == s.(nodes := s.nodes[i := node],
             net := s.net + Sends(effects.send),
             writes := s.writes[i := if effects.persist.Some? then effects.persist
                                     else if Completes(s.nodes[i], input) then None else s.writes[i]])
  }

  ghost predicate CrashStep(s: State, s': State, i: Id, d: Durable)
    requires i in s.nodes && i in s.configs && i in s.writes
  {
    Recoverable(s.nodes[i].durable, s.writes[i], d) &&
    s' == s.(nodes := s.nodes[i := Boot(s.configs[i], d)], writes := s.writes[i := None])
  }

  predicate OfferStep(s: State, s': State, i: Id, peer: Id, ready: bool)
    requires i in s.nodes
  {
    var node := s.nodes[i];
    node.vol.role == Leader && peer in node.vol.peers && node.vol.peers[peer].snapshotInFlight.Some? &&
    var needed := node.vol.peers[peer].snapshotInFlight.value;
    s' == s.(net := s.net + {Outbound(peer, SnapshotRequest(node.durable.term, i, needed.index, needed.term,
                                                            needed.requestId, ready))})
  }

  predicate RefuseStep(s: State, s': State, i: Id, leader: Id, requestId: nat)
    requires i in s.nodes
  {
    s' == s.(net := s.net + {Outbound(leader, SnapshotReply(s.nodes[i].durable.term, i, false, 0, requestId))})
  }

  ghost predicate ActionStep(s: State, s': State, i: Id, a: Action) {
    i in s.nodes && i in s.configs && i in s.writes &&
    match a
    case Handle(input) => HandleStep(s, s', i, input)
    case Crash(d) => CrashStep(s, s', i, d)
    case Offer(peer, ready) => OfferStep(s, s', i, peer, ready)
    case RefuseChunk(leader, requestId) => RefuseStep(s, s', i, leader, requestId)
  }

  // The label of one step of a run.
  datatype Label = Label(who: Id, action: Action)

  ghost predicate Next(s: State, s': State, l: Label) {
    ActionStep(s, s', l.who, l.action)
  }

  // states[k + 1] follows from states[k] by labels[k].
  ghost predicate Run(states: seq<State>, labels: seq<Label>) {
    |states| == |labels| + 1 && Init(states[0]) &&
    forall k: nat :: k < |labels| ==> Next(states[k], states[k + 1], labels[k])
  }
}
