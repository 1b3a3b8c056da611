// Which snapshot transfers a node is waiting for, and where each was asked for.
module HostPins {
  import opened Logs
  import opened Transition
  import opened Local
  import opened HostSteps

  // The node waits for its peer to take exactly this snapshot.
  predicate Flies(node: Node, n: SnapshotNeeded) {
    n.peer in node.vol.peers && node.vol.peers[n.peer].snapshotInFlight == Some(n)
  }

  // What a completed write still has to ask for.
  function Deferred(node: Node): seq<SnapshotNeeded> {
    if node.pending.Some? then node.pending.value.snapshotAfter else []
  }

  ghost predicate NamesOK(node: Node) {
    forall p :: p in node.vol.peers && node.vol.peers[p].snapshotInFlight.Some? ==>
      node.vol.peers[p].snapshotInFlight.value.peer == p &&
      node.vol.peers[p].snapshotInFlight.value.requestId < node.nextRequestId
  }

  // Every transfer is named after its peer by an id already handed out, and what
  // is deferred is also awaited.
  ghost predicate FlightInv(node: Node) {
    NamesOK(node) && (!node.halted ==> forall n :: n in Deferred(node) ==> Flies(node, n)) &&
    (node.pending.Some? && node.pending.value.selfVote ==> node.pending.value.snapshotAfter == [])
  }

  // Newly asked for, at d's boundary.
  predicate Fresh(node: Node, d: Durable, n: SnapshotNeeded) {
    node.nextRequestId <= n.requestId && 0 < n.index == d.snapshotIndex && n.term == d.snapshotTerm
  }

  // One step: what it asks for is awaited, what is newly awaited is asked for or
  // deferred, and new requests are for the newest boundary.
  ghost predicate Flown(node: Node, next: Node, effects: Effects) {
    FlightInv(next) && node.nextRequestId <= next.nextRequestId &&
    (forall n :: n in effects.snapshotNeeded ==> Flies(next, n)) &&
    (forall n :: Flies(next, n) ==>
      (Flies(node, n) || Fresh(node, Newest(next), n)) &&
      (n in effects.snapshotNeeded || n in Deferred(next) || (Flies(node, n) && n !in Deferred(node))))
  }

  // ---------------------------------------------------------------- sending

  // The same while requests are being sent.
  ghost predicate SendFlown(node: Node, s: Sending, log: Durable) {
    NamesOK(s.node) && node.nextRequestId <= s.node.nextRequestId &&
    (forall n :: n in s.snapshots ==> Flies(s.node, n)) &&
    (forall n :: Flies(s.node, n) ==> Flies(node, n) || (Fresh(node, log, n) && n in s.snapshots))
  }

  lemma SendOneFlown(node: Node, config: Config, s: Sending, log: Durable, peer: Id)
    requires SendFlown(node, s, log)
    ensures SendFlown(node, SendAppend(config, s, log, peer), log)
  {
    hide ProbeMessage, DurableTermAt;
    var t := SendAppend(config, s, log, peer);
    forall n | Flies(t.node, n)
      ensures Flies(node, n) || (Fresh(node, log, n) && n in t.snapshots)
    {
      assert Flies(s.node, n) || n in t.snapshots;
    }
  }

  lemma {:induction false} SendAllFlown(node: Node, config: Config, s: Sending, log: Durable, peers: seq<Id>)
    requires SendFlown(node, s, log)
    ensures SendFlown(node, SendAll(config, s, log, peers), log)
    decreases |peers|
  {
    hide SendFlown, SendAppend;
    if peers != [] {
      SendOneFlown(node, config, s, log, peers[0]);
      SendAllFlown(node, config, SendAppend(config, s, log, peers[0]), log, peers[1..]);
    }
  }

  lemma {:induction false} BeatAllFlown(node: Node, config: Config, s: Sending, peers: seq<Id>)
    requires SendFlown(node, s, s.node.durable)
    ensures SendFlown(node, BeatAll(config, s, peers), s.node.durable)
    decreases |peers|
  {
    hide SendFlown, SendAppend;
    if peers != [] {
      BeatOneFlown(node, config, s, peers[0]);
      BeatAllFlown(node, config, BeatOne(config, s, peers[0]), peers[1..]);
    }
  }

  lemma BeatOneFlown(node: Node, config: Config, s: Sending, peer: Id)
    requires SendFlown(node, s, s.node.durable)
    ensures SendFlown(node, BeatOne(config, s, peer), s.node.durable)
    ensures BeatOne(config, s, peer).node.durable == s.node.durable
  {
    hide SendAppend;
    SendOneFlown(node, config, s, s.node.durable, peer);
    SendOneFrame(config, s, s.node.durable, peer);
  }

  // ---------------------------------------------------------------- handlers

  // Steps that send nothing and keep, or give up, what is awaited.
  lemma Grounded(node: Node, next: Node, effects: Effects)
    requires FlightInv(node) && node.nextRequestId <= next.nextRequestId && node.pending.None?
    requires effects.snapshotNeeded == [] && Deferred(next) == []
    requires forall p :: p in next.vol.peers && next.vol.peers[p].snapshotInFlight.Some? ==>
      p in node.vol.peers && next.vol.peers[p].snapshotInFlight == node.vol.peers[p].snapshotInFlight
    ensures Flown(node, next, effects)
  {}

  lemma SameFlights(node: Node, next: Node)
    requires next.vol.peers == node.vol.peers && next.nextRequestId == node.nextRequestId
    ensures NamesOK(node) ==> NamesOK(next)
    ensures forall n :: Flies(next, n) <==> Flies(node, n)
  {}

  lemma CountFlown(config: Config, node: Node, start: Node, effects: Effects, voter: Id)
    requires NamesOK(start) && node.nextRequestId <= start.nextRequestId && start.pending.None?
    requires effects.snapshotNeeded == []
    ensures
      var (next, out) := CountVote(config, start, effects, voter);
      NamesOK(next) && node.nextRequestId <= next.nextRequestId && next.pending.None? &&
      next.durable == start.durable &&
      (forall n :: n in out.snapshotNeeded ==> Flies(next, n)) &&
      (forall n :: Flies(next, n) ==> Flies(start, n) || (Fresh(node, start.durable, n) && n in out.snapshotNeeded))
  {
    hide SendAll;
    var counted := start.(vol := start.vol.(votes := start.vol.votes + {voter}));
    var c := Crowned(counted);
    assert forall n :: !Flies(c, n);
    var s := Sending(c, effects.send, effects.snapshotNeeded);
    SendAllFlown(c, config, s, start.durable, Sorted(config.peers));
    SendAllFrame(config, s, start.durable, Sorted(config.peers));
  }

  lemma MessageFlown(config: Config, node: Node, m: Message)
    requires ValidDurable(node.durable) && FlightInv(node) && node.pending.None?
    ensures Flown(node, OnMessage(config, node, m).0, OnMessage(config, node, m).1)
  {
    hide ValidDurable, OnRequestVote, OnAppend, OnAppendReply, OnSnapshot, Flown, CountVote, FlightInv;
    match m
    case RequestVote(_, _, _, _, _) => RequestVoteFlown(config, node, m);
    case VoteReply(_, _, _, _) =>
      if m.voter in node.vol.peers && m.term == node.durable.term && m.granted && node.vol.role == Candidate {
        VoteFlown(config, node, m.voter);
      } else {
        Grounded(node, OnMessage(config, node, m).0, OnMessage(config, node, m).1);
      }
    case AppendEntries(_, _, _, _, _, _, _) => AppendFlown(config, node, m);
    case AppendReply(_, _, _, _, _, _) => AppendReplyFlown(config, node, m);
    case SnapshotRequest(_, _, _, _, _, _) => SnapshotFlown(config, node, m);
    case SnapshotReply(_, _, _, _, _) => Grounded(node, OnMessage(config, node, m).0, OnMessage(config, node, m).1);
  }

  lemma RequestVoteFlown(config: Config, node: Node, m: Message)
    requires FlightInv(node) && node.pending.None? && m.RequestVote?
    ensures Flown(node, OnRequestVote(config, node, m).0, OnRequestVote(config, node, m).1)
  {
    hide Flown, UpToDate, FlightInv;
    Grounded(node, OnRequestVote(config, node, m).0, OnRequestVote(config, node, m).1);
  }

  lemma AppendReplyFlown(config: Config, node: Node, m: Message)
    requires FlightInv(node) && node.pending.None? && m.AppendReply?
    ensures Flown(node, OnAppendReply(config, node, m).0, OnAppendReply(config, node, m).1)
  {
    hide Flown, FlightInv, QuorumSize;
    Grounded(node, OnAppendReply(config, node, m).0, OnAppendReply(config, node, m).1);
  }

  lemma SnapshotFlown(config: Config, node: Node, m: Message)
    requires ValidDurable(node.durable) && FlightInv(node) && node.pending.None? && m.SnapshotRequest?
    ensures Flown(node, OnSnapshot(config, node, m).0, OnSnapshot(config, node, m).1)
  {
    hide ValidDurable, Flown, FlightInv, SnapshotAcceptable, InstallTarget, DurableTermAt;
    Grounded(node, OnSnapshot(config, node, m).0, OnSnapshot(config, node, m).1);
  }

  lemma VoteFlown(config: Config, node: Node, voter: Id)
    requires FlightInv(node) && node.pending.None?
    ensures
      var (next, out) := CountVote(config, node, NO_EFFECTS, voter);
      Flown(node, next, out)
  {
    hide CountVote, Fresh;
    CountFlown(config, node, node, NO_EFFECTS, voter);
  }

  lemma AppendFlown(config: Config, node: Node, m: Message)
    requires FlightInv(node) && node.pending.None? && m.AppendEntries?
    ensures Flown(node, OnAppend(config, node, m).0, OnAppend(config, node, m).1)
  {
    hide OnAppend, Flown, FlightInv;
    AppendQuiet(config, node, m);
    Grounded(node, OnAppend(config, node, m).0, OnAppend(config, node, m).1);
  }

  lemma AppendQuiet(config: Config, node: Node, m: Message)
    requires m.AppendEntries? && node.pending.None?
    ensures
      var (next, out) := OnAppend(config, node, m);
      out.snapshotNeeded == [] && Deferred(next) == [] && next.nextRequestId == node.nextRequestId &&
      forall p :: p in next.vol.peers && next.vol.peers[p].snapshotInFlight.Some? ==>
        p in node.vol.peers && next.vol.peers[p].snapshotInFlight == node.vol.peers[p].snapshotInFlight
  {
    hide OnAppend;
    var f := AppendForm(config, node, m);
  }

  lemma ProposeFlown(config: Config, node: Node, command: string)
    requires FlightInv(node) && node.pending.None?
    ensures Flown(node, OnPropose(config, node, command).0, OnPropose(config, node, command).1)
  {
    hide SendAll, Fresh;
    var target := node.durable.(log := node.durable.log + [Entry(node.durable.term, command)]);
    var s := Sending(node, [], []);
    SendAllFlown(node, config, s, target, config.peers);
    SendAllFrame(config, s, target, config.peers);
  }

  lemma HeartbeatFlown(config: Config, node: Node)
    requires FlightInv(node) && node.pending.None?
    ensures Flown(node, OnHeartbeat(config, node).0, OnHeartbeat(config, node).1)
  {
    hide BeatAll, Fresh;
    BeatAllFlown(node, config, Sending(node, [], []), Sorted(config.peers));
    BeatAllFrame(config, Sending(node, [], []), Sorted(config.peers));
  }

  lemma IdleFlown(config: Config, node: Node, input: Input)
    requires ValidDurable(node.durable) && FlightInv(node) && node.pending.None?
    ensures Flown(node, StepIdle(config, node, input).0, StepIdle(config, node, input).1)
  {
    hide ValidDurable, OnMessage, OnPropose, OnHeartbeat, Flown, FlightInv, HighestFrom, VoteRequests, DurableTermAt;
    match input
    case Receive(m) => MessageFlown(config, node, m);
    case ClientPropose(command) => ProposeFlown(config, node, command);
    case HeartbeatTimeout => HeartbeatFlown(config, node);
    case _ => Grounded(node, StepIdle(config, node, input).0, StepIdle(config, node, input).1);
  }

  lemma CompletedFlown(config: Config, node: Node, token: nat)
    requires FlightInv(node)
    ensures Flown(node, OnPersistCompleted(config, node, token).0, OnPersistCompleted(config, node, token).1)
  {
    hide CountVote, CompleteRead, Fresh;
    if node.pending.Some? && node.pending.value.token == token && !node.halted {
      var pending := node.pending.value;
      var done := node.(pending := None, durable := pending.target);
      var effects := NO_EFFECTS.(send := pending.after, apply := pending.applyAfter,
                                 snapshotNeeded := pending.snapshotAfter);
      ReadFrame(config, done, effects);
      SameFlights(node, done);
      SameFlights(node, CompleteRead(config, done, effects).0);
      var (read, out) := CompleteRead(config, done, effects);
      if pending.selfVote {
        CountFlown(config, node, read, out, config.self);
      }
    }
  }

  lemma BeginReadFlown(config: Config, node: Node, context: nat)
    requires FlightInv(node)
    ensures Flown(node, OnBeginRead(config, node, context).0, OnBeginRead(config, node, context).1)
  {
    hide SendAll, CompleteRead, Fresh, ReadAdmissible;
    if !node.halted && node.pending.None? {
      var s := Sending(AdmitRead(config, node, context), [], []);
      SendAllFlown(node, config, s, node.durable, config.peers);
      SendAllFrame(config, s, node.durable, config.peers);
      var t := SendAll(config, s, node.durable, config.peers);
      ReadFrame(config, t.node, NO_EFFECTS.(send := t.out, snapshotNeeded := t.snapshots));
    }
  }

  // Every step keeps the books on snapshot transfers.
  lemma StepFlown(config: Config, node: Node, input: Input)
    requires ValidNode(node) && FlightInv(node)
    ensures Flown(node, Step(config, node, input).0, Step(config, node, input).1)
  {
    hide ValidDurable, StepIdle, OnPersistCompleted, OnBeginRead, Fresh;
    match input
    case PersistCompleted(token) => CompletedFlown(config, node, token);
    case BeginRead(context) => BeginReadFlown(config, node, context);
    case PersistFailed(_) =>
    case Restart =>
    case CancelRead(context) => SameFlights(node, OnCancelRead(node, context).0);
    case _ =>
      if !node.halted && node.pending.None? {
        IdleFlown(config, node, input);
      }
  }

  // ---------------------------------------------------------------- pinned snapshots

  type Pins = map<Id, SnapshotNeeded>

  // The request is pinned already, or newer than what is pinned and for d's boundary.
  predicate Backs(pins: Pins, d: Durable, n: SnapshotNeeded) {
    (n.peer in pins && pins[n.peer] == n) ||
    ((n.peer in pins ==> pins[n.peer].requestId < n.requestId) && 0 < n.index == d.snapshotIndex &&
     n.term == d.snapshotTerm)
  }

  // Whatever the node waits for is pinned, or deferred and can be pinned.
  ghost predicate PinsFit(node: Node, pins: Pins) {
    FlightInv(node) && (forall p :: p in pins ==> pins[p].requestId < node.nextRequestId) &&
    forall n :: Flies(node, n) ==>
      Backs(pins, Newest(node), n) && ((n.peer in pins && pins[n.peer] == n) || n in Deferred(node))
  }

  // Pin one request after the other.
  function PinAll(pins: Pins, needed: seq<SnapshotNeeded>): Pins {
    if needed == [] then pins
    else
      var last := needed[|needed| - 1];
      PinAll(pins, needed[..|needed| - 1])[last.peer := last]
  }

  // No two different requests for one peer.
  predicate OnePerPeer(needed: seq<SnapshotNeeded>) {
    forall j, k :: 0 <= j < |needed| && 0 <= k < |needed| && needed[j].peer == needed[k].peer ==> needed[j] == needed[k]
  }

  lemma {:induction false} PinAllAt(pins: Pins, needed: seq<SnapshotNeeded>, p: Id)
    requires OnePerPeer(needed)
    ensures (p in PinAll(pins, needed)) <==> p in pins || exists k :: 0 <= k < |needed| && needed[k].peer == p
    ensures forall k :: 0 <= k < |needed| && needed[k].peer == p ==> PinAll(pins, needed)[p] == needed[k]
    ensures p in pins && (forall k :: 0 <= k < |needed| ==> needed[k].peer != p) ==> PinAll(pins, needed)[p] == pins[p]
    decreases |needed|
  {
    if needed != [] {
      var k := |needed| - 1;
      PinAllAt(pins, needed[..k], p);
      assert needed[k].peer == p ==> p in PinAll(pins, needed);
      forall j | 0 <= j < |needed| && needed[j].peer == p
        ensures p in PinAll(pins, needed)
      {
        assert j < k ==> needed[..k][j].peer == p;
      }
    }
  }

  lemma FliesOnce(node: Node, needed: seq<SnapshotNeeded>)
    requires forall n :: n in needed ==> Flies(node, n)
    ensures OnePerPeer(needed)
  {
    forall j, k | 0 <= j < |needed| && 0 <= k < |needed| && needed[j].peer == needed[k].peer
      ensures needed[j] == needed[k]
    {
      assert Flies(node, needed[j]) && Flies(node, needed[k]);
    }
  }

  // A step can only ask for what can be pinned, and pinning it keeps the books.
  lemma PinStep(node: Node, next: Node, effects: Effects, pins: Pins)
    requires PinsFit(node, pins) && Flown(node, next, effects) && (node.pending.None? || Newest(next) == Newest(node))
    ensures forall n :: n in effects.snapshotNeeded ==> Flies(next, n) && Backs(pins, Newest(next), n)
    ensures PinsFit(next, PinAll(pins, effects.snapshotNeeded))
  {
    var needed := effects.snapshotNeeded;
    var all := PinAll(pins, needed);
    FliesOnce(next, needed);
    forall n | Flies(next, n)
      ensures Backs(pins, Newest(next), n)
      ensures Backs(all, Newest(next), n) && ((n.peer in all && all[n.peer] == n) || n in Deferred(next))
    {
      PinAllAt(pins, needed, n.peer);
      OnlyOne(next, needed, n);
    }
    forall p | p in all
      ensures all[p].requestId < next.nextRequestId
    {
      PinAllAt(pins, needed, p);
      if k :| 0 <= k < |needed| && needed[k].peer == p {
        assert Flies(next, needed[k]);
      }
    }
  }

  lemma OnlyOne(node: Node, needed: seq<SnapshotNeeded>, n: SnapshotNeeded)
    requires (forall m :: m in needed ==> Flies(node, m)) && Flies(node, n)
    ensures forall k :: 0 <= k < |needed| && needed[k].peer == n.peer ==> needed[k] == n
  {
    forall k | 0 <= k < |needed| && needed[k].peer == n.peer
      ensures needed[k] == n
    {
      assert Flies(node, needed[k]);
    }
  }

  lemma NothingPinned(pins: Pins)
    ensures PinAll(pins, []) == pins
  {}
}
