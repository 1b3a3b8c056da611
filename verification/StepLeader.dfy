// What a leader does: proposals, beats, replies, the commit rule, applying,
// compacting and reads, stated on the node and the messages alone.
module StepLeader {
  import opened Logs
  import opened Transition
  import opened Local
  import opened StepSends
  import opened StepFollower
  import opened StepElection
  import opened Orders

  // Every known peer of the configuration is served from log; the other fields of
  // the node stay, and an open read notes the new appends.
  ghost predicate ServesAll(beat: bool, config: Config, log: Durable, node: Node, next: Node, sent: seq<Outbound>,
                            asked: seq<SnapshotNeeded>)
  {
    next.vol == node.vol.(peers := next.vol.peers, read := next.vol.read) &&
    node.nextRequestId <= next.nextRequestId && next.vol.peers.Keys == node.vol.peers.Keys &&
    Noted(node.vol.peers, node.vol.read, next.vol.read, sent) &&
    (forall p :: p in node.vol.peers && p in config.peers ==>
      Served(beat, config, log, p, node.vol.peers[p], next.vol.peers[p], To(sent, p), asked, node.nextRequestId,
             next.nextRequestId)) &&
    (forall p :: p in node.vol.peers && p !in config.peers ==> next.vol.peers[p] == node.vol.peers[p]) &&
    (forall p :: p !in config.peers || p !in node.vol.peers ==> To(sent, p) == [])
  }

  lemma RoundServes(beat: bool, config: Config, log: Durable, node: Node, t: Sending, peers: seq<Id>)
    requires Round(beat, config, log, Sending(node, [], []), t, peers)
    requires forall x :: x in peers <==> x in config.peers
    ensures ServesAll(beat, config, log, node, t.node, t.out, t.snapshots)
    ensures t.node == node.(nextRequestId := t.node.nextRequestId, vol := t.node.vol)
  {
    hide To, Served, Noted;
    assert t.out[0..] == t.out && t.snapshots[0..] == t.snapshots;
  }

  // ---------------------------------------------------------------- proposals and beats

  // A leader with room appends the command in its own term; the requests to its
  // peers wait for the write.
  lemma ProposeOutcome(config: Config, node: Node, command: string)
    requires Free(node)
    ensures
      var (next, effects) := Step(config, node, ClientPropose(command));
      var d := node.durable;
      if node.vol.role == Leader && |d.log| >= MAX_ENTRIES then
        next == node && effects == NO_EFFECTS.(capacityExhausted := true)
      else if node.vol.role == Leader && command != "" && LastIndex(d) + 1 < MAX_U64 then
        next.durable == d && next.pending.Some? && effects.send == [] && effects.snapshotNeeded == [] &&
        Newest(next) == d.(log := d.log + [Entry(d.term, command)]) &&
        ServesAll(false, config, Newest(next), node, next, HeldBack(next), next.pending.value.snapshotAfter)
      else next == node && effects == NO_EFFECTS
  {
    hide ValidDurable, SendAll, ServesAll;
    var target := node.durable.(log := node.durable.log + [Entry(node.durable.term, command)]);
    var s := Sending(node, [], []);
    SendsToAll(config, s, target, config.peers);
    RoundServes(false, config, target, node, SendAll(config, s, target, config.peers), config.peers);
    SameServes(false, config, target, node, SendAll(config, s, target, config.peers));
  }

  lemma SameServes(beat: bool, config: Config, log: Durable, node: Node, t: Sending)
    requires ServesAll(beat, config, log, node, t.node, t.out, t.snapshots)
    ensures forall next: Node {:trigger ServesAll(beat, config, log, node, next, t.out, t.snapshots)} ::
      next.vol == t.node.vol && next.nextRequestId == t.node.nextRequestId ==>
        ServesAll(beat, config, log, node, next, t.out, t.snapshots)
  {
    hide Served, Noted, To;
  }

  // A beat repeats every unanswered append unchanged and serves the other peers.
  lemma HeartbeatOutcome(config: Config, node: Node)
    requires Free(node)
    ensures
      var (next, effects) := Step(config, node, HeartbeatTimeout);
      if node.vol.role != Leader then next == node && effects == NO_EFFECTS
      else
        next == node.(nextRequestId := next.nextRequestId, vol := next.vol) &&
        effects == NO_EFFECTS.(send := effects.send, snapshotNeeded := effects.snapshotNeeded) &&
        ServesAll(true, config, node.durable, node, next, effects.send, effects.snapshotNeeded)
  {
    hide ValidDurable, BeatAll, ServesAll;
    var peers := Sorted(config.peers);
    SortedAscends(config.peers);
    AscendsDistinct(peers);
    BeatsAll(config, Sending(node, [], []), peers);
    RoundServes(true, config, node.durable, node, BeatAll(config, Sending(node, [], []), peers), peers);
  }

  // ---------------------------------------------------------------- replies

  // The reply answers the append this leader is waiting for.
  predicate Awaited(node: Node, m: Message)
    requires m.AppendReply?
  {
    node.vol.role == Leader && m.term == node.durable.term && m.follower in node.vol.peers &&
    var probe := node.vol.peers[m.follower].inFlight;
    probe.Some? && probe.value.requestId == m.requestId && probe.value.term == m.term
  }

  // A success moves the match to the end of the request; a refusal moves the next
  // index back, to the hint at most, and never below the match.
  ghost predicate Recorded(g: PeerProgress, m: Message, g': PeerProgress)
    requires m.AppendReply? && g.inFlight.Some?
  {
    var covered := g.inFlight.value.prev + g.inFlight.value.count;
    g'.inFlight == None && g'.snapshotInFlight == g.snapshotInFlight &&
    if m.success then
      g'.matched == Max(g.matched, covered) && g'.next == Max(g.next, g'.matched + 1)
    else
      g'.matched == g.matched &&
      (g.next <= 1 ==> g'.next == g.next) &&
      (g.next > 1 && g.next <= g.matched + 1 ==> g'.next == g.matched + 1) &&
      (g.next > g.matched + 1 ==>
        g.matched + 1 <= g'.next < g.next &&
        if m.hint == MAX_U64 || m.hint + 1 >= g.next then g'.next == g.next - 1
        else if m.hint <= g.matched then g'.next == g.matched + 1
        else g'.next == m.hint + 1)
  }

  lemma RepliesRecorded(g: PeerProgress, m: Message)
    requires m.AppendReply? && g.inFlight.Some?
    ensures Recorded(g, m, Answered(g, m, g.inFlight.value))
  {}

  // The reply acknowledges an open read: it answers an append sent for it.
  predicate Acknowledges(node: Node, m: Message)
    requires m.AppendReply? && Awaited(node, m)
  {
    var probe := node.vol.peers[m.follower].inFlight.value;
    m.success && m.matched == probe.prev + probe.count && node.vol.read.Some? &&
    m.follower in node.vol.read.value.probes && node.vol.read.value.probes[m.follower] == m.requestId
  }

  // node after recording the reply, before an open read is looked at.
  ghost predicate RecordedAt(node: Node, m: Message, mid: Node)
    requires m.AppendReply? && Awaited(node, m)
  {
    mid == node.(vol := node.vol.(peers := mid.vol.peers, read := mid.vol.read)) &&
    m.follower in mid.vol.peers &&
    mid.vol.peers == node.vol.peers[m.follower := mid.vol.peers[m.follower]] &&
    Recorded(node.vol.peers[m.follower], m, mid.vol.peers[m.follower]) &&
    mid.vol.read ==
      if Acknowledges(node, m) then
        Some(node.vol.read.value.(acknowledgements := node.vol.read.value.acknowledgements + {m.follower}))
      else node.vol.read
  }

  // An awaited reply is recorded, and an open read answered once a majority has
  // acknowledged it; a later term ends the leadership; other replies of the
  // current term change nothing.
  lemma AppendReplyOutcome(config: Config, node: Node, m: Message) returns (mid: Node)
    requires Free(node) && m.AppendReply?
    ensures
      var (next, effects) := Step(config, node, Receive(m));
      var d := node.durable;
      if m.follower !in node.vol.peers then next == node && effects == NO_EFFECTS
      else if m.term > d.term then
        StoodDown(node, next, effects) && Replied(next, effects) == [] && next.durable == d &&
        Newest(next) == d.(term := m.term, votedFor := None)
      else if Awaited(node, m) then
        RecordedAt(node, m, mid) && next == mid.(vol := mid.vol.(read := next.vol.read)) &&
        Settled(config, mid, next.vol.read, effects.read) && effects == NO_EFFECTS.(read := effects.read)
      else if node.vol.role == Leader && m.term == d.term then next == node && effects == NO_EFFECTS
      else
        next == node.(vol := node.vol.(read := next.vol.read)) && effects == NO_EFFECTS.(read := effects.read) &&
        Settled(config, node, next.vol.read, effects.read)
  {
    hide ValidDurable, CompleteRead, Settled, Recorded, Answered, StoodDown;
    mid := node;
    if m.follower in node.vol.peers {
      if m.term > node.durable.term {
        var (staged, effects) := Deposed(node, m.term);
        NoRead(config, staged, effects);
        DownStands(node);
      } else if Awaited(node, m) {
        var progress := node.vol.peers[m.follower];
        var probe := progress.inFlight.value;
        var noted := if m.success then NoteReadAck(node, m, probe) else node;
        mid := SetProgress(noted, m.follower, Answered(progress, m, probe));
        RepliesRecorded(progress, m);
        ReadSettles(config, mid, NO_EFFECTS);
      } else {
        ReadSettles(config, node, NO_EFFECTS);
      }
    }
  }

  lemma NoRead(config: Config, node: Node, effects: Effects)
    requires node.vol.read == None
    ensures CompleteRead(config, node, effects) == (node, effects)
  {}

  // A snapshot reply that answers the open transfer ends it; a success moves the
  // match to the boundary and the next index after it.
  lemma SnapshotReplyOutcome(config: Config, node: Node, m: Message)
    requires Free(node) && m.SnapshotReply?
    ensures
      var (next, effects) := Step(config, node, Receive(m));
      var d := node.durable;
      if m.follower !in node.vol.peers then next == node && effects == NO_EFFECTS
      else if m.term > d.term then
        StoodDown(node, next, effects) && Replied(next, effects) == [] && next.durable == d &&
        Newest(next) == d.(term := m.term, votedFor := None)
      else
        var g := node.vol.peers[m.follower];
        effects == NO_EFFECTS &&
        if m.term == d.term && node.vol.role == Leader && g.snapshotInFlight.Some? &&
           g.snapshotInFlight.value.requestId == m.requestId &&
           (m.success ==> g.snapshotInFlight.value.index == m.index)
        then
          m.follower in next.vol.peers &&
          next == node.(vol := node.vol.(peers := node.vol.peers[m.follower := next.vol.peers[m.follower]])) &&
          var g' := next.vol.peers[m.follower];
          g'.snapshotInFlight == None && g'.inFlight == g.inFlight &&
          (if m.success then g'.matched == Max(g.matched, m.index) && g'.next == g'.matched + 1
           else g'.matched == g.matched && g'.next == g.next)
        else next == node
  {
    hide ValidDurable, StoodDown;
    DownStands(node);
  }

  // ---------------------------------------------------------------- the commit rule

  // Index n is an entry of the node's own term that a majority stores.
  ghost predicate StoredByMost(config: Config, node: Node, n: nat) {
    node.durable.snapshotIndex < n <= LastIndex(node.durable) && EntryAt(node.durable, n).term == node.durable.term &&
    Majority(config, 1 + |set p | p in node.vol.peers && node.vol.peers[p].matched >= n|)
  }

  // Nothing more can be committed.
  ghost predicate AllCommitted(config: Config, node: Node) {
    node.vol.role == Leader ==> forall n: nat :: n > node.durable.commit ==> !StoredByMost(config, node, n)
  }

  lemma StoredCommittable(config: Config, node: Node, n: nat)
    requires node.durable.snapshotIndex < n <= LastIndex(node.durable)
    ensures StoredByMost(config, node, n) <==> Committable(config, node, n)
  {}

  lemma {:induction false} HighestStored(config: Config, node: Node, n: nat)
    requires ValidDurable(node.durable) && n <= LastIndex(node.durable)
    ensures
      var h := HighestFrom(config, node, n);
      node.durable.commit <= h && (h > node.durable.commit ==> h <= n && StoredByMost(config, node, h)) &&
      forall k: nat :: h < k <= n ==> !StoredByMost(config, node, k)
    decreases n
  {
    hide ValidTerms, StoredByMost, Committable;
    if n > node.durable.commit {
      StoredCommittable(config, node, n);
      if !Committable(config, node, n) {
        HighestStored(config, node, n - 1);
      }
    }
  }

  // A leader's commit index moves to the highest own entry a majority stores, or
  // stays if there is none above it.
  lemma AdvanceOutcome(config: Config, node: Node)
    requires Free(node)
    ensures
      var (next, effects) := Step(config, node, AdvanceCommit);
      var n := Newest(next).commit;
      next == node.(nextToken := next.nextToken, pending := next.pending) && effects.send == [] &&
      HeldBack(next) == [] && (next.pending.Some? ==> !next.pending.value.selfVote) &&
      Newest(next) == node.durable.(commit := n) &&
      if node.vol.role != Leader then n == node.durable.commit
      else
        n >= node.durable.commit && (n > node.durable.commit ==> StoredByMost(config, node, n)) &&
        forall k: nat :: k > n ==> !StoredByMost(config, node, k)
  {
    hide ValidTerms, StoredByMost;
    if node.vol.role == Leader {
      HighestStored(config, node, LastIndex(node.durable));
      forall k: nat | k > LastIndex(node.durable)
        ensures !StoredByMost(config, node, k)
      {
        NotBeyond(config, node, k);
      }
    }
  }

  lemma NotBeyond(config: Config, node: Node, k: nat)
    requires k > LastIndex(node.durable)
    ensures !StoredByMost(config, node, k)
  {}

  // ---------------------------------------------------------------- applying and compacting

  // The next committed entry is applied, one at a time.
  lemma ApplyOutcome(config: Config, node: Node)
    requires Free(node)
    ensures
      var (next, effects) := Step(config, node, ApplyCommitted);
      var d := node.durable;
      if d.applied < d.commit then
        next == node.(nextToken := next.nextToken, pending := next.pending) && next.pending.Some? &&
        Newest(next) == d.(applied := d.applied + 1) &&
        next.pending.value.applyAfter == [EntryAt(d, d.applied + 1)] && HeldBack(next) == [] &&
        !next.pending.value.selfVote && effects.send == [] && effects.apply == []
      else next == node && effects == NO_EFFECTS
  {
    hide ValidTerms;
  }

  // e is d with its boundary moved to the commit index.
  ghost predicate CompactedTo(d: Durable, e: Durable) {
    e == d.(snapshotIndex := d.commit, snapshotTerm := e.snapshotTerm, log := e.log) &&
    DurableTermAt(d, d.commit) == Some(e.snapshotTerm) && LastIndex(e) == LastIndex(d) &&
    forall k: nat :: d.commit < k <= LastIndex(d) && d.snapshotIndex < k ==> EntryAt(e, k) == EntryAt(d, k)
  }

  // With everything committed applied, the boundary moves to the commit index.
  lemma CompactOutcome(config: Config, node: Node)
    requires Free(node)
    ensures
      var (next, effects) := Step(config, node, CompactCommitted);
      var d := node.durable;
      if d.applied == d.commit && d.commit > d.snapshotIndex then
        next == node.(nextToken := next.nextToken, pending := next.pending) && next.pending.Some? &&
        CompactedTo(d, Newest(next)) && HeldBack(next) == [] && !next.pending.value.selfVote &&
        effects.send == [] && effects.persist.Some? && effects.persist.value.kind == LocalCompaction
      else next == node && effects == NO_EFFECTS
  {
    hide ValidTerms;
  }

  // ---------------------------------------------------------------- reads

  // Each refusal has its own cause.
  function Refusal(node: Node): Option<ReadStatus> {
    if node.halted then Some(Unavailable)
    else if node.pending.Some? || node.vol.read.Some? then Some(Busy)
    else if node.vol.role != Leader then Some(NotLeader)
    else if node.durable.commit == 0 || DurableTermAt(node.durable, node.durable.commit) != Some(node.durable.term)
    then Some(NotReady)
    else None
  }

  // A leader whose commit index carries its own term opens the read at that index
  // and probes its peers for it, or answers at once if it is a majority itself;
  // any other node refuses with the reason.
  lemma BeginReadOutcome(config: Config, node: Node, context: nat)
    requires ValidNode(node)
    ensures
      var (next, effects) := Step(config, node, BeginRead(context));
      var d := node.durable;
      if Refusal(node).Some? then
        next == node && effects == NO_EFFECTS.(read := Some(ReadResult(context, Refusal(node).value, 0, 0)))
      else
        var admitted := node.(vol := node.vol.(read := Some(ReadBarrier(context, d.term, d.commit, {config.self}, map[]))));
        effects == NO_EFFECTS.(send := effects.send, snapshotNeeded := effects.snapshotNeeded, read := effects.read) &&
        next == node.(nextRequestId := next.nextRequestId, vol := next.vol) &&
        if Majority(config, 1) && d.applied >= d.commit
        then next.vol.read == None && effects.read == Some(ReadResult(context, Ready, d.term, d.commit))
        else
          effects.read == None && next.vol.read.Some? && next.vol.read.value.acknowledgements == {config.self} &&
          next.vol.read.value.index == d.commit && next.vol.read.value.term == d.term &&
          next.vol.read.value.context == context &&
          ServesAll(false, config, d, admitted, next, effects.send, effects.snapshotNeeded)
  {
    hide ValidDurable, SendAll, CompleteRead, ServesAll, DurableTermAt;
    if Refusal(node).None? {
      var s := Sending(AdmitRead(config, node, context), [], []);
      SendsToAll(config, s, node.durable, config.peers);
      var t := SendAll(config, s, node.durable, config.peers);
      RoundServes(false, config, node.durable, s.node, t, config.peers);
      ReadSettles(config, t.node, NO_EFFECTS.(send := t.out, snapshotNeeded := t.snapshots));
      ServedRead(config, node.durable, s.node, t.node, t.out, t.snapshots);
    }
  }

  lemma ServedRead(config: Config, log: Durable, node: Node, next: Node, sent: seq<Outbound>, asked: seq<SnapshotNeeded>)
    requires ServesAll(false, config, log, node, next, sent, asked) && node.vol.read.Some?
    ensures next.vol.read.Some? && next.vol.read.value == node.vol.read.value.(probes := next.vol.read.value.probes)
    ensures next.vol.role == node.vol.role
  {
    hide Served, To, NotedFor;
  }

  // Every idle peer within the log gets one new append for the read, and the read
  // waits for exactly these.
  lemma ReadProbes(config: Config, node: Node, context: nat, p: Id)
    requires ValidNode(node) && Refusal(node).None? && p in node.vol.peers && p in config.peers
    requires Step(config, node, BeginRead(context)).0.vol.read.Some?
    ensures
      var (next, effects) := Step(config, node, BeginRead(context));
      var g, probes := node.vol.peers[p], next.vol.read.value.probes;
      if g.inFlight.None? && g.snapshotInFlight.None? &&
         node.durable.snapshotIndex < Max(1, g.next) <= LastIndex(node.durable) + 1
      then
        |To(effects.send, p)| == 1 && ProbeFor(config, node.durable, Max(1, g.next), To(effects.send, p)[0]) &&
        p in probes && probes[p] == To(effects.send, p)[0].requestId && node.nextRequestId <= probes[p] < next.nextRequestId
      else To(effects.send, p) == [] && p !in probes
  {
    hide Step, To, ProbeFor;
    BeginReadOutcome(config, node, context);
    var (next, effects) := Step(config, node, BeginRead(context));
    var read := ReadBarrier(context, node.durable.term, node.durable.commit, {config.self}, map[]);
    var admitted := node.(vol := node.vol.(read := Some(read)));
    assert ServesAll(false, config, node.durable, admitted, next, effects.send, effects.snapshotNeeded);
    assert NotedFor(map[], next.vol.read.value.probes, p, News(node.vol.peers, effects.send, p));
  }

  // Cancelling closes the read of that context and no other.
  lemma CancelReadOutcome(config: Config, node: Node, context: nat)
    requires ValidNode(node)
    ensures
      Step(config, node, CancelRead(context)) ==
        if node.vol.read.Some? && node.vol.read.value.context == context
        then (node.(vol := node.vol.(read := None)), NO_EFFECTS.(read := Some(ReadResult(context, Cancelled, 0, 0))))
        else (node, NO_EFFECTS)
  {
    hide ValidDurable;
  }

  // ---------------------------------------------------------------- stopping and starting

  // The failed write in flight stops the node and is lost; others mean nothing.
  lemma FailedOutcome(config: Config, node: Node, token: nat)
    requires ValidNode(node)
    ensures
      var (next, effects) := Step(config, node, PersistFailed(token));
      if node.pending.Some? && node.pending.value.token == token && !node.halted then
        next == node.(pending := None, halted := true, vol := next.vol) && effects.halt && effects.send == [] &&
        next.vol.role == Follower && next.vol.votes == {} && next.vol.read == None &&
        effects.read == if node.vol.read.None? then None
                        else Some(ReadResult(node.vol.read.value.context, Unavailable, 0, 0))
      else next == node && effects == NO_EFFECTS
  {
    hide ValidDurable;
  }

  // A restart keeps the disk image and nothing else.
  lemma RestartOutcome(config: Config, node: Node)
    requires ValidNode(node)
    ensures
      var (next, effects) := Step(config, node, Restart);
      next == node.(pending := None, halted := false, vol := next.vol) && effects.send == [] && !effects.halt &&
      next.vol.role == Follower && next.vol.votes == {} && next.vol.read == None && next.vol.leadershipEpoch == 0 &&
      next.vol.peers.Keys == (set p | p in config.peers) &&
      (forall p :: p in config.peers ==> next.vol.peers[p] == PeerProgress(1, 0, None, None)) &&
      effects.read == if node.vol.read.None? then None
                      else Some(ReadResult(node.vol.read.value.context, Cancelled, 0, 0))
  {
    hide ValidDurable;
  }

  // While a write is in flight, or once stopped, every other input is ignored.
  lemma BusyOutcome(config: Config, node: Node, input: Input)
    requires ValidNode(node) && (node.pending.Some? || node.halted)
    requires !input.PersistCompleted? && !input.PersistFailed? && !input.Restart? && !input.CancelRead? && !input.BeginRead?
    ensures Step(config, node, input) == (node, NO_EFFECTS)
  {
    hide ValidDurable, StepIdle;
  }
}
