// The transition core: one node, one input, one new node and its effects.
// Unsigned 64-bit fields are naturals compared against MAX_U64 where the core does so.
module Transition {
  import opened Logs

  const MAX_U64: nat := 0xFFFF_FFFF_FFFF_FFFF
  // Longest retained log the core will stage.
  const MAX_ENTRIES: nat := 100000

  datatype Role = Follower | Candidate | Leader

  // log holds only the entries after the snapshot boundary.
  datatype Durable = Durable(
    term: nat,
    votedFor: Option<Id>,
    log: Log,
    commit: nat,
    applied: nat,
    snapshotIndex: nat,
    snapshotTerm: nat)

  datatype Message =
    | RequestVote(term: nat, candidate: Id, lastIndex: nat, lastTerm: nat, requestId: nat)
    | VoteReply(term: nat, voter: Id, granted: bool, requestId: nat)
    | AppendEntries(term: nat, leader: Id, prevIndex: nat, prevTerm: nat, entries: Log, leaderCommit: nat,
                    requestId: nat)
    | AppendReply(term: nat, follower: Id, success: bool, hint: nat, requestId: nat, matched: nat)
    | SnapshotRequest(term: nat, leader: Id, index: nat, snapshotTerm: nat, requestId: nat, ready: bool)
    | SnapshotReply(term: nat, follower: Id, success: bool, index: nat, requestId: nat)

  datatype Outbound = Outbound(to: Id, message: Message)

  datatype SnapshotNeeded = SnapshotNeeded(peer: Id, index: nat, term: nat, requestId: nat)

  // An append awaiting its answer; `request` is the exact message to retry.
  datatype Probe = Probe(requestId: nat, term: nat, prev: nat, count: nat, request: Option<Message>)

  datatype PeerProgress = PeerProgress(
    next: nat,
    matched: nat,
    inFlight: Option<Probe>,
    snapshotInFlight: Option<SnapshotNeeded>)

  datatype ReadBarrier = ReadBarrier(
    context: nat,
    term: nat,
    index: nat,
    acknowledgements: set<Id>,
    probes: map<Id, nat>)

  datatype ReadStatus = Ready | NotLeader | NotReady | Busy | Cancelled | Unavailable

  datatype ReadResult = ReadResult(context: nat, status: ReadStatus, term: nat, index: nat)

  datatype Volatile = Volatile(
    role: Role,
    votes: set<Id>,
    peers: map<Id, PeerProgress>,
    leadershipEpoch: nat,
    read: Option<ReadBarrier>)

  datatype PendingWrite = PendingWrite(
    token: nat,
    target: Durable,
    after: seq<Outbound>,
    applyAfter: seq<Entry>,
    selfVote: bool,
    snapshotAfter: seq<SnapshotNeeded>)

  datatype Node = Node(
    durable: Durable,
    vol: Volatile,
    pending: Option<PendingWrite>,
    nextToken: nat,
    nextRequestId: nat,
    halted: bool)

  datatype Config = Config(self: Id, peers: seq<Id>)

  datatype Input =
    | ElectionTimeout
    | HeartbeatTimeout
    | ClientPropose(command: string)
    | Receive(message: Message)
    | AdvanceCommit
    | ApplyCommitted
    | CompactCommitted
    | BeginRead(context: nat)
    | CancelRead(context: nat)
    | PersistCompleted(token: nat)
    | PersistFailed(token: nat)
    | Restart

  datatype PersistKind = StateUpdate | LocalCompaction | SnapshotInstall

  datatype PersistRequest = PersistRequest(token: nat, target: Durable, kind: PersistKind)

  datatype Effects = Effects(
    persist: Option<PersistRequest>,
    send: seq<Outbound>,
    apply: seq<Entry>,
    halt: bool,
    capacityExhausted: bool,
    snapshotNeeded: seq<SnapshotNeeded>,
    read: Option<ReadResult>)

  const NO_EFFECTS := Effects(None, [], [], false, false, [], None)

  // ---------------------------------------------------------------- helpers

  function QuorumSize(config: Config): nat {
    (|config.peers| + 1) / 2 + 1
  }

  predicate KnownPeer(node: Node, id: Id) {
    id in node.vol.peers
  }

  function LastIndex(d: Durable): nat {
    d.snapshotIndex + |d.log|
  }

  // Every term is nonzero and none decreases.
  predicate OrderedTerms(l: Log) {
    (forall k :: 0 <= k < |l| ==> l[k].term > 0) &&
    (forall j, k :: 0 <= j < k < |l| ==> l[j].term <= l[k].term)
  }

  predicate ValidTerms(l: Log, before: nat, maximum: nat) {
    OrderedTerms(l) && (l == [] || (l[0].term >= before && l[|l| - 1].term <= maximum))
  }

  predicate ValidDurable(d: Durable) {
    ((d.snapshotIndex == 0) == (d.snapshotTerm == 0)) &&
    d.snapshotTerm <= d.term &&
    LastIndex(d) < MAX_U64 &&
    d.snapshotIndex <= d.applied <= d.commit <= LastIndex(d) &&
    |d.log| <= MAX_ENTRIES &&
    ValidTerms(d.log, d.snapshotTerm, d.term)
  }

  function DurableTermAt(d: Durable, index: nat): Option<nat> {
    if index == d.snapshotIndex then Some(d.snapshotTerm)
    else if index < d.snapshotIndex || index > LastIndex(d) then None
    else Some(d.log[index - d.snapshotIndex - 1].term)
  }

  function DurableLastTerm(d: Durable): nat {
    if d.log == [] then d.snapshotTerm else d.log[|d.log| - 1].term
  }

  predicate UpToDate(d: Durable, term: nat, index: nat) {
    term > DurableLastTerm(d) || (term == DurableLastTerm(d) && index >= LastIndex(d))
  }

  function Max(a: nat, b: nat): nat { if a >= b then a else b }
  function Min(a: nat, b: nat): nat { if a <= b then a else b }

  function BeginWrite(node: Node, effects: Effects, target: Durable, after: seq<Outbound>, applyAfter: seq<Entry>,
                      selfVote: bool, snapshotAfter: seq<SnapshotNeeded>, kind: PersistKind): (Node, Effects)
  {
    (node.(nextToken := node.nextToken + 1,
           pending := Some(PendingWrite(node.nextToken, target, after, applyAfter, selfVote, snapshotAfter))),
     effects.(persist := Some(PersistRequest(node.nextToken, target, kind))))
  }

  function Stage(node: Node, effects: Effects, target: Durable, after: seq<Outbound>): (Node, Effects) {
    BeginWrite(node, effects, target, after, [], false, [], StateUpdate)
  }

  // A node together with the messages and snapshot work collected so far.
  datatype Sending = Sending(node: Node, out: seq<Outbound>, snapshots: seq<SnapshotNeeded>)

  function SetProgress(node: Node, peer: Id, progress: PeerProgress): Node {
    node.(vol := node.vol.(peers := node.vol.peers[peer := progress]))
  }

  // At most one entry is sent, so the acknowledged index is unambiguous.
  function SendAppend(config: Config, s: Sending, log: Durable, peer: Id): Sending {
    if peer !in s.node.vol.peers || s.node.vol.peers[peer].inFlight.Some? then s
    else
      var progress := s.node.vol.peers[peer];
      if progress.snapshotInFlight.Some? then
        s.(snapshots := s.snapshots + [progress.snapshotInFlight.value])
      else
        var next := Max(1, progress.next);
        if next <= log.snapshotIndex then
          var request := SnapshotNeeded(peer, log.snapshotIndex, log.snapshotTerm, s.node.nextRequestId);
          Sending(SetProgress(s.node.(nextRequestId := s.node.nextRequestId + 1), peer,
                              progress.(snapshotInFlight := Some(request))),
                  s.out, s.snapshots + [request])
        else if next > LastIndex(log) + 1 || DurableTermAt(log, next - 1).None? then s
        else SendProbe(config, s, log, peer, next)
  }

  function ProbeMessage(config: Config, log: Durable, next: nat, id: nat): Message
    requires log.snapshotIndex < next <= LastIndex(log) + 1
  {
    AppendEntries(log.term, config.self, next - 1, DurableTermAt(log, next - 1).value,
                  if next <= LastIndex(log) then [log.log[next - log.snapshotIndex - 1]] else [],
                  log.commit, id)
  }

  function SendProbe(config: Config, s: Sending, log: Durable, peer: Id, next: nat): Sending
    requires peer in s.node.vol.peers && log.snapshotIndex < next <= LastIndex(log) + 1
  {
    var id := s.node.nextRequestId;
    var message := ProbeMessage(config, log, next, id);
    var probe := Probe(id, log.term, next - 1, |message.entries|, Some(message));
    var sent := SetProgress(s.node.(nextRequestId := id + 1), peer,
                            s.node.vol.peers[peer].(inFlight := Some(probe)));
    var read := sent.vol.read;
    var noted := if read.None? then sent
                 else sent.(vol := sent.vol.(read := Some(read.value.(probes := read.value.probes[peer := id]))));
    Sending(noted, s.out + [Outbound(peer, message)], s.snapshots)
  }

  function SendAll(config: Config, s: Sending, log: Durable, peers: seq<Id>): Sending
    decreases |peers|
  {
    if peers == [] then s
    else SendAll(config, SendAppend(config, s, log, peers[0]), log, peers[1..])
  }

  // Byte order of identifiers, the order in which the core walks its peer map.
  predicate Before(a: Id, b: Id) {
    if b == [] then false
    else if a == [] then true
    else a[0] < b[0] || (a[0] == b[0] && Before(a[1..], b[1..]))
  }

  function InsertSorted(ids: seq<Id>, id: Id): seq<Id> {
    if ids == [] then [id]
    else if ids[0] == id then ids
    else if Before(id, ids[0]) then [id] + ids
    else [ids[0]] + InsertSorted(ids[1..], id)
  }

  function Sorted(ids: seq<Id>): seq<Id> {
    if ids == [] then [] else InsertSorted(Sorted(ids[1..]), ids[0])
  }

  function FreshVolatile(config: Config): Volatile {
    Volatile(Follower, {}, map p | p in config.peers :: PeerProgress(1, 0, None, None), 0, None)
  }

  function Initial(config: Config): Node {
    Node(Durable(0, None, [], 0, 0, 0, 0), FreshVolatile(config), None, 1, 1, false)
  }

  // Every peer starts from the leader's own end before it is first probed.
  function Crowned(node: Node): Node {
    node.(vol := node.vol.(
      role := Leader,
      leadershipEpoch := node.vol.leadershipEpoch + 1,
      peers := map p | p in node.vol.peers :: PeerProgress(LastIndex(node.durable) + 1, 0, None, None)))
  }

  function BecomeLeader(config: Config, node: Node, effects: Effects): (Node, Effects) {
    var s := SendAll(config, Sending(Crowned(node), effects.send, effects.snapshotNeeded), node.durable,
                     Sorted(config.peers));
    (s.node, effects.(send := s.out, snapshotNeeded := s.snapshots))
  }

  function Idle(progress: PeerProgress): PeerProgress {
    progress.(inFlight := None, snapshotInFlight := None)
  }

  function StepDown(node: Node, effects: Effects): (Node, Effects) {
    (node.(vol := node.vol.(
       role := Follower,
       votes := {},
       peers := map p | p in node.vol.peers :: Idle(node.vol.peers[p]),
       read := None)),
     if node.vol.read.None? then effects
     else effects.(read := Some(ReadResult(node.vol.read.value.context, NotLeader, 0, 0))))
  }

  // Step down, lose the staged write and stop.
  function FailStop(node: Node): (Node, Effects) {
    var (down, effects) := StepDown(node.(pending := None), NO_EFFECTS);
    (down.(halted := true),
     effects.(halt := true,
              read := if effects.read.None? then None else Some(effects.read.value.(status := Unavailable))))
  }

  function Supporters(node: Node, n: nat): set<Id> {
    set p | p in node.vol.peers && node.vol.peers[p].matched >= n
  }

  // n, if it is an entry of the leader's own term stored on a quorum.
  predicate Committable(config: Config, node: Node, n: nat)
    requires node.durable.snapshotIndex < n <= LastIndex(node.durable)
  {
    node.durable.log[n - node.durable.snapshotIndex - 1].term == node.durable.term &&
    1 + |Supporters(node, n)| >= QuorumSize(config)
  }

  function HighestFrom(config: Config, node: Node, n: nat): nat
    requires node.durable.snapshotIndex <= node.durable.commit && n <= LastIndex(node.durable)
  {
    if n <= node.durable.commit then node.durable.commit
    else if Committable(config, node, n) then n
    else HighestFrom(config, node, n - 1)
  }

  function CompleteRead(config: Config, node: Node, effects: Effects): (Node, Effects) {
    if node.vol.read.Some? && node.vol.role == Leader && node.vol.read.value.term == node.durable.term &&
       |node.vol.read.value.acknowledgements| >= QuorumSize(config) &&
       node.durable.applied >= node.vol.read.value.index
    then
      (node.(vol := node.vol.(read := None)),
       effects.(read := Some(ReadResult(node.vol.read.value.context, Ready, node.vol.read.value.term,
                                        node.vol.read.value.index))))
    else (node, effects)
  }

  // ---------------------------------------------------------------- handlers

  function Quiet(node: Node): (Node, Effects) { (node, NO_EFFECTS) }

  function Answer(node: Node, effects: Effects, reply: Outbound): (Node, Effects) {
    (node, effects.(send := effects.send + [reply]))
  }

  // Reply now if nothing has to be written, otherwise once the target is durable.
  function AnswerWith(node: Node, effects: Effects, target: Durable, reply: Outbound): (Node, Effects) {
    if target != node.durable then Stage(node, effects, target, [reply]) else Answer(node, effects, reply)
  }

  function AdoptTerm(d: Durable, term: nat): Durable {
    if term > d.term then d.(term := term, votedFor := None) else d
  }

  function OnPersistCompleted(config: Config, node: Node, token: nat): (Node, Effects) {
    if node.pending.None? || node.pending.value.token != token || node.halted then Quiet(node)
    else
      var pending := node.pending.value;
      var (read, effects) := CompleteRead(config, node.(pending := None, durable := pending.target),
        NO_EFFECTS.(send := pending.after, apply := pending.applyAfter, snapshotNeeded := pending.snapshotAfter));
      if pending.selfVote then CountVote(config, read, effects, config.self) else (read, effects)
  }

  function CountVote(config: Config, node: Node, effects: Effects, voter: Id): (Node, Effects) {
    var counted := node.(vol := node.vol.(votes := node.vol.votes + {voter}));
    if |counted.vol.votes| >= QuorumSize(config) then BecomeLeader(config, counted, effects) else (counted, effects)
  }

  function OnPersistFailed(node: Node, token: nat): (Node, Effects) {
    if node.pending.Some? && node.pending.value.token == token && !node.halted then FailStop(node) else Quiet(node)
  }

  function OnRestart(config: Config, node: Node): (Node, Effects) {
    (node.(pending := None, halted := false, vol := FreshVolatile(config)),
     NO_EFFECTS.(read := if node.vol.read.None? then None
                         else Some(ReadResult(node.vol.read.value.context, Cancelled, 0, 0))))
  }

  function OnCancelRead(node: Node, context: nat): (Node, Effects) {
    if node.vol.read.Some? && node.vol.read.value.context == context then
      (node.(vol := node.vol.(read := None)), NO_EFFECTS.(read := Some(ReadResult(context, Cancelled, 0, 0))))
    else Quiet(node)
  }

  function Refuse(node: Node, context: nat, status: ReadStatus): (Node, Effects) {
    (node, NO_EFFECTS.(read := Some(ReadResult(context, status, 0, 0))))
  }

  // A leader may admit a read once an entry of its own term is committed.
  predicate ReadAdmissible(node: Node) {
    !node.halted && node.pending.None? && node.vol.read.None? && node.vol.role == Leader &&
    node.durable.commit != 0 && DurableTermAt(node.durable, node.durable.commit) == Some(node.durable.term)
  }

  function AdmitRead(config: Config, node: Node, context: nat): Node {
    node.(vol := node.vol.(read :=
      Some(ReadBarrier(context, node.durable.term, node.durable.commit, {config.self}, map[]))))
  }

  function OnBeginRead(config: Config, node: Node, context: nat): (Node, Effects) {
    if node.halted then Refuse(node, context, Unavailable)
    else if node.pending.Some? then Refuse(node, context, Busy)
    else if node.vol.read.Some? then Refuse(node, context, Busy)
    else if node.vol.role != Leader then Refuse(node, context, NotLeader)
    else if !ReadAdmissible(node) then Refuse(node, context, NotReady)
    else
      var s := SendAll(config, Sending(AdmitRead(config, node, context), [], []), node.durable, config.peers);
      CompleteRead(config, s.node, NO_EFFECTS.(send := s.out, snapshotNeeded := s.snapshots))
  }

  function CompactTarget(d: Durable): Durable
    requires d.snapshotIndex <= d.commit <= LastIndex(d)
  {
    d.(snapshotIndex := d.commit,
       snapshotTerm := DurableTermAt(d, d.commit).value,
       log := d.log[d.commit - d.snapshotIndex..])
  }

  function OnCompact(node: Node): (Node, Effects)
    requires ValidDurable(node.durable)
  {
    var d := node.durable;
    if d.applied != d.commit || d.commit == d.snapshotIndex then Quiet(node)
    else BeginWrite(node, NO_EFFECTS, CompactTarget(d), [], [], false, [], LocalCompaction)
  }

  // The suffix kept when the boundary entry is already in the log with the right term.
  function InstallTarget(d: Durable, index: nat, term: nat): Durable
    requires index > d.snapshotIndex
  {
    d.(snapshotIndex := index,
       snapshotTerm := term,
       log := if DurableTermAt(d, index) == Some(term) then d.log[index - d.snapshotIndex..] else [],
       commit := index,
       applied := index)
  }

  predicate SnapshotAcceptable(node: Node, m: Message)
    requires m.SnapshotRequest?
  {
    KnownPeer(node, m.leader) && m.term != 0 && m.index != 0 && m.index < MAX_U64 && m.snapshotTerm != 0 &&
    m.snapshotTerm <= m.term &&
    (m.index > node.durable.commit && DurableTermAt(node.durable, node.durable.commit).Some? ==>
       m.snapshotTerm >= DurableTermAt(node.durable, node.durable.commit).value)
  }

  function OnSnapshot(config: Config, node: Node, m: Message): (Node, Effects)
    requires m.SnapshotRequest? && ValidDurable(node.durable)
  {
    if !SnapshotAcceptable(node, m) then Quiet(node)
    else if m.term < node.durable.term then
      Answer(node, NO_EFFECTS,
             Outbound(m.leader, SnapshotReply(node.durable.term, config.self, false, 0, m.requestId)))
    else
      var adopted := AdoptTerm(node.durable, m.term);
      var (down, effects) := StepDown(node, NO_EFFECTS);
      if !m.ready then
        if adopted != node.durable then Stage(down, effects, adopted, []) else (down, effects)
      else
        var installed := m.index > adopted.commit;
        var target := if installed then InstallTarget(adopted, m.index, m.snapshotTerm) else adopted;
        var success := installed || DurableTermAt(target, m.index) == Some(m.snapshotTerm);
        var reply := Outbound(m.leader, SnapshotReply(target.term, config.self, success,
                                                      if success then m.index else 0, m.requestId));
        if target != node.durable then
          BeginWrite(down, effects, target, [reply], [], false, [],
                     if installed then SnapshotInstall else StateUpdate)
        else Answer(down, effects, reply)
  }

  // A reply from a later term ends this node's candidacy or leadership.
  function Deposed(node: Node, term: nat): (Node, Effects) {
    var (down, effects) := StepDown(node, NO_EFFECTS);
    Stage(down, effects, AdoptTerm(node.durable, term), [])
  }

  function OnSnapshotReply(node: Node, m: Message): (Node, Effects)
    requires m.SnapshotReply?
  {
    if !KnownPeer(node, m.follower) then Quiet(node)
    else if m.term > node.durable.term then Deposed(node, m.term)
    else if m.term == node.durable.term && node.vol.role == Leader then
      var progress := node.vol.peers[m.follower];
      var probe := progress.snapshotInFlight;
      if probe.Some? && probe.value.requestId == m.requestId && (!m.success || probe.value.index == m.index) then
        var matched := if m.success then Max(progress.matched, probe.value.index) else progress.matched;
        Quiet(SetProgress(node, m.follower,
                          progress.(matched := matched,
                                    next := if m.success then matched + 1 else progress.next,
                                    snapshotInFlight := None)))
      else Quiet(node)
    else Quiet(node)
  }

  // One request per peer, with consecutive identifiers.
  function VoteRequests(config: Config, target: Durable, peers: seq<Id>, id: nat): seq<Outbound> {
    if peers == [] then []
    else [Outbound(peers[0], RequestVote(target.term, config.self, LastIndex(target), DurableLastTerm(target), id))]
         + VoteRequests(config, target, peers[1..], id + 1)
  }

  function OnElectionTimeout(config: Config, node: Node): (Node, Effects) {
    if node.vol.role == Leader || node.durable.term == MAX_U64 then Quiet(node)
    else
      var target := node.durable.(term := node.durable.term + 1, votedFor := Some(config.self));
      var (down, effects) := StepDown(node, NO_EFFECTS);
      var standing := down.(vol := down.vol.(role := Candidate),
                            nextRequestId := node.nextRequestId + |config.peers|);
      BeginWrite(standing, effects, target, VoteRequests(config, target, config.peers, node.nextRequestId),
                 [], true, [], StateUpdate)
  }

  function OnRequestVote(config: Config, node: Node, m: Message): (Node, Effects)
    requires m.RequestVote?
  {
    if !KnownPeer(node, m.candidate) || m.term == 0 || m.lastTerm > m.term ||
       ((m.lastIndex == 0) != (m.lastTerm == 0)) then Quiet(node)
    else if m.term < node.durable.term then
      Answer(node, NO_EFFECTS, Outbound(m.candidate, VoteReply(node.durable.term, config.self, false, m.requestId)))
    else
      var adopted := AdoptTerm(node.durable, m.term);
      var (down, effects) := if m.term > node.durable.term then StepDown(node, NO_EFFECTS) else Quiet(node);
      var grant := (adopted.votedFor == None || adopted.votedFor == Some(m.candidate)) &&
                   UpToDate(adopted, m.lastTerm, m.lastIndex);
      var target := if grant then adopted.(votedFor := Some(m.candidate)) else adopted;
      AnswerWith(down, effects, target, Outbound(m.candidate, VoteReply(target.term, config.self, grant, m.requestId)))
  }

  function OnVoteReply(config: Config, node: Node, m: Message): (Node, Effects)
    requires m.VoteReply?
  {
    if !KnownPeer(node, m.voter) then Quiet(node)
    else if m.term > node.durable.term then Deposed(node, m.term)
    else if m.term == node.durable.term && m.granted && node.vol.role == Candidate then
      CountVote(config, node, NO_EFFECTS, m.voter)
    else Quiet(node)
  }

  function OnPropose(config: Config, node: Node, command: string): (Node, Effects) {
    if node.vol.role == Leader && |node.durable.log| >= MAX_ENTRIES then
      (node, NO_EFFECTS.(capacityExhausted := true))
    else if node.vol.role == Leader && command != "" && LastIndex(node.durable) < MAX_U64 - 1 then
      var target := node.durable.(log := node.durable.log + [Entry(node.durable.term, command)]);
      var s := SendAll(config, Sending(node, [], []), target, config.peers);
      BeginWrite(s.node, NO_EFFECTS, target, s.out, [], false, s.snapshots, StateUpdate)
    else Quiet(node)
  }

  // An unanswered request is repeated unchanged; other peers get a new one.
  function BeatOne(config: Config, s: Sending, peer: Id): Sending {
    if peer in s.node.vol.peers && s.node.vol.peers[peer].inFlight.Some? then
      var request := s.node.vol.peers[peer].inFlight.value.request;
      if request.Some? then s.(out := s.out + [Outbound(peer, request.value)]) else s
    else SendAppend(config, s, s.node.durable, peer)
  }

  function BeatAll(config: Config, s: Sending, peers: seq<Id>): Sending
    decreases |peers|
  {
    if peers == [] then s else BeatAll(config, BeatOne(config, s, peers[0]), peers[1..])
  }

  function OnHeartbeat(config: Config, node: Node): (Node, Effects) {
    if node.vol.role != Leader then Quiet(node)
    else
      var s := BeatAll(config, Sending(node, [], []), Sorted(config.peers));
      (s.node, NO_EFFECTS.(send := s.out, snapshotNeeded := s.snapshots))
  }

  predicate EntriesAcceptable(entries: Log, previous: nat, maximum: nat) {
    entries == [] ||
    (entries[0].term != 0 && previous <= entries[0].term <= maximum &&
     EntriesAcceptable(entries[1..], entries[0].term, maximum))
  }

  datatype Merged = Merged(log: Log, ok: bool)

  // Lay entries over log from position `prev` on: a conflicting suffix is cut
  // unless it reaches into the committed prefix.
  function Merge(log: Log, base: nat, commit: nat, prev: nat, entries: Log): Merged
    requires base <= prev <= base + |log|
    decreases |entries|
  {
    if entries == [] then Merged(log, true)
    else
      var offset := prev - base;
      if offset < |log| && log[offset] != entries[0] then
        if prev + 1 <= commit then Merged(log, false)
        else Merge(log[..offset] + [entries[0]], base, commit, prev + 1, entries[1..])
      else if offset == |log| then Merge(log + [entries[0]], base, commit, prev + 1, entries[1..])
      else Merge(log, base, commit, prev + 1, entries[1..])
  }

  predicate AppendAcceptable(node: Node, m: Message)
    requires m.AppendEntries?
  {
    KnownPeer(node, m.leader) && m.term != 0 && m.prevIndex < MAX_U64 &&
    m.prevIndex + |m.entries| <= MAX_U64 - 1 && m.prevTerm <= m.term &&
    ((m.prevIndex == 0) == (m.prevTerm == 0)) && EntriesAcceptable(m.entries, m.prevTerm, m.term)
  }

  function OnAppend(config: Config, node: Node, m: Message): (Node, Effects)
    requires m.AppendEntries?
  {
    if !AppendAcceptable(node, m) then Quiet(node)
    else if m.term < node.durable.term then
      Answer(node, NO_EFFECTS, Outbound(m.leader, AppendReply(node.durable.term, config.self, false,
                                                              LastIndex(node.durable), m.requestId, 0)))
    else
      var adopted := AdoptTerm(node.durable, m.term);
      var (down, effects) := StepDown(node, NO_EFFECTS);
      if DurableTermAt(adopted, m.prevIndex) != Some(m.prevTerm) then
        AnswerWith(down, effects, adopted, Outbound(m.leader, AppendReply(adopted.term, config.self, false,
                                                                          MissHint(adopted, m), m.requestId, 0)))
      else if m.prevIndex + |m.entries| - adopted.snapshotIndex > MAX_ENTRIES then
        AnswerWith(down, effects.(capacityExhausted := true),
                   adopted.(commit := Max(adopted.commit, Min(m.leaderCommit, m.prevIndex))),
                   Outbound(m.leader, AppendReply(adopted.term, config.self, false, LastIndex(adopted),
                                                  m.requestId, 0)))
      else
        var merged := Merge(adopted.log, adopted.snapshotIndex, adopted.commit, m.prevIndex, m.entries);
        if merged.ok then
          var covered := m.prevIndex + |m.entries|;
          AnswerWith(down, effects,
                     adopted.(log := merged.log, commit := Max(adopted.commit, Min(m.leaderCommit, covered))),
                     Outbound(m.leader, AppendReply(adopted.term, config.self, true, LastIndex(adopted),
                                                    m.requestId, covered)))
        else
          AnswerWith(down, effects, adopted, Outbound(m.leader, AppendReply(adopted.term, config.self, false,
                                                                            adopted.commit, m.requestId, 0)))
  }

  function MissHint(d: Durable, m: Message): nat
    requires m.AppendEntries?
  {
    if d.snapshotIndex < m.prevIndex <= LastIndex(d) then m.prevIndex - 1
    else if m.prevIndex < d.snapshotIndex then d.snapshotIndex
    else LastIndex(d)
  }

  // Only probes created after the read was admitted count toward it.
  function NoteReadAck(node: Node, m: Message, probe: Probe): Node
    requires m.AppendReply?
  {
    if node.vol.read.Some? && m.follower in node.vol.read.value.probes &&
       node.vol.read.value.probes[m.follower] == m.requestId && m.matched == probe.prev + probe.count
    then node.(vol := node.vol.(read := Some(node.vol.read.value.(
           acknowledgements := node.vol.read.value.acknowledgements + {m.follower}))))
    else node
  }

  // The match derives from the sent request; a refusal never regresses below it.
  function Answered(progress: PeerProgress, m: Message, probe: Probe): PeerProgress
    requires m.AppendReply?
  {
    if m.success then
      var matched := Max(progress.matched, probe.prev + probe.count);
      progress.(inFlight := None, matched := matched, next := Max(progress.next, matched + 1))
    else
      var hintNext := if m.hint == MAX_U64 then progress.next else m.hint + 1;
      progress.(inFlight := None,
                next := if progress.next > 1 then Max(progress.matched + 1, Min(progress.next - 1, hintNext))
                        else progress.next)
  }

  predicate ReplyMatches(node: Node, m: Message)
    requires m.AppendReply?
  {
    node.vol.role == Leader && m.term == node.durable.term && m.follower in node.vol.peers &&
    node.vol.peers[m.follower].inFlight.Some? &&
    node.vol.peers[m.follower].inFlight.value.requestId == m.requestId &&
    node.vol.peers[m.follower].inFlight.value.term == m.term
  }

  function OnAppendReply(config: Config, node: Node, m: Message): (Node, Effects)
    requires m.AppendReply?
  {
    if !KnownPeer(node, m.follower) then Quiet(node)
    else if m.term > node.durable.term then
      var (staged, effects) := Deposed(node, m.term);
      CompleteRead(config, staged, effects)
    else if node.vol.role == Leader && m.term == node.durable.term && !ReplyMatches(node, m) then Quiet(node)
    else if ReplyMatches(node, m) then
      var progress := node.vol.peers[m.follower];
      var probe := progress.inFlight.value;
      var noted := if m.success then NoteReadAck(node, m, probe) else node;
      CompleteRead(config, SetProgress(noted, m.follower, Answered(progress, m, probe)), NO_EFFECTS)
    else CompleteRead(config, node, NO_EFFECTS)
  }

  function OnAdvanceCommit(config: Config, node: Node): (Node, Effects)
    requires ValidDurable(node.durable)
  {
    if node.vol.role != Leader then Quiet(node)
    else
      var n := HighestFrom(config, node, LastIndex(node.durable));
      if n > node.durable.commit then Stage(node, NO_EFFECTS, node.durable.(commit := n), []) else Quiet(node)
  }

  function OnApply(node: Node): (Node, Effects)
    requires ValidDurable(node.durable)
  {
    var d := node.durable;
    if d.applied < d.commit then
      BeginWrite(node, NO_EFFECTS, d.(applied := d.applied + 1), [], [d.log[d.applied - d.snapshotIndex]], false, [],
                 StateUpdate)
    else Quiet(node)
  }

  function OnMessage(config: Config, node: Node, m: Message): (Node, Effects)
    requires ValidDurable(node.durable)
  {
    match m
    case RequestVote(_, _, _, _, _) => OnRequestVote(config, node, m)
    case VoteReply(_, _, _, _) => OnVoteReply(config, node, m)
    case AppendEntries(_, _, _, _, _, _, _) => OnAppend(config, node, m)
    case AppendReply(_, _, _, _, _, _) => OnAppendReply(config, node, m)
    case SnapshotRequest(_, _, _, _, _, _) => OnSnapshot(config, node, m)
    case SnapshotReply(_, _, _, _, _) => OnSnapshotReply(node, m)
  }

  // Inputs that are ignored while a write is in flight or the node has stopped.
  function StepIdle(config: Config, node: Node, input: Input): (Node, Effects)
    requires ValidDurable(node.durable)
  {
    match input
    case CompactCommitted => OnCompact(node)
    case Receive(m) => OnMessage(config, node, m)
    case ElectionTimeout => OnElectionTimeout(config, node)
    case ClientPropose(command) => OnPropose(config, node, command)
    case HeartbeatTimeout => OnHeartbeat(config, node)
    case AdvanceCommit => OnAdvanceCommit(config, node)
    case ApplyCommitted => OnApply(node)
    case _ => Quiet(node)
  }

  predicate ValidNode(node: Node) {
    ValidDurable(node.durable) && (node.pending.Some? ==> ValidDurable(node.pending.value.target))
  }

  function Step(config: Config, node: Node, input: Input): (Node, Effects) {
    if !ValidNode(node) then FailStop(node)
    else match input
    case PersistCompleted(token) => OnPersistCompleted(config, node, token)
    case PersistFailed(token) => OnPersistFailed(node, token)
    case Restart => OnRestart(config, node)
    case CancelRead(context) => OnCancelRead(node, context)
    case BeginRead(context) => OnBeginRead(config, node, context)
    case _ => if node.halted || node.pending.Some? then Quiet(node) else StepIdle(config, node, input)
  }
}
