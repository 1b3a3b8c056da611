// Standing for election, counting votes and taking office, stated on the node,
// the votes and the messages alone.
module StepElection {
  import opened Logs
  import opened Transition
  import opened Local
  import opened StepSends
  import opened StepFollower
  import opened Orders

  // ---------------------------------------------------------------- standing

  lemma {:induction false} RequestsAt(config: Config, target: Durable, peers: seq<Id>, id: nat, k: nat)
    requires k < |peers|
    ensures |VoteRequests(config, target, peers, id)| == |peers|
    ensures VoteRequests(config, target, peers, id)[k] ==
      Outbound(peers[k], RequestVote(target.term, config.self, LastIndex(target), DurableLastTerm(target), id + k))
    decreases |peers|
  {
    if |peers| > 1 {
      RequestsAt(config, target, peers[1..], id + 1, if k > 0 then k - 1 else 0);
    }
  }

  lemma NoRequests(config: Config, target: Durable, id: nat)
    ensures VoteRequests(config, target, [], id) == []
  {}

  // m asks for a vote in the node's next term, quoting where its log ends.
  predicate AsksVote(config: Config, d: Durable, id: nat, m: Message) {
    m.RequestVote? && m.term == d.term + 1 && m.candidate == config.self && m.lastIndex == LastIndex(d) &&
    Some(m.lastTerm) == DurableTermAt(d, LastIndex(d)) && m.requestId == id
  }

  // A timeout starts a candidacy in the next term, with the own vote and one
  // request per peer behind one write; a leader or the last term starts none.
  lemma TimeoutOutcome(config: Config, node: Node)
    requires Free(node)
    ensures node.vol.role == Leader || node.durable.term == MAX_U64 ==>
      Step(config, node, ElectionTimeout) == (node, NO_EFFECTS)
    ensures node.vol.role != Leader && node.durable.term != MAX_U64 ==>
      var (next, effects) := Step(config, node, ElectionTimeout);
      var d := node.durable;
      next.durable == d && next.pending.Some? && next.pending.value.selfVote && effects.send == [] &&
      Newest(next) == d.(term := d.term + 1, votedFor := Some(config.self)) &&
      next.vol.role == Candidate && next.vol.votes == {} && next.vol.read == None &&
      next.nextRequestId == node.nextRequestId + |config.peers| && |HeldBack(next)| == |config.peers| &&
      forall k: nat :: k < |config.peers| ==>
        HeldBack(next)[k].to == config.peers[k] &&
        AsksVote(config, d, node.nextRequestId + k, HeldBack(next)[k].message)
  {
    hide ValidDurable, VoteRequests, DurableLastTerm, DurableTermAt;
    var d := node.durable;
    var target := d.(term := d.term + 1, votedFor := Some(config.self));
    LastTermAt(d);
    SameLastTerm(d, target);
    if config.peers == [] {
      NoRequests(config, target, node.nextRequestId);
    } else {
      RequestsAt(config, target, config.peers, node.nextRequestId, 0);
    }
    forall k: nat | k < |config.peers|
      ensures |VoteRequests(config, target, config.peers, node.nextRequestId)| == |config.peers| &&
        VoteRequests(config, target, config.peers, node.nextRequestId)[k] ==
          Outbound(config.peers[k], RequestVote(target.term, config.self, LastIndex(target), DurableLastTerm(target),
                                                node.nextRequestId + k))
    {
      RequestsAt(config, target, config.peers, node.nextRequestId, k);
    }
  }

  lemma SameLastTerm(d: Durable, e: Durable)
    requires e.log == d.log && e.snapshotTerm == d.snapshotTerm
    ensures DurableLastTerm(e) == DurableLastTerm(d)
  {}

  // ---------------------------------------------------------------- counting

  // A new leader knows nothing of its peers and asks each about its own end.
  ghost predicate TookOffice(config: Config, node: Node, next: Node, sent: seq<Outbound>) {
    next.vol.role == Leader && next.vol.leadershipEpoch == node.vol.leadershipEpoch + 1 &&
    next.vol.peers.Keys == node.vol.peers.Keys &&
    (forall p :: p in next.vol.peers ==>
      next.vol.peers[p].next == LastIndex(node.durable) + 1 && next.vol.peers[p].matched == 0 &&
      next.vol.peers[p].snapshotInFlight == None) &&
    forall p :: p in next.vol.peers ==>
      if p in config.peers then
        |To(sent, p)| == 1 && ProbeFor(config, node.durable, LastIndex(node.durable) + 1, To(sent, p)[0]) &&
        next.vol.peers[p].inFlight.Some? && next.vol.peers[p].inFlight.value.request == Some(To(sent, p)[0])
      else To(sent, p) == [] && next.vol.peers[p].inFlight == None
  }

  // node has counted this vote; with a majority it takes office.
  ghost predicate Counted(config: Config, node: Node, voter: Id, next: Node, sent: seq<Outbound>) {
    next.vol.votes == node.vol.votes + {voter} && next.durable == node.durable && next.pending == node.pending &&
    next.halted == node.halted &&
    if Majority(config, |node.vol.votes + {voter}|) then TookOffice(config, node, next, sent)
    else next == node.(vol := node.vol.(votes := node.vol.votes + {voter})) && sent == []
  }

  lemma CountOutcome(config: Config, node: Node, effects: Effects, voter: Id)
    ensures
      var (next, out) := CountVote(config, node, effects, voter);
      effects.send <= out.send && Counted(config, node, voter, next, out.send[|effects.send|..]) &&
      out.read == effects.read && out.apply == effects.apply && out.persist == effects.persist &&
      next.durable == node.durable && next.pending == node.pending
  {
    hide SendAll, TookOffice;
    var counted := node.(vol := node.vol.(votes := node.vol.votes + {voter}));
    if |counted.vol.votes| >= QuorumSize(config) {
      var s := Sending(Crowned(counted), effects.send, effects.snapshotNeeded);
      var t := SendAll(config, s, node.durable, Sorted(config.peers));
      SendsToAll(config, s, node.durable, Sorted(config.peers));
      SortedAscends(config.peers);
      OfficeTaken(config, node, counted, s, t, Sorted(config.peers));
    }
  }

  lemma OfficeTaken(config: Config, node: Node, counted: Node, s: Sending, t: Sending, peers: seq<Id>)
    requires counted == node.(vol := counted.vol) && counted.vol == node.vol.(votes := counted.vol.votes)
    requires s.node == Crowned(counted) && Round(false, config, node.durable, s, t, peers)
    requires forall x :: x in peers <==> x in config.peers
    ensures TookOffice(config, node, t.node, t.out[|s.out|..])
    ensures s.out <= t.out && t.node.vol.votes == counted.vol.votes && t.node.durable == node.durable
    ensures t.node.pending == node.pending && t.node.halted == node.halted
  {
    hide To, Noted, ProbeFor, Served;
    forall p | p in t.node.vol.peers
      ensures
        t.node.vol.peers[p].next == LastIndex(node.durable) + 1 && t.node.vol.peers[p].matched == 0 &&
        t.node.vol.peers[p].snapshotInFlight == None
      ensures
        var sent := To(t.out[|s.out|..], p);
        if p in config.peers then
          |sent| == 1 && ProbeFor(config, node.durable, LastIndex(node.durable) + 1, sent[0]) &&
          t.node.vol.peers[p].inFlight.Some? && t.node.vol.peers[p].inFlight.value.request == Some(sent[0])
        else sent == [] && t.node.vol.peers[p].inFlight == None
    {
      var g := s.node.vol.peers[p];
      assert g == PeerProgress(LastIndex(node.durable) + 1, 0, None, None);
      if p in peers {
        ServedFresh(config, node.durable, p, g, t.node.vol.peers[p], To(t.out[|s.out|..], p),
                    t.snapshots[|s.snapshots|..], s.node.nextRequestId, t.node.nextRequestId);
      }
    }
  }

  lemma ServedFresh(config: Config, log: Durable, p: Id, g: PeerProgress, g': PeerProgress, sent: seq<Message>,
                    asked: seq<SnapshotNeeded>, low: nat, high: nat)
    requires Served(false, config, log, p, g, g', sent, asked, low, high)
    requires g.inFlight.None? && g.snapshotInFlight.None? && log.snapshotIndex < g.next <= LastIndex(log) + 1
    ensures |sent| == 1 && ProbeFor(config, log, g.next, sent[0]) && g'.inFlight.Some?
    ensures g'.inFlight.value.request == Some(sent[0]) && g' == g.(inFlight := g'.inFlight)
  {}

  // A vote reply counts exactly if it is granted, of the current term, from a
  // known peer and to a candidate; a later term ends the candidacy.
  lemma VoteReplyOutcome(config: Config, node: Node, m: Message)
    requires Free(node) && m.VoteReply?
    ensures
      var (next, effects) := Step(config, node, Receive(m));
      var d := node.durable;
      if m.voter !in node.vol.peers then next == node && effects == NO_EFFECTS
      else if m.term > d.term then
        StoodDown(node, next, effects) && Replied(next, effects) == [] && next.durable == d &&
        Newest(next) == d.(term := m.term, votedFor := None)
      else if m.term == d.term && m.granted && node.vol.role == Candidate then
        Counted(config, node, m.voter, next, effects.send) &&
        effects == NO_EFFECTS.(send := effects.send, snapshotNeeded := effects.snapshotNeeded)
      else next == node && effects == NO_EFFECTS
  {
    hide ValidDurable, CountVote, Counted, StoodDown;
    CountOutcome(config, node, NO_EFFECTS, m.voter);
    var out := CountVote(config, node, NO_EFFECTS, m.voter).1;
    assert out.send[0..] == out.send;
    CountQuiet(config, node, m.voter);
    DownStands(node);
  }

  lemma CountQuiet(config: Config, node: Node, voter: Id)
    ensures
      var out := CountVote(config, node, NO_EFFECTS, voter).1;
      out == NO_EFFECTS.(send := out.send, snapshotNeeded := out.snapshotNeeded)
  {}

  // ---------------------------------------------------------------- completed writes

  // A read is answered exactly when a majority acknowledged it and the node has
  // applied through its index.
  predicate Settled(config: Config, node: Node, read: Option<ReadBarrier>, result: Option<ReadResult>) {
    var open := node.vol.read;
    if open.Some? && node.vol.role == Leader && open.value.term == node.durable.term &&
       Majority(config, |open.value.acknowledgements|) && node.durable.applied >= open.value.index
    then read == None && result == Some(ReadResult(open.value.context, Ready, open.value.term, open.value.index))
    else read == open && result == None
  }

  lemma ReadSettles(config: Config, node: Node, effects: Effects)
    requires effects.read == None
    ensures
      var (next, out) := CompleteRead(config, node, effects);
      next == node.(vol := node.vol.(read := next.vol.read)) && out == effects.(read := out.read) &&
      Settled(config, node, next.vol.read, out.read)
  {}

  // The completed write becomes the disk image; what waited for it is released,
  // an open read may be answered and the node's own vote is counted.
  lemma CompletedOutcome(config: Config, node: Node, token: nat)
    requires ValidNode(node)
    ensures node.pending.None? || node.pending.value.token != token || node.halted ==>
      Step(config, node, PersistCompleted(token)) == (node, NO_EFFECTS)
    ensures node.pending.Some? && node.pending.value.token == token && !node.halted ==>
      var (next, effects) := Step(config, node, PersistCompleted(token));
      var w := node.pending.value;
      var done := node.(pending := None, durable := w.target);
      w.after <= effects.send && effects.apply == w.applyAfter && effects.persist == None &&
      var left := if effects.read.Some? then None else done.vol.read;
      var answered := done.(vol := done.vol.(read := left));
      next.durable == w.target && next.pending == None && Settled(config, done, left, effects.read) &&
      if w.selfVote then Counted(config, answered, config.self, next, effects.send[|w.after|..])
      else next == answered && effects.send == w.after && effects.snapshotNeeded == w.snapshotAfter
  {
    hide ValidDurable, CountVote, CompleteRead, Counted;
    if node.pending.Some? && node.pending.value.token == token && !node.halted {
      var w := node.pending.value;
      var done := node.(pending := None, durable := w.target);
      var effects := NO_EFFECTS.(send := w.after, apply := w.applyAfter, snapshotNeeded := w.snapshotAfter);
      ReadSettles(config, done, effects);
      var (read, out) := CompleteRead(config, done, effects);
      CountOutcome(config, read, out, config.self);
    }
  }
}
