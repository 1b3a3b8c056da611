// Every positive reply answers a request that was sent.
module Requests {
  import opened Logs
  import opened Transition
  import opened Local
  import opened Cluster

  predicate Succeeds(p: Outbound) {
    (p.message.AppendReply? && p.message.success) || (p.message.SnapshotReply? && p.message.success)
  }

  // m is the request that i answers with p.
  predicate Replies(i: Id, m: Message, p: Outbound) {
    match p.message
    case AppendReply(term, follower, _, _, requestId, matched) =>
      m.AppendEntries? && follower == i && p.to == m.leader && term == m.term && requestId == m.requestId &&
      matched == m.prevIndex + |m.entries|
    case SnapshotReply(term, follower, _, index, requestId) =>
      m.SnapshotRequest? && m.ready && follower == i && p.to == m.leader && term == m.term &&
      requestId == m.requestId && index == m.index
    case _ => false
  }

  // Requests kept for retries are appends.
  ghost predicate KeepsAppends(node: Node) {
    forall p :: p in node.vol.peers && node.vol.peers[p].inFlight.Some? &&
                node.vol.peers[p].inFlight.value.request.Some? ==>
      node.vol.peers[p].inFlight.value.request.value.AppendEntries?
  }

  // Each positive reply in out was held back before or answers the input.
  predicate Answering(i: Id, input: Input, before: seq<Outbound>, out: seq<Outbound>) {
    forall p :: p in out && Succeeds(p) ==> p in before || (input.Receive? && Replies(i, input.message, p))
  }

  ghost predicate StepAnswers(i: Id, input: Input, node: Node, next: Node, effects: Effects) {
    KeepsAppends(next) && Answering(i, input, HeldBack(node), effects.send) &&
    Answering(i, input, HeldBack(node), HeldBack(next))
  }

  // ---------------------------------------------------------------- sending

  ghost predicate SendsAppends(s: Sending, before: seq<Outbound>) {
    KeepsAppends(s.node) && forall p :: p in s.out && Succeeds(p) ==> p in before
  }

  lemma SendOneAppends(config: Config, s: Sending, log: Durable, peer: Id, before: seq<Outbound>)
    requires SendsAppends(s, before)
    ensures SendsAppends(SendAppend(config, s, log, peer), before)
  {
    hide DurableTermAt;
  }

  lemma {:induction false} SendAllAppends(config: Config, s: Sending, log: Durable, peers: seq<Id>, before: seq<Outbound>)
    requires SendsAppends(s, before)
    ensures SendsAppends(SendAll(config, s, log, peers), before)
    decreases |peers|
  {
    hide SendsAppends, SendAppend;
    if peers != [] {
      SendOneAppends(config, s, log, peers[0], before);
      SendAllAppends(config, SendAppend(config, s, log, peers[0]), log, peers[1..], before);
    }
  }

  lemma BeatOneAppends(config: Config, s: Sending, peer: Id, before: seq<Outbound>)
    requires SendsAppends(s, before)
    ensures SendsAppends(BeatOne(config, s, peer), before)
  {
    hide SendAppend;
    SendOneAppends(config, s, s.node.durable, peer, before);
  }

  lemma {:induction false} BeatAllAppends(config: Config, s: Sending, peers: seq<Id>, before: seq<Outbound>)
    requires SendsAppends(s, before)
    ensures SendsAppends(BeatAll(config, s, peers), before)
    decreases |peers|
  {
    hide SendsAppends, BeatOne;
    if peers != [] {
      BeatOneAppends(config, s, peers[0], before);
      BeatAllAppends(config, BeatOne(config, s, peers[0]), peers[1..], before);
    }
  }

  // ---------------------------------------------------------------- handlers

  lemma CountAnswers(config: Config, node: Node, effects: Effects, voter: Id, before: seq<Outbound>)
    requires KeepsAppends(node) && forall p :: p in effects.send && Succeeds(p) ==> p in before
    ensures
      var (next, out) := CountVote(config, node, effects, voter);
      KeepsAppends(next) && next.pending == node.pending && forall p :: p in out.send && Succeeds(p) ==> p in before
  {
    hide SendAll;
    var counted := node.(vol := node.vol.(votes := node.vol.votes + {voter}));
    var s := Sending(Crowned(counted), effects.send, effects.snapshotNeeded);
    SendAllAppends(config, s, node.durable, Sorted(config.peers), before);
    SendAllFrame(config, s, node.durable, Sorted(config.peers));
  }

  lemma AppendAnswers(config: Config, node: Node, m: Message)
    requires KeepsAppends(node) && node.pending.None? && m.AppendEntries?
    ensures StepAnswers(config.self, Receive(m), node, OnAppend(config, node, m).0, OnAppend(config, node, m).1)
  {
    hide Merge, AppendAcceptable, MissHint, DurableTermAt, AnswerWith, StepAnswers;
    QuietAnswers(config.self, Receive(m), node);
    var refusal := AppendReply(node.durable.term, config.self, false, LastIndex(node.durable), m.requestId, 0);
    AnswerAnswers(config.self, Receive(m), node, Outbound(m.leader, refusal));
    if AppendAcceptable(node, m) && m.term >= node.durable.term {
      var d := AdoptTerm(node.durable, m.term);
      var effects := StepDown(node, NO_EFFECTS).1;
      if DurableTermAt(d, m.prevIndex) != Some(m.prevTerm) {
        DownAnswers(config.self, m, node, effects, d,
                    AppendReply(d.term, config.self, false, MissHint(d, m), m.requestId, 0));
      } else if m.prevIndex + |m.entries| - d.snapshotIndex > MAX_ENTRIES {
        DownAnswers(config.self, m, node, effects.(capacityExhausted := true),
                    d.(commit := Max(d.commit, Min(m.leaderCommit, m.prevIndex))),
                    AppendReply(d.term, config.self, false, LastIndex(d), m.requestId, 0));
      } else {
        PrevInRange(d, m.prevIndex);
        var merged := Merge(d.log, d.snapshotIndex, d.commit, m.prevIndex, m.entries);
        var covered := m.prevIndex + |m.entries|;
        DownAnswers(config.self, m, node, effects,
                    d.(log := merged.log, commit := Max(d.commit, Min(m.leaderCommit, covered))),
                    AppendReply(d.term, config.self, true, LastIndex(d), m.requestId, covered));
        DownAnswers(config.self, m, node, effects, d,
                    AppendReply(d.term, config.self, false, d.commit, m.requestId, 0));
      }
    }
  }

  lemma QuietAnswers(i: Id, input: Input, node: Node)
    requires KeepsAppends(node) && node.pending.None?
    ensures StepAnswers(i, input, node, Quiet(node).0, Quiet(node).1)
  {}

  lemma AnswerAnswers(i: Id, input: Input, node: Node, reply: Outbound)
    requires KeepsAppends(node) && node.pending.None? && !Succeeds(reply)
    ensures StepAnswers(i, input, node, Answer(node, NO_EFFECTS, reply).0, Answer(node, NO_EFFECTS, reply).1)
  {
    hide Replies;
  }

  // After stepping down, a reply that answers m may be given.
  lemma DownAnswers(i: Id, m: Message, node: Node, effects: Effects, target: Durable, reply: Message)
    requires KeepsAppends(node) && node.pending.None? && m.AppendEntries? && effects.send == []
    requires Succeeds(Outbound(m.leader, reply)) ==> Replies(i, m, Outbound(m.leader, reply))
    ensures
      var (next, out) := AnswerWith(StepDown(node, NO_EFFECTS).0, effects, target, Outbound(m.leader, reply));
      StepAnswers(i, Receive(m), node, next, out)
  {
    hide Replies;
  }

  lemma AppendReplyAnswers(config: Config, node: Node, m: Message)
    requires KeepsAppends(node) && node.pending.None? && m.AppendReply?
    ensures StepAnswers(config.self, Receive(m), node, OnAppendReply(config, node, m).0, OnAppendReply(config, node, m).1)
  {
    hide CompleteRead, Replies, KeepsAppends;
    if m.follower in node.vol.peers {
      if m.term > node.durable.term {
        var (staged, effects) := Deposed(node, m.term);
        ReadFrame(config, staged, effects);
        Emptied(staged);
        SamePeers(staged, CompleteRead(config, staged, effects).0);
      } else if ReplyMatches(node, m) {
        var progress := node.vol.peers[m.follower];
        var probe := progress.inFlight.value;
        var noted := if m.success then NoteReadAck(node, m, probe) else node;
        var next := SetProgress(noted, m.follower, Answered(progress, m, probe));
        ReadFrame(config, next, NO_EFFECTS);
        OneAnswered(node, next, m.follower);
        SamePeers(next, CompleteRead(config, next, NO_EFFECTS).0);
      } else {
        ReadFrame(config, node, NO_EFFECTS);
        SamePeers(node, CompleteRead(config, node, NO_EFFECTS).0);
      }
    }
  }

  lemma Emptied(next: Node)
    requires forall p :: p in next.vol.peers ==> next.vol.peers[p].inFlight.None?
    ensures KeepsAppends(next)
  {}

  lemma OneAnswered(node: Node, next: Node, p: Id)
    requires KeepsAppends(node) && p in next.vol.peers && next.vol.peers[p].inFlight.None?
    requires next.vol.peers == node.vol.peers[p := next.vol.peers[p]]
    ensures KeepsAppends(next)
  {}

  lemma SnapshotAnswers(config: Config, node: Node, m: Message)
    requires ValidDurable(node.durable) && KeepsAppends(node) && node.pending.None? && m.SnapshotRequest?
    ensures StepAnswers(config.self, Receive(m), node, OnSnapshot(config, node, m).0, OnSnapshot(config, node, m).1)
  {
    hide ValidDurable, SnapshotAcceptable, DurableTermAt;
  }

  lemma MessageAnswers(config: Config, node: Node, m: Message)
    requires ValidDurable(node.durable) && KeepsAppends(node) && node.pending.None?
    ensures StepAnswers(config.self, Receive(m), node, OnMessage(config, node, m).0, OnMessage(config, node, m).1)
  {
    hide ValidDurable, OnAppend, OnAppendReply, OnSnapshot, CountVote, UpToDate, Replies;
    match m
    case VoteReply(_, _, _, _) => CountAnswers(config, node, NO_EFFECTS, m.voter, []);
    case AppendEntries(_, _, _, _, _, _, _) => AppendAnswers(config, node, m);
    case AppendReply(_, _, _, _, _, _) => AppendReplyAnswers(config, node, m);
    case SnapshotRequest(_, _, _, _, _, _) => SnapshotAnswers(config, node, m);
    case _ =>
  }

  lemma {:induction false} VoteRequestsOnly(config: Config, target: Durable, peers: seq<Id>, id: nat)
    ensures forall p :: p in VoteRequests(config, target, peers, id) ==> p.message.RequestVote?
    decreases |peers|
  {
    if peers != [] {
      VoteRequestsOnly(config, target, peers[1..], id + 1);
    }
  }

  lemma IdleAnswers(config: Config, node: Node, input: Input)
    requires ValidDurable(node.durable) && KeepsAppends(node) && node.pending.None?
    ensures StepAnswers(config.self, input, node, StepIdle(config, node, input).0, StepIdle(config, node, input).1)
  {
    hide ValidDurable, OnMessage, SendAll, BeatAll, HighestFrom, VoteRequests, DurableTermAt, Replies;
    match input
    case Receive(m) => MessageAnswers(config, node, m);
    case ElectionTimeout =>
      VoteRequestsOnly(config, node.durable.(term := node.durable.term + 1, votedFor := Some(config.self)),
                       config.peers, node.nextRequestId);
    case ClientPropose(command) =>
      var target := node.durable.(log := node.durable.log + [Entry(node.durable.term, command)]);
      SendAllAppends(config, Sending(node, [], []), target, config.peers, []);
      SendAllFrame(config, Sending(node, [], []), target, config.peers);
    case HeartbeatTimeout =>
      BeatAllAppends(config, Sending(node, [], []), Sorted(config.peers), []);
      BeatAllFrame(config, Sending(node, [], []), Sorted(config.peers));
    case _ =>
  }

  lemma CompletedAnswers(config: Config, node: Node, token: nat)
    requires KeepsAppends(node)
    ensures
      var (next, out) := OnPersistCompleted(config, node, token);
      StepAnswers(config.self, PersistCompleted(token), node, next, out)
  {
    hide CountVote, CompleteRead, Replies;
    if node.pending.Some? {
      var pending := node.pending.value;
      var done := node.(pending := None, durable := pending.target);
      var effects := NO_EFFECTS.(send := pending.after, apply := pending.applyAfter,
                                 snapshotNeeded := pending.snapshotAfter);
      ReadFrame(config, done, effects);
      var (read, out) := CompleteRead(config, done, effects);
      SamePeers(node, read);
      CountAnswers(config, read, out, config.self, pending.after);
    }
  }

  lemma SamePeers(node: Node, next: Node)
    requires KeepsAppends(node) && next.vol.peers == node.vol.peers
    ensures KeepsAppends(next)
  {}

  lemma BeginReadAnswers(config: Config, node: Node, context: nat)
    requires KeepsAppends(node)
    ensures
      var (next, out) := OnBeginRead(config, node, context);
      StepAnswers(config.self, BeginRead(context), node, next, out)
  {
    hide SendAll, CompleteRead, Replies, ReadAdmissible;
    var s := Sending(AdmitRead(config, node, context), [], []);
    SamePeers(node, s.node);
    SendAllAppends(config, s, node.durable, config.peers, []);
    SendAllFrame(config, s, node.durable, config.peers);
    var t := SendAll(config, s, node.durable, config.peers);
    ReadFrame(config, t.node, NO_EFFECTS.(send := t.out, snapshotNeeded := t.snapshots));
    SamePeers(t.node, CompleteRead(config, t.node, NO_EFFECTS.(send := t.out, snapshotNeeded := t.snapshots)).0);
  }

  // Every step: a positive reply it sends or holds back was held back before or
  // answers the message it handles.
  lemma StepAnswersOnly(config: Config, node: Node, input: Input)
    requires KeepsAppends(node)
    ensures StepAnswers(config.self, input, node, Step(config, node, input).0, Step(config, node, input).1)
  {
    hide ValidDurable, StepIdle, OnPersistCompleted, OnBeginRead, Replies;
    if ValidNode(node) {
      match input
      case PersistCompleted(token) => CompletedAnswers(config, node, token);
      case BeginRead(context) => BeginReadAnswers(config, node, context);
      case CancelRead(context) => SamePeers(node, OnCancelRead(node, context).0);
      case PersistFailed(_) =>
      case Restart =>
      case _ =>
        if !node.halted && node.pending.None? {
          IdleAnswers(config, node, input);
        }
    }
  }

  // ---------------------------------------------------------------- runs

  // A positive reply has its request in the network.
  ghost predicate Asked(net: set<Outbound>, p: Outbound) {
    Succeeds(p) ==> exists q :: q in net && Replies(q.to, q.message, p)
  }

  ghost predicate AllAsked(s: State) {
    (forall i :: i in s.configs ==> s.configs[i].self == i) && (forall p :: p in s.net ==> Asked(s.net, p)) &&
    forall i :: i in s.nodes ==>
      KeepsAppends(s.nodes[i]) && forall p :: p in HeldBack(s.nodes[i]) ==> Asked(s.net, p)
  }

  lemma AskedStill(net: set<Outbound>, more: set<Outbound>, p: Outbound)
    requires Asked(net, p) && net <= more
    ensures Asked(more, p)
  {}

  lemma AnsweredAsked(net: set<Outbound>, i: Id, input: Input, before: seq<Outbound>, out: seq<Outbound>)
    requires Answering(i, input, before, out) && (input.Receive? ==> Outbound(i, input.message) in net)
    requires forall p :: p in before ==> Asked(net, p)
    ensures forall p :: p in out ==> Asked(net, p)
  {
    hide Replies;
    forall p | p in out
      ensures Asked(net, p)
    {
      if Succeeds(p) && p !in before {
        assert Replies(Outbound(i, input.message).to, Outbound(i, input.message).message, p);
      }
    }
  }

  lemma HandleAsks(s: State, s': State, i: Id, input: Input)
    requires AllAsked(s) && i in s.nodes && i in s.configs && i in s.writes && HandleStep(s, s', i, input)
    ensures AllAsked(s')
  {
    hide Step, Replies, KeepsAppends, Answering, Asked;
    var (node, effects) := Step(s.configs[i], s.nodes[i], input);
    StepAnswersOnly(s.configs[i], s.nodes[i], input);
    AnsweredAsked(s.net, i, input, HeldBack(s.nodes[i]), effects.send);
    AnsweredAsked(s.net, i, input, HeldBack(s.nodes[i]), HeldBack(node));
    MoreAsked(s, s', i);
  }

  lemma MoreAsked(s: State, s': State, i: Id)
    requires AllAsked(s) && s'.configs == s.configs && s.net <= s'.net && i in s'.nodes
    requires s'.nodes == s.nodes[i := s'.nodes[i]] && KeepsAppends(s'.nodes[i])
    requires forall p :: p in HeldBack(s'.nodes[i]) ==> Asked(s.net, p)
    requires forall p :: p in s'.net && p !in s.net ==> Asked(s.net, p)
    ensures AllAsked(s')
  {
    hide Asked, KeepsAppends;
    forall p | Asked(s.net, p)
      ensures Asked(s'.net, p)
    {
      AskedStill(s.net, s'.net, p);
    }
  }

  lemma NextAsks(s: State, s': State, l: Label)
    requires AllAsked(s) && Next(s, s', l)
    ensures AllAsked(s')
  {
    hide AllAsked, Recoverable;
    var i := l.who;
    match l.action
    case Handle(input) => HandleAsks(s, s', i, input);
    case Crash(d) =>
      SameNet(s, s', i);
    case Offer(peer, ready) => OneAsked(s, s', i);
    case RefuseChunk(leader, requestId) => OneAsked(s, s', i);
  }

  lemma SameNet(s: State, s': State, i: Id)
    requires AllAsked(s) && s'.configs == s.configs && s'.net == s.net && i in s.nodes && i in s'.nodes
    requires s'.nodes == s.nodes[i := s'.nodes[i]] && HeldBack(s'.nodes[i]) == []
    requires forall p :: p in s'.nodes[i].vol.peers ==> s'.nodes[i].vol.peers[p].inFlight.None?
    ensures AllAsked(s')
  {
    hide Asked;
    MoreAsked(s, s', i);
  }

  lemma OneAsked(s: State, s': State, i: Id)
    requires AllAsked(s) && s'.configs == s.configs && s.net <= s'.net && i in s.nodes && s'.nodes == s.nodes
    requires forall p :: p in s'.net && p !in s.net ==> !Succeeds(p)
    ensures AllAsked(s')
  {
    hide Replies, KeepsAppends;
    assert s.nodes == s.nodes[i := s.nodes[i]];
    MoreAsked(s, s', i);
  }

  // In every run each positive reply, sent or held back, has its request in the
  // network.
  lemma {:induction false} RunAsks(states: seq<State>, labels: seq<Label>, k: nat)
    requires Run(states, labels) && k < |states|
    ensures AllAsked(states[k])
    decreases k
  {
    hide Next, AllAsked, Init;
    if k == 0 {
      StartAsks(states[0]);
    } else {
      RunAsks(states, labels, k - 1);
      assert Next(states[k - 1], states[k - 1 + 1], labels[k - 1]);
      NextAsks(states[k - 1], states[k], labels[k - 1]);
    }
  }

  lemma StartAsks(s: State)
    requires Init(s)
    ensures AllAsked(s)
  {
    hide Blank, Asked;
    forall i | i in s.nodes
      ensures KeepsAppends(s.nodes[i]) && HeldBack(s.nodes[i]) == []
    {
      assert s.nodes[i] == Boot(s.configs[i], s.nodes[i].durable);
    }
  }
}
