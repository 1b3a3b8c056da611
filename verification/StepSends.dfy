// What each peer is sent when the core walks its peers.
module StepSends {
  import opened Logs
  import opened Transition
  import opened Local

  // Nothing in flight and not stopped: ready for any input.
  predicate Free(node: Node) {
    ValidDurable(node.durable) && node.pending.None? && !node.halted
  }

  // n of these members, the node itself included, are a majority.
  predicate Majority(config: Config, n: nat) {
    2 * n > |config.peers| + 1
  }

  // The messages in out addressed to p, in order.
  function To(out: seq<Outbound>, p: Id): seq<Message> {
    if out == [] then []
    else To(out[..|out| - 1], p) + if out[|out| - 1].to == p then [out[|out| - 1].message] else []
  }

  lemma ToMore(out: seq<Outbound>, o: Outbound, p: Id)
    ensures To(out + [o], p) == To(out, p) + if o.to == p then [o.message] else []
  {
    assert (out + [o])[..|out|] == out;
  }

  // m asks a peer to append what the log has at `next`, if anything.
  predicate ProbeFor(config: Config, log: Durable, next: nat, m: Message) {
    log.snapshotIndex < next <= LastIndex(log) + 1 && m.AppendEntries? && m.term == log.term &&
    m.leader == config.self && m.prevIndex == next - 1 && Some(m.prevTerm) == DurableTermAt(log, next - 1) &&
    m.leaderCommit == log.commit && m.entries == if next <= LastIndex(log) then [EntryAt(log, next)] else []
  }

  function Kept(request: Option<Message>): seq<Message> {
    if request.Some? then [request.value] else []
  }

  // What peer p with progress g is given: while an append is unanswered nothing,
  // or on a beat the same append again; the same snapshot again; a snapshot request
  // if it is behind the boundary; or the append at its next index. New request ids lie between low and high.
  predicate Served(beat: bool, config: Config, log: Durable, p: Id, g: PeerProgress, g': PeerProgress, sent: seq<Message>,
                   asked: seq<SnapshotNeeded>, low: nat, high: nat)
  {
    if g.inFlight.Some? then g' == g && sent == if beat then Kept(g.inFlight.value.request) else []
    else if g.snapshotInFlight.Some? then g' == g && sent == [] && g.snapshotInFlight.value in asked
    else if g.next <= log.snapshotIndex && log.snapshotIndex > 0 then
      sent == [] && g'.snapshotInFlight.Some? && g'.snapshotInFlight.value in asked &&
      var needed := g'.snapshotInFlight.value;
      low <= needed.requestId < high && g' == g.(snapshotInFlight := Some(needed)) &&
      needed == SnapshotNeeded(p, log.snapshotIndex, log.snapshotTerm, needed.requestId)
    else if g.next <= LastIndex(log) + 1 then
      |sent| == 1 && ProbeFor(config, log, Max(1, g.next), sent[0]) && low <= sent[0].requestId < high &&
      g' == g.(inFlight := Some(Probe(sent[0].requestId, log.term, sent[0].prevIndex, |sent[0].entries|, Some(sent[0]))))
    else g' == g && sent == []
  }

  // The read's number for p is that of the last append sent to it, if any.
  predicate NotedFor(probes: map<Id, nat>, probes': map<Id, nat>, p: Id, sent: seq<Message>) {
    if sent == [] then (p in probes' <==> p in probes) && (p in probes ==> probes'[p] == probes[p])
    else p in probes' && sent[|sent| - 1].AppendEntries? && probes'[p] == sent[|sent| - 1].requestId
  }

  // The messages to p that are not repetitions.
  function News(peers: map<Id, PeerProgress>, more: seq<Outbound>, p: Id): seq<Message> {
    if p in peers && peers[p].inFlight.Some? then [] else To(more, p)
  }

  // An open read notes the number of every new append.
  ghost predicate Noted(peers: map<Id, PeerProgress>, read: Option<ReadBarrier>, read': Option<ReadBarrier>,
                        more: seq<Outbound>)
  {
    read'.Some? == read.Some? &&
    (read.Some? ==>
      read'.value == read.value.(probes := read'.value.probes) &&
      forall p: Id :: NotedFor(read.value.probes, read'.value.probes, p, News(peers, more, p)))
  }

  // t is s after these peers had their turn.
  ghost predicate Round(beat: bool, config: Config, log: Durable, s: Sending, t: Sending, done: seq<Id>) {
    s.out <= t.out && s.snapshots <= t.snapshots && s.node.nextRequestId <= t.node.nextRequestId &&
    t.node == s.node.(nextRequestId := t.node.nextRequestId,
                      vol := s.node.vol.(peers := t.node.vol.peers, read := t.node.vol.read)) &&
    t.node.vol.peers.Keys == s.node.vol.peers.Keys &&
    Noted(s.node.vol.peers, s.node.vol.read, t.node.vol.read, t.out[|s.out|..]) &&
    (forall p :: p in s.node.vol.peers && p in done ==>
      Served(beat, config, log, p, s.node.vol.peers[p], t.node.vol.peers[p], To(t.out[|s.out|..], p),
             t.snapshots[|s.snapshots|..], s.node.nextRequestId, t.node.nextRequestId)) &&
    (forall p :: p in s.node.vol.peers && p !in done ==> t.node.vol.peers[p] == s.node.vol.peers[p]) &&
    (forall p :: p !in done || p !in s.node.vol.peers ==> To(t.out[|s.out|..], p) == [])
  }

  lemma RoundStart(beat: bool, config: Config, log: Durable, s: Sending)
    ensures Round(beat, config, log, s, s, [])
  {
    assert s.out[|s.out|..] == [];
  }

  lemma ServedLater(beat: bool, config: Config, log: Durable, p: Id, g: PeerProgress, g': PeerProgress, sent: seq<Message>,
                    asked: seq<SnapshotNeeded>, more: seq<SnapshotNeeded>, low: nat, high: nat, higher: nat)
    requires Served(beat, config, log, p, g, g', sent, asked, low, high) && asked <= more && high <= higher
    ensures Served(beat, config, log, p, g, g', sent, more, low, higher)
  {}

  // A peer that had its turn gets nothing new in a second one.
  lemma ServedTwice(config: Config, s: Sending, log: Durable, p: Id, g: PeerProgress, sent: seq<Message>,
                    asked: seq<SnapshotNeeded>, low: nat, high: nat)
    requires p in s.node.vol.peers
    requires Served(false, config, log, p, g, s.node.vol.peers[p], sent, asked, low, high)
    ensures SendAppend(config, s, log, p).node == s.node && SendAppend(config, s, log, p).out == s.out
  {
    hide ProbeMessage;
  }

  // The first turn of a peer.
  lemma ServedOnce(config: Config, s: Sending, log: Durable, p: Id)
    requires p in s.node.vol.peers
    ensures
      var t := SendAppend(config, s, log, p);
      s.out <= t.out && s.snapshots <= t.snapshots && p in t.node.vol.peers &&
      t.node.vol.peers == s.node.vol.peers[p := t.node.vol.peers[p]] &&
      s.node.nextRequestId <= t.node.nextRequestId &&
      t.node == s.node.(nextRequestId := t.node.nextRequestId,
                        vol := s.node.vol.(peers := t.node.vol.peers, read := t.node.vol.read)) &&
      (t.out == s.out || (|t.out| == |s.out| + 1 && t.out[|s.out|].to == p)) &&
      var sent := if t.out == s.out then [] else [t.out[|s.out|].message];
      Served(false, config, log, p, s.node.vol.peers[p], t.node.vol.peers[p], sent, t.snapshots[|s.snapshots|..],
             s.node.nextRequestId, t.node.nextRequestId) &&
      t.node.vol.read == NotedOne(s.node.vol.read, p, sent)
  {}

  function NotedOne(read: Option<ReadBarrier>, p: Id, sent: seq<Message>): Option<ReadBarrier> {
    if read.Some? && sent != [] && sent[0].AppendEntries? then
      Some(read.value.(probes := read.value.probes[p := sent[0].requestId]))
    else read
  }

  lemma NotedMore(peers: map<Id, PeerProgress>, read: Option<ReadBarrier>, now: Option<ReadBarrier>,
                  more: seq<Outbound>, o: Outbound)
    requires Noted(peers, read, now, more)
    requires o.message.AppendEntries? || (o.to in peers && peers[o.to].inFlight.Some?)
    ensures
      var again := o.to in peers && peers[o.to].inFlight.Some?;
      Noted(peers, read, if again then now else NotedOne(now, o.to, [o.message]), more + [o])
  {
    hide To;
    var again := o.to in peers && peers[o.to].inFlight.Some?;
    if read.Some? {
      var probes := if again then now.value.probes else now.value.probes[o.to := o.message.requestId];
      forall p: Id
        ensures NotedFor(read.value.probes, probes, p, News(peers, more + [o], p))
      {
        ToMore(more, o, p);
        assert NotedFor(read.value.probes, now.value.probes, p, News(peers, more, p));
      }
    }
  }

  // One more peer.
  lemma RoundOne(config: Config, log: Durable, s: Sending, m: Sending, done: seq<Id>, p: Id)
    requires Round(false, config, log, s, m, done)
    ensures Round(false, config, log, s, SendAppend(config, m, log, p), done + [p])
  {
    hide SendAppend, Served, Noted, To, Round;
    RoundFacts(false, config, log, s, m, done, p);
    var t := SendAppend(config, m, log, p);
    if p !in m.node.vol.peers {
      SkipsUnknown(config, m, log, p);
    } else {
      ServedOnce(config, m, log, p);
      var news := m.out[|s.out|..];
      if p in done {
        ServedTwice(config, m, log, p, s.node.vol.peers[p], To(news, p), m.snapshots[|s.snapshots|..],
                    s.node.nextRequestId, m.node.nextRequestId);
        assert t.out == m.out;
      } else if t.out != m.out {
        assert t.out[|s.out|..] == news + [t.out[|m.out|]];
        ServedProbes(false, config, log, p, m.node.vol.peers[p], t.node.vol.peers[p], t.out[|m.out|].message,
                     t.snapshots[|m.snapshots|..], m.node.nextRequestId, t.node.nextRequestId);
        NotedMore(s.node.vol.peers, s.node.vol.read, m.node.vol.read, news, t.out[|m.out|]);
      }
      RoundGrows(false, config, log, s, m, t, done, p);
    }
  }

  lemma RoundFacts(beat: bool, config: Config, log: Durable, s: Sending, m: Sending, done: seq<Id>, p: Id)
    requires Round(beat, config, log, s, m, done)
    ensures s.out <= m.out && s.snapshots <= m.snapshots && m.node.vol.peers.Keys == s.node.vol.peers.Keys
    ensures m.node.durable == s.node.durable
    ensures Noted(s.node.vol.peers, s.node.vol.read, m.node.vol.read, m.out[|s.out|..])
    ensures p in s.node.vol.peers && p in done ==>
      Served(beat, config, log, p, s.node.vol.peers[p], m.node.vol.peers[p], To(m.out[|s.out|..], p),
             m.snapshots[|s.snapshots|..], s.node.nextRequestId, m.node.nextRequestId)
    ensures p in s.node.vol.peers && p !in done ==> m.node.vol.peers[p] == s.node.vol.peers[p]
    ensures p !in m.node.vol.peers ==> Round(beat, config, log, s, m, done + [p])
  {
    hide To, Served, Noted;
  }

  lemma SkipsUnknown(config: Config, s: Sending, log: Durable, p: Id)
    requires p !in s.node.vol.peers
    ensures SendAppend(config, s, log, p) == s
  {}

  lemma ServedProbes(beat: bool, config: Config, log: Durable, p: Id, g: PeerProgress, g': PeerProgress, m: Message,
                     asked: seq<SnapshotNeeded>, low: nat, high: nat)
    requires Served(beat, config, log, p, g, g', [m], asked, low, high)
    ensures if g.inFlight.Some? then beat && g'.inFlight == g.inFlight else m.AppendEntries?
  {}

  // The book-keeping of one turn.
  lemma RoundGrows(beat: bool, config: Config, log: Durable, s: Sending, m: Sending, t: Sending, done: seq<Id>, p: Id)
    requires Round(beat, config, log, s, m, done) && p in m.node.vol.peers && p in t.node.vol.peers
    requires m.out <= t.out && m.snapshots <= t.snapshots && m.node.nextRequestId <= t.node.nextRequestId
    requires t.node == m.node.(nextRequestId := t.node.nextRequestId,
                               vol := m.node.vol.(peers := t.node.vol.peers, read := t.node.vol.read))
    requires t.node.vol.peers == m.node.vol.peers[p := t.node.vol.peers[p]]
    requires Noted(s.node.vol.peers, s.node.vol.read, t.node.vol.read, t.out[|s.out|..])
    requires t.out == m.out || (p !in done && |t.out| == |m.out| + 1 && t.out[|m.out|].to == p)
    requires p in done ==> t.node == m.node
    requires
      var sent := if t.out == m.out then [] else [t.out[|m.out|].message];
      p !in done ==>
        Served(beat, config, log, p, m.node.vol.peers[p], t.node.vol.peers[p], sent, t.snapshots[|m.snapshots|..],
               m.node.nextRequestId, t.node.nextRequestId)
    ensures Round(beat, config, log, s, t, done + [p])
  {
    hide Served, Noted, To;
    var news, all := m.out[|s.out|..], t.out[|s.out|..];
    var asked, asks := m.snapshots[|s.snapshots|..], t.snapshots[|s.snapshots|..];
    assert asks == asked + t.snapshots[|m.snapshots|..];
    if t.out != m.out {
      assert all == news + [t.out[|m.out|]];
    }
    forall q: Id
      ensures To(all, q) == To(news, q) + if t.out != m.out && q == p then [t.out[|m.out|].message] else []
    {
      if t.out != m.out {
        ToMore(news, t.out[|m.out|], q);
      }
    }
    forall q | q in s.node.vol.peers && q in done + [p]
      ensures Served(beat, config, log, q, s.node.vol.peers[q], t.node.vol.peers[q], To(all, q), asks, s.node.nextRequestId,
                     t.node.nextRequestId)
    {
      if q in done {
        ServedLater(beat, config, log, q, s.node.vol.peers[q], m.node.vol.peers[q], To(news, q), asked, asks,
                    s.node.nextRequestId, m.node.nextRequestId, t.node.nextRequestId);
        assert To(all, q) == To(news, q) && t.node.vol.peers[q] == m.node.vol.peers[q];
      } else {
        assert q == p && To(news, p) == [] && To(all, p) == if t.out == m.out then [] else [t.out[|m.out|].message];
        ServedEarlier(beat, config, log, p, m.node.vol.peers[p], t.node.vol.peers[p], To(all, p),
                      t.snapshots[|m.snapshots|..], asks, s.node.nextRequestId, m.node.nextRequestId,
                      t.node.nextRequestId);
      }
    }
  }

  lemma ServedEarlier(beat: bool, config: Config, log: Durable, p: Id, g: PeerProgress, g': PeerProgress, sent: seq<Message>,
                      asked: seq<SnapshotNeeded>, asks: seq<SnapshotNeeded>, low: nat, mid: nat, high: nat)
    requires Served(beat, config, log, p, g, g', sent, asked, mid, high) && low <= mid
    requires forall n :: n in asked ==> n in asks
    ensures Served(beat, config, log, p, g, g', sent, asks, low, high)
  {}

  lemma {:induction false} RoundAll(config: Config, log: Durable, s: Sending, m: Sending, done: seq<Id>, rest: seq<Id>)
    requires Round(false, config, log, s, m, done)
    ensures Round(false, config, log, s, SendAll(config, m, log, rest), done + rest)
    decreases |rest|
  {
    hide Round, SendAppend;
    if rest == [] {
      assert done + rest == done;
    } else {
      RoundOne(config, log, s, m, done, rest[0]);
      RoundAll(config, log, s, SendAppend(config, m, log, rest[0]), done + [rest[0]], rest[1..]);
      assert done + [rest[0]] + rest[1..] == done + rest;
    }
  }

  // Sending to all: every known peer of the list is served, nobody else.
  lemma SendsToAll(config: Config, s: Sending, log: Durable, peers: seq<Id>)
    ensures Round(false, config, log, s, SendAll(config, s, log, peers), peers)
  {
    hide Round, SendAll;
    RoundStart(false, config, log, s);
    RoundAll(config, log, s, s, [], peers);
    assert [] + peers == peers;
  }

  // ---------------------------------------------------------------- beats

  lemma BeatServes(config: Config, s: Sending, p: Id)
    requires p in s.node.vol.peers
    ensures
      var t := BeatOne(config, s, p);
      s.out <= t.out && s.snapshots <= t.snapshots && p in t.node.vol.peers &&
      t.node.vol.peers == s.node.vol.peers[p := t.node.vol.peers[p]] &&
      s.node.nextRequestId <= t.node.nextRequestId &&
      t.node == s.node.(nextRequestId := t.node.nextRequestId,
                        vol := s.node.vol.(peers := t.node.vol.peers, read := t.node.vol.read)) &&
      (t.out == s.out || (|t.out| == |s.out| + 1 && t.out[|s.out|].to == p)) &&
      var sent := if t.out == s.out then [] else [t.out[|s.out|].message];
      Served(true, config, s.node.durable, p, s.node.vol.peers[p], t.node.vol.peers[p], sent,
             t.snapshots[|s.snapshots|..], s.node.nextRequestId, t.node.nextRequestId) &&
      t.node.vol.read ==
        if s.node.vol.peers[p].inFlight.Some? then s.node.vol.read else NotedOne(s.node.vol.read, p, sent)
  {
    hide SendAppend;
    if s.node.vol.peers[p].inFlight.None? {
      ServedOnce(config, s, s.node.durable, p);
    }
  }

  lemma BeatTurn(config: Config, s: Sending, m: Sending, done: seq<Id>, p: Id)
    requires Round(true, config, s.node.durable, s, m, done) && p !in done
    ensures Round(true, config, s.node.durable, s, BeatOne(config, m, p), done + [p])
  {
    hide BeatOne, Served, Noted, To, Round;
    var log := s.node.durable;
    RoundFacts(true, config, log, s, m, done, p);
    var t := BeatOne(config, m, p);
    if p !in m.node.vol.peers {
      BeatSkips(config, m, p);
    } else {
      BeatServes(config, m, p);
      var news := m.out[|s.out|..];
      if t.out != m.out {
        assert t.out[|s.out|..] == news + [t.out[|m.out|]];
        ServedProbes(true, config, log, p, m.node.vol.peers[p], t.node.vol.peers[p], t.out[|m.out|].message,
                     t.snapshots[|m.snapshots|..], m.node.nextRequestId, t.node.nextRequestId);
        NotedMore(s.node.vol.peers, s.node.vol.read, m.node.vol.read, news, t.out[|m.out|]);
      }
      RoundGrows(true, config, log, s, m, t, done, p);
    }
  }

  lemma BeatSkips(config: Config, s: Sending, p: Id)
    requires p !in s.node.vol.peers
    ensures BeatOne(config, s, p) == s
  {}

  lemma {:induction false} BeatAllTurns(config: Config, s: Sending, m: Sending, done: seq<Id>, rest: seq<Id>)
    requires Round(true, config, s.node.durable, s, m, done) && Distinct(rest)
    requires forall p :: p in rest ==> p !in done
    ensures Round(true, config, s.node.durable, s, BeatAll(config, m, rest), done + rest)
    decreases |rest|
  {
    hide Round, BeatOne;
    if rest == [] {
      assert done + rest == done;
    } else {
      BeatTurn(config, s, m, done, rest[0]);
      assert rest[0] !in rest[1..];
      BeatAllTurns(config, s, BeatOne(config, m, rest[0]), done + [rest[0]], rest[1..]);
      assert done + [rest[0]] + rest[1..] == done + rest;
    }
  }

  // A beat: the same, but unanswered appends are repeated unchanged.
  lemma BeatsAll(config: Config, s: Sending, peers: seq<Id>)
    requires Distinct(peers)
    ensures Round(true, config, s.node.durable, s, BeatAll(config, s, peers), peers)
  {
    hide Round, BeatAll;
    RoundStart(true, config, s.node.durable, s);
    BeatAllTurns(config, s, s, [], peers);
    assert [] + peers == peers;
  }
}
