// Probes and snapshot work sent by a leader.
module SimSend {
  import opened Logs
  import opened Transition
  import opened Local
  import opened Protocol
  import opened Simulation
  import opened SimTargets

  // `log` is an image of everything the leader of term t has, staged or durable.
  ghost predicate LeadsWith(g: Ghost, i: Id, t: nat, log: Durable) {
    t in g.r.lead && g.r.lead[t].owner == i && log.term == t && ValidDurable(log) && Full(log, g.r.lead[t].log) &&
    Agree(g.r.lead[t].log, g.r.committed, log.commit) && log.commit <= g.r.lead[t].top
  }

  ghost predicate Numbered(g: Ghost, i: Id, node: Node) {
    node.vol.read.Some? ==>
      i in g.floors && g.floors[i].from <= node.nextRequestId &&
      forall k :: k in node.vol.read.value.probes ==> node.vol.read.value.probes[k] >= g.floors[i].from
  }

  ghost predicate Probes(g: Ghost, out: seq<Outbound>) {
    forall p :: p in out ==> p.message.AppendEntries? && AppendOK(g, p.message)
  }

  ghost predicate SendOK(g: Ghost, i: Id, t: nat, s: Sending) {
    PeersOK(g, i, t, s.node.vol.peers) && IdsOK(g, i, t, s.node.nextRequestId) && Probes(g, s.out) &&
    Numbered(g, i, s.node)
  }

  // Only the coverage of new requests is added.
  ghost predicate SendGrows(g: Ghost, g': Ghost, i: Id) {
    g' == g.(sent := g'.sent) && GhostMoves(g, g', i)
  }

  lemma SendGrowsTrans(g: Ghost, h: Ghost, k: Ghost, i: Id)
    requires SendGrows(g, h, i) && SendGrows(h, k, i)
    ensures SendGrows(g, k, i)
  {
    GhostTrans(g, h, k, i);
  }

  lemma ProbesStable(g: Ghost, g': Ghost, out: seq<Outbound>)
    requires SentGrows(g, g') && Probes(g, out)
    ensures Probes(g', out)
  {
    forall p | p in out
      ensures AppendOK(g', p.message)
    {
      AppendStable(g, g', p.message);
    }
  }

  // The same read round, apart from the probes it waits for.
  predicate SameRead(a: Option<ReadBarrier>, b: Option<ReadBarrier>) {
    a.Some? == b.Some? && (a.Some? ==> b.value == a.value.(probes := b.value.probes))
  }

  function Noted(g: Ghost, i: Id, t: nat, id: nat, n: nat): Ghost {
    g.(sent := g.sent[Req(i, t, id) := n])
  }

  lemma NotedGrows(g: Ghost, i: Id, t: nat, id: nat, n: nat)
    requires IdsOK(g, i, t, id) && t in g.r.lead
    ensures SendGrows(g, Noted(g, i, t, id, n), i) && IdsOK(Noted(g, i, t, id, n), i, t, id + 1)
  {
    hide Grows;
    GrowsRefl(g.r);
  }

  // The probe's fields, read off the leader's full log.
  lemma ProbeFields(config: Config, log: Durable, lead: Log, next: nat, id: nat)
    requires Full(log, lead) && log.snapshotIndex < next <= LastIndex(log) + 1
    ensures
      var m := ProbeMessage(config, log, next, id);
      var end := m.prevIndex + |m.entries|;
      end <= |lead| && lead[m.prevIndex..end] == m.entries && m.prevTerm == TermAt(lead, m.prevIndex)
  {
    FullHasTerm(log, lead, next - 1);
    if next <= LastIndex(log) {
      assert log.log[next - log.snapshotIndex - 1] == lead[next - 1];
      assert lead[next - 1..next] == [lead[next - 1]];
    } else {
      assert lead[next - 1..next - 1] == [];
    }
  }

  lemma ProbeMessageOK(config: Config, g: Ghost, i: Id, t: nat, log: Durable, next: nat, id: nat)
    requires LeadsWith(g, i, t, log) && config.self == i && log.snapshotIndex < next <= LastIndex(log) + 1
    ensures
      var m := ProbeMessage(config, log, next, id);
      AppendOK(Noted(g, i, t, id, m.prevIndex + |m.entries|), m)
  {
    hide Full, Agree, ValidDurable, DurableTermAt;
    ProbeFields(config, log, g.r.lead[t].log, next, id);
  }

  lemma SendProbeOK(config: Config, g: Ghost, i: Id, t: nat, log: Durable, s: Sending, peer: Id, next: nat)
    returns (g': Ghost)
    requires LeadsWith(g, i, t, log) && SendOK(g, i, t, s) && config.self == i && peer in s.node.vol.peers
    requires s.node.vol.peers[peer].inFlight.None? && log.snapshotIndex < next <= LastIndex(log) + 1
    ensures SendGrows(g, g', i) && SendOK(g', i, t, SendProbe(config, s, log, peer, next))
  {
    hide LeadsWith, SendGrows, AppendOK, PeersOK, Probes, IdsOK, ProbeMessage;
    var id := s.node.nextRequestId;
    var m := ProbeMessage(config, log, next, id);
    LeadsTerm(g, i, t, log);
    ProbeShape(config, log, next, id);
    g' := Noted(g, i, t, id, m.prevIndex + |m.entries|);
    NotedGrows(g, i, t, id, m.prevIndex + |m.entries|);
    ProbeMessageOK(config, g, i, t, log, next, id);
    SendGrowth(g, g', i);
    PeersStable(g, g', i, t, s.node.vol.peers);
    ProbesStable(g, g', s.out);
    ProbesMore(g', s.out, Outbound(peer, m));
    var probe := Probe(id, log.term, next - 1, |m.entries|, Some(m));
    NewProgress(g', i, t, peer, s.node.vol.peers, probe);
    ProbeNumbered(config, g, g', i, s, log, peer, next);
  }

  lemma SendGrowth(g: Ghost, g': Ghost, i: Id)
    requires SendGrows(g, g', i)
    ensures SentGrows(g, g') && g'.floors == g.floors
  {}

  lemma ProbeShape(config: Config, log: Durable, next: nat, id: nat)
    requires log.snapshotIndex < next <= LastIndex(log) + 1
    ensures
      var m := ProbeMessage(config, log, next, id);
      m.AppendEntries? && m.term == log.term && m.leader == config.self && m.requestId == id && m.prevIndex == next - 1
  {}

  lemma ProbesMore(g: Ghost, out: seq<Outbound>, p: Outbound)
    requires Probes(g, out) && p.message.AppendEntries? && AppendOK(g, p.message)
    ensures Probes(g, out + [p])
  {
    hide AppendOK;
  }

  lemma NewProgress(g: Ghost, i: Id, t: nat, peer: Id, peers: map<Id, PeerProgress>, probe: Probe)
    requires PeersOK(g, i, t, peers) && peer in peers && ProbeOK(g, i, t, probe)
    ensures PeersOK(g, i, t, peers[peer := peers[peer].(inFlight := Some(probe))])
  {
    hide ProbeOK, BoundaryOK;
    assert ProgressOK(g, i, t, peer, peers[peer]);
  }

  lemma NewSnapshot(g: Ghost, i: Id, t: nat, peer: Id, peers: map<Id, PeerProgress>, needed: SnapshotNeeded)
    requires PeersOK(g, i, t, peers) && peer in peers && BoundaryOK(g.r, t, needed.index, needed.term)
    ensures PeersOK(g, i, t, peers[peer := peers[peer].(snapshotInFlight := Some(needed))])
  {
    hide ProbeOK, BoundaryOK;
    assert ProgressOK(g, i, t, peer, peers[peer]);
  }

  lemma ProbeNumbered(config: Config, g: Ghost, g': Ghost, i: Id, s: Sending, log: Durable, peer: Id, next: nat)
    requires Numbered(g, i, s.node) && g'.floors == g.floors && peer in s.node.vol.peers
    requires log.snapshotIndex < next <= LastIndex(log) + 1
    ensures Numbered(g', i, SendProbe(config, s, log, peer, next).node)
  {
    hide ProbeMessage;
  }

  lemma LeadsTerm(g: Ghost, i: Id, t: nat, log: Durable)
    requires LeadsWith(g, i, t, log)
    ensures log.term == t && t in g.r.lead
  {}

  lemma LeaderBoundary(g: Ghost, i: Id, t: nat, log: Durable)
    requires LeadsWith(g, i, t, log) && log.snapshotIndex >= 1
    ensures BoundaryOK(g.r, t, log.snapshotIndex, log.snapshotTerm)
  {
    AgreeShorter(g.r.lead[t].log, g.r.committed, log.commit, log.snapshotIndex);
    AgreeTermAt(g.r.lead[t].log, g.r.committed, log.snapshotIndex);
  }

  lemma SendOne(config: Config, g: Ghost, i: Id, t: nat, log: Durable, s: Sending, peer: Id) returns (g': Ghost)
    requires LeadsWith(g, i, t, log) && SendOK(g, i, t, s) && config.self == i
    ensures SendGrows(g, g', i) && SendOK(g', i, t, SendAppend(config, s, log, peer))
    ensures SameRead(s.node.vol.read, SendAppend(config, s, log, peer).node.vol.read)
  {
    hide LeadsWith, Grows, AppendOK, BoundaryOK, PeersOK, Probes, ProbeMessage;
    g' := g;
    GrowsRefl(g.r);
    if peer in s.node.vol.peers && s.node.vol.peers[peer].inFlight.None? &&
       s.node.vol.peers[peer].snapshotInFlight.None? {
      var next := Max(1, s.node.vol.peers[peer].next);
      if next <= log.snapshotIndex {
        LeaderBoundary(g, i, t, log);
        NewSnapshot(g, i, t, peer, s.node.vol.peers,
                    SnapshotNeeded(peer, log.snapshotIndex, log.snapshotTerm, s.node.nextRequestId));
      } else if next <= LastIndex(log) + 1 {
        g' := SendProbeOK(config, g, i, t, log, s, peer, next);
      }
    }
  }

  lemma {:induction false} SendMany(config: Config, g: Ghost, i: Id, t: nat, log: Durable, s: Sending, peers: seq<Id>)
    returns (g': Ghost)
    requires LeadsWith(g, i, t, log) && SendOK(g, i, t, s) && config.self == i
    ensures SendGrows(g, g', i) && SendOK(g', i, t, SendAll(config, s, log, peers))
    ensures SameRead(s.node.vol.read, SendAll(config, s, log, peers).node.vol.read)
    decreases |peers|
  {
    hide Grows, SendOK, SendAppend;
    if peers == [] {
      g' := g;
      GrowsRefl(g.r);
    } else {
      var h := SendOne(config, g, i, t, log, s, peers[0]);
      g' := SendMany(config, h, i, t, log, SendAppend(config, s, log, peers[0]), peers[1..]);
      SendGrowsTrans(g, h, g', i);
    }
  }

  lemma BeatOneOK(config: Config, g: Ghost, i: Id, t: nat, s: Sending, peer: Id) returns (g': Ghost)
    requires LeadsWith(g, i, t, s.node.durable) && SendOK(g, i, t, s) && config.self == i
    ensures SendGrows(g, g', i) && SendOK(g', i, t, BeatOne(config, s, peer))
    ensures SameRead(s.node.vol.read, BeatOne(config, s, peer).node.vol.read)
  {
    hide LeadsWith, Grows, AppendOK, BoundaryOK, SendAppend;
    if peer in s.node.vol.peers && s.node.vol.peers[peer].inFlight.Some? {
      g' := g;
      GrowsRefl(g.r);
      assert ProgressOK(g, i, t, peer, s.node.vol.peers[peer]);
    } else {
      g' := SendOne(config, g, i, t, s.node.durable, s, peer);
    }
  }

  lemma {:induction false} BeatMany(config: Config, g: Ghost, i: Id, t: nat, s: Sending, peers: seq<Id>)
    returns (g': Ghost)
    requires LeadsWith(g, i, t, s.node.durable) && SendOK(g, i, t, s) && config.self == i
    ensures SendGrows(g, g', i) && SendOK(g', i, t, BeatAll(config, s, peers))
    ensures SameRead(s.node.vol.read, BeatAll(config, s, peers).node.vol.read)
    decreases |peers|
  {
    hide Grows, SendOK, SendAppend;
    if peers == [] {
      g' := g;
      GrowsRefl(g.r);
    } else {
      var h := BeatOneOK(config, g, i, t, s, peers[0]);
      BeatAllFrame(config, s, [peers[0]]);
      BeatSingle(config, s, peers[0]);
      g' := BeatMany(config, h, i, t, BeatOne(config, s, peers[0]), peers[1..]);
      SendGrowsTrans(g, h, g', i);
    }
  }

  lemma BeatSingle(config: Config, s: Sending, peer: Id)
    ensures BeatAll(config, s, [peer]) == BeatOne(config, s, peer)
  {
    assert BeatAll(config, BeatOne(config, s, peer), [peer][1..]) == BeatOne(config, s, peer);
  }
}
