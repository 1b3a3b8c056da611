// Releasing messages that a completed write justifies.
module SimRelease {
  import opened Logs
  import opened Transition
  import opened Protocol
  import opened ProtocolEvents
  import opened ProtocolWrites
  import opened Simulation

  // Only acknowledgements of i and what they commit are new.
  ghost predicate AckGrows(g: Ghost, g': Ghost, i: Id) {
    g' == g.(r := g.r.(acks := g'.r.acks, committed := g'.r.committed, chooser := g'.r.chooser)) &&
    GhostMoves(g, g', i)
  }

  lemma AckGrowsTrans(g: Ghost, h: Ghost, k: Ghost, i: Id)
    requires AckGrows(g, h, i) && AckGrows(h, k, i)
    ensures AckGrows(g, k, i)
  {
    GhostTrans(g, h, k, i);
  }

  lemma PacketStable(g: Ghost, g': Ghost, i: Id, p: Outbound)
    requires AckGrows(g, g', i) && PacketOK(g, i, p)
    ensures PacketOK(g', i, p)
  {
    MsgStable(g, g', p);
  }

  // Acknowledging changes nothing else about the member.
  lemma AckMember(g: Ghost, g': Ghost, net: set<Outbound>, net': set<Outbound>, i: Id, node: Node,
                  w: Option<PersistRequest>)
    requires MemberOK(g, net, i, node, w) && AckGrows(g, g', i) && i in g.r.members
    requires forall p :: p in net' && p !in net ==> PacketOK(g', i, p)
    ensures MemberOK(g', net', i, node, w)
  {
    hide AfterOK, ProgressOK, FloorOK, FreshReplies, PacketOK, CanWrite;
    AckPending(g, g', i, node, w);
    if node.vol.role == Leader {
      PeersStable(g, g', i, node.durable.term, node.vol.peers);
    }
    ReadGrows(g, g', net, net', i, i, node);
  }

  lemma AckPending(g: Ghost, g': Ghost, i: Id, node: Node, w: Option<PersistRequest>)
    requires PendingOK(g, i, node, w) && AckGrows(g, g', i)
    ensures PendingOK(g', i, node, w)
  {
    hide AfterOK, CanWrite;
    if w.Some? {
      WriteStable(g.r, g'.r, i, DiskOf(w.value.target, g.staged[i]));
    }
    if node.pending.Some? {
      forall p | p in node.pending.value.after
        ensures AfterOK(g', i, node.pending.value.target, g'.staged[i], node.pending.value.selfVote, p)
      {
        AfterStable(g, g', i, node.pending.value.target, g.staged[i], node.pending.value.selfVote, p);
      }
    }
  }

  // What must be on disk before `after` goes out.
  ghost predicate Settled(g: Ghost, i: Id, d: Durable, selfVote: bool) {
    Inv(g.r) && i in g.r.disks && DiskRel(d, g.r.disks[i]) &&
    (selfVote ==> Ballot(d.term, i) in g.r.cand && g.r.cand[Ballot(d.term, i)] == g.r.disks[i].log)
  }

  function Acked(g: Ghost, i: Id, n: nat): Ghost
    requires i in g.r.disks
  {
    g.(r := Acknowledge(g.r, i, n))
  }

  lemma AckOne(g: Ghost, i: Id, n: nat)
    requires Inv(g.r) && CanAcknowledge(g.r, i, n)
    ensures Inv(Acked(g, i, n).r) && AckGrows(g, Acked(g, i, n), i)
    ensures Ack(g.r.disks[i].term, i, n) in Acked(g, i, n).r.acks
  {
    hide Inv, Grows;
    AcknowledgeKeeps(g.r, i, n);
  }

  lemma ReleaseOne(g: Ghost, i: Id, d: Durable, selfVote: bool, p: Outbound) returns (g': Ghost)
    requires Settled(g, i, d, selfVote) && AfterOK(g, i, d, g.r.disks[i].log, selfVote, p)
    ensures Settled(g', i, d, selfVote) && AckGrows(g, g', i) && PacketOK(g', i, p)
  {
    hide Grows, Agree, DisksOK, BallotsOK, BallotsCast, ReignsOK, AcksOK, AllSafe, VotesSafe, CommittedOK,
      DisksCommitted, TopsOK, Full;
    g' := g;
    match p.message
    case AppendReply(t, _, success, _, id, _) =>
      if success {
        var n := g.sent[Req(p.to, t, id)];
        AckOne(g, i, n);
        g' := Acked(g, i, n);
      } else {
        GrowsRefl(g.r);
      }
    case SnapshotReply(t, _, success, x, _) =>
      if success {
        AckOne(g, i, x);
        g' := Acked(g, i, x);
      } else {
        GrowsRefl(g.r);
      }
    case _ => GrowsRefl(g.r);
  }

  // All messages of a completed write become true at once.
  lemma {:induction false} ReleaseAll(g: Ghost, i: Id, d: Durable, selfVote: bool, after: seq<Outbound>)
    returns (g': Ghost)
    requires Settled(g, i, d, selfVote)
    requires forall p :: p in after ==> AfterOK(g, i, d, g.r.disks[i].log, selfVote, p)
    ensures Settled(g', i, d, selfVote) && AckGrows(g, g', i)
    ensures forall p :: p in after ==> PacketOK(g', i, p)
    decreases |after|
  {
    hide Inv, Grows, AfterOK, MsgOK, DiskRel;
    if after == [] {
      g' := g;
      GrowsRefl(g.r);
    } else {
      var h := ReleaseOne(g, i, d, selfVote, after[0]);
      forall p | p in after[1..]
        ensures AfterOK(h, i, d, h.r.disks[i].log, selfVote, p)
      {
        AfterStable(g, h, i, d, g.r.disks[i].log, selfVote, p);
      }
      g' := ReleaseAll(h, i, d, selfVote, after[1..]);
      AckGrowsTrans(g, h, g', i);
      PacketStable(h, g', i, after[0]);
      assert forall p :: p in after ==> p == after[0] || p in after[1..];
    }
  }
}
