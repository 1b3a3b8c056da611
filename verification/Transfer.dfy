// Sending a snapshot in chunks from a leader to one follower over a network that
// may lose, repeat and reorder everything.
module Transfer {
  import opened Logs
  import opened Bytes
  import opened Transition
  import opened Local
  import opened HostPins

  const MAXIMUM_SNAPSHOT: nat := 64 * 1024 * 1024

  // Which snapshot a chunk belongs to, and whose transfer it is.
  datatype Identity = Identity(leader: Id, term: nat, index: nat, snapshotTerm: nat, hash: string)

  datatype Chunk = Chunk(id: Identity, payload: Blob, offset: nat, more: bool, correlation: nat)

  datatype Reply = Reply(term: nat, success: bool, nextOffset: nat, correlation: nat)

  datatype Incoming = Incoming(id: Identity, bytes: Blob)

  // The leader's open transfer: the frame to retry, where it ends and whether it
  // is the last one.
  datatype Outgoing = Outgoing(id: Identity, frame: Chunk, end: nat, final: bool)

  // The payload pinned for each identity.
  type Payloads = Identity -> Blob

  // A frame carries a slice of its payload and says whether more follows.
  predicate Genuine(payloads: Payloads, c: Chunk) {
    var whole := payloads(c.id);
    c.offset + |c.payload| <= |whole| && c.payload == whole[c.offset..c.offset + |c.payload|] &&
    c.more == (c.offset + |c.payload| < |whole|)
  }

  // Frames the follower looks at all.
  predicate WellFormed(c: Chunk) {
    |c.id.hash| == 16 && 0 < c.id.index < MAX_U64 && 0 < c.id.snapshotTerm <= c.id.term &&
    c.offset + |c.payload| <= MAXIMUM_SNAPSHOT && !(c.more && c.payload == [])
  }

  // What is assembled is a proper prefix of the payload, or nothing yet.
  predicate Assembling(payloads: Payloads, incoming: Incoming) {
    var whole := payloads(incoming.id);
    incoming.bytes <= whole && (incoming.bytes == [] || |incoming.bytes| < |whole|)
  }

  // Adding the next chunk keeps a prefix; only the last chunk completes it.
  lemma Extends(payloads: Payloads, incoming: Incoming, c: Chunk)
    requires Assembling(payloads, incoming) && Genuine(payloads, c) && c.id == incoming.id && c.offset == |incoming.bytes|
    ensures incoming.bytes + c.payload <= payloads(c.id)
    ensures c.more ==> Assembling(payloads, incoming.(bytes := incoming.bytes + c.payload))
    ensures !c.more ==> incoming.bytes + c.payload == payloads(c.id)
  {
    var whole := payloads(c.id);
    assert incoming.bytes == whole[..c.offset];
    assert incoming.bytes + c.payload == whole[..c.offset + |c.payload|];
  }

  // A chunk that lies within what is already there cannot be the last one.
  lemma InsideIsNotLast(payloads: Payloads, incoming: Incoming, c: Chunk)
    requires Assembling(payloads, incoming) && Genuine(payloads, c) && c.id == incoming.id
    requires c.offset < |incoming.bytes| && |c.payload| <= |incoming.bytes| - c.offset
    ensures c.more
  {}

  lemma StartsEmpty(payloads: Payloads, c: Chunk)
    ensures Assembling(payloads, Incoming(c.id, []))
  {}

  lemma InstallHas(d: Durable, index: nat, term: nat)
    requires d.snapshotIndex < index
    ensures
      var e := InstallTarget(d, index, term);
      e.term == d.term && e.commit == index && DurableTermAt(e, index) == Some(term)
  {}

  lemma FrameInside(payloads: Payloads, c: Chunk)
    requires Genuine(payloads, c)
    ensures c.offset + |c.payload| <= |payloads(c.id)|
  {}

  lemma LastFrame(payloads: Payloads, c: Chunk)
    requires Genuine(payloads, c) && !c.more
    ensures c.offset + |c.payload| == |payloads(c.id)|
  {}

  // An accepted reply answers a sent frame; if that was the last frame, the
  // follower has the boundary.
  predicate Answers(chunks: set<Chunk>, confirmed: set<Identity>, r: Reply) {
    exists c :: c in chunks && c.id.term == r.term && c.correlation == r.correlation && (c.more || c.id in confirmed)
  }

  predicate SameFrame(c: Chunk, d: Chunk) {
    c.id.leader == d.id.leader && c.id.term == d.id.term && c.correlation == d.correlation
  }

  // One leader's correlation ids name frames uniquely within a term.
  predicate Unique(chunks: set<Chunk>, leader: Id) {
    forall c, d :: c in chunks && d in chunks && c.id.leader == leader && SameFrame(c, d) ==> c == d
  }

  // The follower has the boundary: it is committed, and where the follower still
  // knows its term, that is the offered one.
  predicate HasBoundary(d: Durable, id: Identity) {
    id.index <= d.commit && (id.index < d.snapshotIndex || DurableTermAt(d, id.index) == Some(id.snapshotTerm))
  }

  // What the follower's core may turn its disk into between two frames.
  predicate MayBecome(d: Durable, e: Durable) {
    d.term <= e.term && d.commit <= e.commit && d.snapshotIndex <= e.snapshotIndex <= e.commit <= LastIndex(e) &&
    forall k :: e.snapshotIndex <= k <= d.commit ==> DurableTermAt(e, k) == DurableTermAt(d, k)
  }

  // Every step and every recovery of a core does no more than that.
  lemma CoreMoves(d: Durable, e: Durable)
    requires Advances(d, e) && ValidDurable(e)
    ensures MayBecome(d, e)
  {}

  // The request for c's boundary as the follower's core sees it, under any number.
  function RequestFor(c: Chunk, requestId: nat, ready: bool): Message {
    SnapshotRequest(c.id.term, c.id.leader, c.id.index, c.id.snapshotTerm, requestId, ready)
  }

  // Frames whose boundary would lower the term of the commit index are ignored.
  predicate Lowers(d: Durable, c: Chunk) {
    c.id.index > d.commit && DurableTermAt(d, d.commit).Some? && c.id.snapshotTerm < DurableTermAt(d, d.commit).value
  }

  // The header of a frame makes the core adopt its term and nothing else.
  lemma CoreObserves(config: Config, node: Node, c: Chunk, requestId: nat)
    requires ValidNode(node) && node.pending.None? && !node.halted && c.id.leader in node.vol.peers
    requires WellFormed(c) && !Lowers(node.durable, c) && c.id.term >= node.durable.term
    ensures
      var (next, effects) := Step(config, node, Receive(RequestFor(c, requestId, false)));
      Newest(next) == AdoptTerm(node.durable, c.id.term) && effects.send == [] && Deferred(next) == [] &&
      (next.pending.Some? ==> next.pending.value.after == [])
  {
    hide ValidDurable, InstallTarget;
  }

  // Whatever number the request carries, the core confirms a committed boundary
  // with the same term, installs one beyond the commit index, and says so.
  lemma CoreAnswers(config: Config, node: Node, c: Chunk, requestId: nat)
    requires ValidNode(node) && node.pending.None? && !node.halted && c.id.leader in node.vol.peers
    requires WellFormed(c) && !Lowers(node.durable, c) && c.id.term == node.durable.term
    ensures
      var d := node.durable;
      var (next, effects) := Step(config, node, Receive(RequestFor(c, requestId, true)));
      var has := c.id.index > d.commit || DurableTermAt(d, c.id.index) == Some(c.id.snapshotTerm);
      var reply := Outbound(c.id.leader, SnapshotReply(d.term, config.self, has, if has then c.id.index else 0, requestId));
      if c.id.index > d.commit
      then
        next.pending.Some? && next.pending.value.target == InstallTarget(d, c.id.index, c.id.snapshotTerm) &&
        next.pending.value.after == [reply] && effects.send == []
      else next.durable == d && next.pending.None? && effects.send == [reply]
  {
    hide ValidTerms;
  }

  // The bytes the follower holds for c's transfer when c arrives, if any.
  function Held(incoming: Option<Incoming>, c: Chunk): Option<Blob> {
    if incoming.Some? && incoming.value.id == c.id then Some(incoming.value.bytes)
    else if c.offset == 0 then Some([])
    else None
  }

  // c continues or repeats what is held.
  predicate Continues(held: Option<Blob>, c: Chunk) {
    held.Some? && c.offset <= |held.value| &&
    (c.offset == |held.value| ||
     (|c.payload| <= |held.value| - c.offset && held.value[c.offset..c.offset + |c.payload|] == c.payload))
  }

  // A frame that completes its transfer.
  predicate Completes(held: Option<Blob>, c: Chunk) {
    !c.more && held.Some? && c.offset == |held.value|
  }

  // The reply to a frame of the follower's own term, if there is one.
  function Response(d: Durable, hash: string, incoming: Option<Incoming>, c: Chunk, verified: bool, works: bool):
    Option<Reply>
  {
    var refusal := Some(Reply(d.term, false, 0, c.correlation));
    if c.id.index <= d.commit then
      if DurableTermAt(d, c.id.index) == Some(c.id.snapshotTerm) && (d.snapshotIndex == c.id.index ==> hash == c.id.hash)
      then Some(Reply(d.term, true, c.offset + |c.payload|, c.correlation))
      else refusal
    else
      var held := Held(incoming, c);
      if !Continues(held, c) then refusal
      else if c.offset < |held.value| then Some(Reply(d.term, true, |held.value|, c.correlation))
      else if c.more then Some(Reply(d.term, true, c.offset + |c.payload|, c.correlation))
      else if !verified then refusal
      else if works then Some(Reply(d.term, true, c.offset + |c.payload|, c.correlation))
      else None
  }

  function Said(r: Option<Reply>): set<Reply> {
    if r.Some? then {r.value} else {}
  }

  // The follower holds b when the frame at o arrives: all before o, or at the
  // start no more than the first frame.
  predicate InOrder(whole: Blob, o: nat, limit: nat, b: Blob) {
    b <= whole && (b == [] || |b| < |whole|) && (|b| == o || (o == 0 && |b| <= Min(limit, |whole|)))
  }

  lemma HeldPrefix(payloads: Payloads, incoming: Option<Incoming>, c: Chunk)
    requires incoming.Some? ==> Assembling(payloads, incoming.value)
    ensures Held(incoming, c).Some? ==>
      Held(incoming, c).value <= payloads(c.id) &&
      (Held(incoming, c).value == [] || |Held(incoming, c).value| < |payloads(c.id)|)
    ensures c.offset == 0 ==> Held(incoming, c).Some?
  {}

  // A frame in order is taken, a first frame the follower has is recognised, and
  // one it has in part starts over.
  lemma Progress(d: Durable, hash: string, had: Option<Incoming>, f: Chunk, whole: Blob, o: nat, e: nat, limit: nat, b: Blob)
    requires f.id.index > d.commit && f.offset == o && limit > 0 && o <= |whole| && e == o + Min(limit, |whole| - o)
    requires f.payload == whole[o..e] && f.more == (e < |whole|) && Held(had, f) == Some(b) && InOrder(whole, o, limit, b)
    ensures
      var r := Response(d, hash, had, f, true, true);
      r.Some? &&
      if |b| == o || |b| == e then
        r.value.success && r.value.nextOffset == e && Continues(Some(b), f) && (f.more || |b| == o) &&
        (Completes(Some(b), f) <==> !f.more) && (if |b| == o then b + f.payload else b) == whole[..e]
      else !r.value.success && !Continues(Some(b), f) && !Completes(Some(b), f)
  {
    assert b == whole[..|b|];
    assert |b| == o ==> whole[..o] + whole[o..e] == whole[..e];
  }

  lemma FrameFits(out: Option<Outgoing>, id: Identity, o: nat, limit: nat, whole: Blob, number: nat)
    requires StandsAt(out, id, o, limit, whole, number) && limit > 0 && |whole| <= MAXIMUM_SNAPSHOT && |id.hash| == 16
    requires 0 < id.index < MAX_U64 && 0 < id.snapshotTerm <= id.term
    ensures WellFormed(out.value.frame)
  {}

  lemma AdoptKeeps(d: Durable, term: nat, k: nat)
    ensures DurableTermAt(AdoptTerm(d, term), k) == DurableTermAt(d, k)
    ensures AdoptTerm(d, term).commit == d.commit && AdoptTerm(d, term).snapshotIndex == d.snapshotIndex
  {}

  lemma NotLowered(d: Durable, term: nat, c: Chunk)
    requires !Lowers(AdoptTerm(d, term), c)
    ensures !Lowers(d, c) && AdoptTerm(d, term).commit == d.commit
  {}

  // The boundary is beyond the commit index and not older, or committed already as
  // the same snapshot.
  ghost predicate WelcomeTo(d: Durable, hash: string, id: Identity) {
    if id.index <= d.commit then
      DurableTermAt(d, id.index) == Some(id.snapshotTerm) && (d.snapshotIndex == id.index ==> hash == id.hash)
    else forall t :: DurableTermAt(d, d.commit) == Some(t) ==> t <= id.snapshotTerm
  }

  lemma WelcomeFits(d: Durable, hash: string, id: Identity, c: Chunk)
    requires WelcomeTo(d, hash, id) && c.id == id
    ensures !Lowers(d, c)
  {}

  lemma Confirmed(d: Durable, hash: string, had: Option<Incoming>, c: Chunk)
    requires WelcomeTo(d, hash, c.id) && c.id.index <= d.commit
    ensures Response(d, hash, had, c, true, true) == Some(Reply(d.term, true, c.offset + |c.payload|, c.correlation))
  {}

  // One frame more if the first one has to be sent again.
  ghost function Detour(id: Identity, d: Durable, o: nat, b: Blob): nat {
    if id.index > d.commit && |b| != o then 1 else 0
  }

  lemma Within(out: Option<Outgoing>, id: Identity, o: nat, limit: nat, whole: Blob, number: nat)
    requires StandsAt(out, id, o, limit, whole, number)
    ensures o <= |whole|
  {}

  // A first frame inside what is held changes nothing and is answered with the end
  // of what is held.
  lemma StillHeld(payloads: Payloads, d: Durable, hash: string, incoming: Option<Incoming>, f: Chunk)
    requires incoming.Some? && incoming.value.id == f.id && Assembling(payloads, incoming.value) && Genuine(payloads, f)
    requires f.id.index > d.commit && f.offset == 0 && |incoming.value.bytes| > |f.payload|
    ensures
      var b := incoming.value.bytes;
      Response(d, hash, incoming, f, true, true) == Some(Reply(d.term, true, |b|, f.correlation)) &&
      f.more && Held(incoming, f) == Some(b) && Continues(Some(b), f) && !Completes(Some(b), f)
  {
    var whole := payloads(f.id);
    assert incoming.value.bytes == whole[..|incoming.value.bytes|];
  }

  // The leader's transfer of id stands at this offset, under this number.
  predicate StandsAt(o: Option<Outgoing>, id: Identity, offset: nat, limit: nat, whole: Blob, number: nat) {
    o.Some? && o.value.id == id && o.value.frame.id == id && o.value.frame.offset == offset &&
    o.value.frame.correlation == number && offset <= |whole| && o.value.end == offset + Min(limit, |whole| - offset) &&
    o.value.frame.payload == whole[offset..o.value.end] && (o.value.final <==> o.value.end == |whole|) &&
    o.value.frame.more == !o.value.final
  }

  class Link {
    const payloads: Payloads
    const leader: Id
    const chunkLimit: nat
    // Leader side.
    var term: nat
    var leading: bool
    var outgoing: Option<Outgoing>
    var nextCorrelation: nat
    var accepted: set<Identity>
    // Follower side.
    var durable: Durable
    var snapshotHash: string
    var incoming: Option<Incoming>
    // Boundaries the follower installed or found committed with the same term.
    var confirmed: set<Identity>
    // Everything ever sent.
    var chunks: set<Chunk>
    var replies: set<Reply>

    ghost predicate LeaderOK()
      reads `term, `leading, `outgoing, `nextCorrelation, `chunks
    {
      chunkLimit > 0 && Unique(chunks, leader) &&
      (forall c :: c in chunks ==> Genuine(payloads, c)) &&
      (forall c :: c in chunks && c.id.leader == leader ==>
        c.id.term <= term && (c.id.term == term ==> c.correlation < nextCorrelation)) &&
      (outgoing.Some? ==>
        leading && outgoing.value.frame in chunks && outgoing.value.frame.id == outgoing.value.id &&
        outgoing.value.id.leader == leader && outgoing.value.id.term == term &&
        outgoing.value.end == outgoing.value.frame.offset + |outgoing.value.frame.payload| &&
        outgoing.value.final == !outgoing.value.frame.more)
    }

    ghost predicate FollowerOK()
      reads `durable, `incoming, `confirmed
    {
      durable.snapshotIndex <= durable.commit <= LastIndex(durable) &&
      (incoming.Some? ==> Assembling(payloads, incoming.value)) &&
      (forall id :: id in confirmed ==> HasBoundary(durable, id))
    }

    ghost predicate Valid()
      reads this
    {
      LeaderOK() && FollowerOK() &&
      // Frames of this term come from this leader, so its replies answer it.
      (forall c :: c in chunks && c.id.term == term && leading ==> c.id.leader == leader) &&
      (forall r :: r in replies && r.success ==> Answers(chunks, confirmed, r)) &&
      accepted <= confirmed
    }

    constructor (payloads: Payloads, leader: Id, chunkLimit: nat, durable: Durable)
      requires chunkLimit > 0 && durable.snapshotIndex <= durable.commit <= LastIndex(durable)
      ensures Valid() && this.payloads == payloads && this.leader == leader && this.chunkLimit == chunkLimit
      ensures this.durable == durable && confirmed == {} && chunks == {} && replies == {} && accepted == {}
      ensures term == 0 && !leading && outgoing == None && nextCorrelation == 1 && incoming == None && snapshotHash == ""
    {
      this.payloads, this.leader, this.chunkLimit, this.durable := payloads, leader, chunkLimit, durable;
      term, leading, outgoing, nextCorrelation, accepted := 0, false, None, 1, {};
      snapshotHash, incoming, confirmed, chunks, replies := "", None, {}, {}, {};
    }

    lemma Sent(c: Chunk)
      requires LeaderOK() && c in chunks
      ensures Genuine(payloads, c)
    {}

    // ---------------------------------------------------------------- leader

    // Elected in a later term, in which nobody else sends; perhaps after a restart.
    method Lead(t: nat, restarted: bool)
      requires Valid()
      modifies this`term, this`leading, this`outgoing, this`nextCorrelation
      ensures Valid()
      ensures t > old(term) && (forall c :: c in chunks ==> c.id.term != t) ==>
        leading && term == t && outgoing == None && nextCorrelation == if restarted then 1 else old(nextCorrelation)
    {
      if t > term && forall c :: c in chunks ==> c.id.term != t {
        term, leading, outgoing := t, true, None;
        if restarted {
          nextCorrelation := 1;
        }
      }
    }

    method Depose(t: nat)
      requires Valid()
      modifies this`term, this`leading, this`outgoing
      ensures Valid() && (t >= old(term) ==> term == t && !leading && outgoing == None)
    {
      if t >= term {
        term, leading, outgoing := t, false, None;
      }
    }

    // The next frame, numbered afresh.
    method SendChunk(id: Identity, offset: nat)
      requires Valid() && leading && id.leader == leader && id.term == term
      modifies this`outgoing, this`nextCorrelation, this`chunks
      ensures Valid() && old(chunks) <= chunks
      ensures offset <= |payloads(id)| && old(nextCorrelation) < MAX_U64 ==>
        StandsAt(outgoing, id, offset, chunkLimit, payloads(id), old(nextCorrelation)) &&
        chunks == old(chunks) + {outgoing.value.frame} && nextCorrelation == old(nextCorrelation) + 1 &&
        forall c :: c in old(chunks) ==> !SameFrame(c, outgoing.value.frame)
      ensures offset > |payloads(id)| || old(nextCorrelation) >= MAX_U64 ==>
        outgoing == old(outgoing) && chunks == old(chunks) && nextCorrelation == old(nextCorrelation)
    {
      hide Assembling;
      var whole := payloads(id);
      if offset > |whole| || nextCorrelation >= MAX_U64 {
        return;
      }
      var length := Min(chunkLimit, |whole| - offset);
      var end := offset + length;
      var frame := Chunk(id, whole[offset..end], offset, end != |whole|, nextCorrelation);
      MoreAnswers(chunks, frame, confirmed, replies);
      outgoing := Some(Outgoing(id, frame, end, end == |whole|));
      chunks := chunks + {frame};
      nextCorrelation := nextCorrelation + 1;
    }

    method Start(index: nat, snapshotTerm: nat, hash: string)
      requires Valid()
      modifies this`outgoing, this`nextCorrelation, this`chunks
      ensures Valid() && old(chunks) <= chunks
      ensures leading && old(nextCorrelation) < MAX_U64 ==>
        var id := Identity(leader, term, index, snapshotTerm, hash);
        StandsAt(outgoing, id, 0, chunkLimit, payloads(id), old(nextCorrelation)) &&
        nextCorrelation == old(nextCorrelation) + 1
    {
      if leading {
        SendChunk(Identity(leader, term, index, snapshotTerm, hash), 0);
      }
    }

    // A reply counts only for the frame it answers; the last one ends the transfer.
    method OnReply(r: Reply)
      requires Valid() && r in replies
      modifies this`term, this`leading, this`outgoing, this`nextCorrelation, this`chunks, this`accepted
      ensures Valid() && old(accepted) <= accepted && old(chunks) <= chunks && replies == old(replies)
      ensures forall id :: id in accepted && id !in old(accepted) ==>
        r.success && old(outgoing).Some? && id == old(outgoing).value.id && id in confirmed
      ensures accepted != old(accepted) ==>
        r.term == old(term) && r.correlation == old(outgoing).value.frame.correlation &&
        r.nextOffset == old(outgoing).value.end == |payloads(old(outgoing).value.id)| && outgoing.None?
      ensures r.success && r.term == old(term) && old(outgoing).Some? && old(outgoing).value.final &&
              r.correlation == old(outgoing).value.frame.correlation && r.nextOffset == old(outgoing).value.end ==>
        accepted == old(accepted) + {old(outgoing).value.id}
      ensures r.term <= old(term) ==> term == old(term) && leading == old(leading)
      ensures r.term == old(term) && old(outgoing).Some? && r.correlation == old(outgoing).value.frame.correlation &&
              old(nextCorrelation) < MAX_U64 ==>
        var o := old(outgoing).value;
        if !r.success then
          StandsAt(outgoing, o.id, 0, chunkLimit, payloads(o.id), old(nextCorrelation)) &&
          nextCorrelation == old(nextCorrelation) + 1
        else if r.nextOffset != o.end then outgoing == old(outgoing) && nextCorrelation == old(nextCorrelation)
        else if o.final then outgoing == None
        else
          StandsAt(outgoing, o.id, o.end, chunkLimit, payloads(o.id), old(nextCorrelation)) &&
          nextCorrelation == old(nextCorrelation) + 1
    {
      hide Assembling, Genuine;
      if r.term > term {
        Depose(r.term);
        return;
      }
      if !leading || r.term != term || outgoing.None? || outgoing.value.frame.correlation != r.correlation {
        return;
      }
      var transfer := outgoing.value;
      if !r.success {
        SendChunk(transfer.id, 0);
      } else if r.nextOffset == transfer.end {
        if !transfer.final {
          Sent(transfer.frame);
          FrameInside(payloads, transfer.frame);
          SendChunk(transfer.id, transfer.end);
        } else {
          var c :| c in chunks && c.id.term == r.term && c.correlation == r.correlation &&
                   (c.more || c.id in confirmed);
          assert c == transfer.frame;
          LastFrame(payloads, c);
          outgoing := None;
          accepted := accepted + {transfer.id};
        }
      }
    }

    // ---------------------------------------------------------------- follower

    method ReplyChunk(c: Chunk, success: bool, nextOffset: nat)
      requires Valid() && c in chunks && (success ==> c.more || c.id in confirmed) && c.id.term == durable.term
      modifies this`replies
      ensures Valid() && replies == old(replies) + {Reply(durable.term, success, nextOffset, c.correlation)}
    {
      var r := Reply(durable.term, success, nextOffset, c.correlation);
      if success {
        assert Answers(chunks, confirmed, r);
      }
      replies := replies + {r};
    }

    // The core's answer for a boundary at or below the commit index.
    method Confirm(c: Chunk)
      requires Valid() && c in chunks && c.id.term == durable.term && c.id.index <= durable.commit
      modifies this`replies, this`confirmed
      ensures Valid() && replies == old(replies) + Said(Response(durable, snapshotHash, incoming, c, true, true))
      ensures confirmed == old(confirmed) ||
        (confirmed == old(confirmed) + {c.id} && DurableTermAt(durable, c.id.index) == Some(c.id.snapshotTerm))
      ensures !(durable.snapshotIndex == c.id.index && snapshotHash != c.id.hash) ==>
                (DurableTermAt(durable, c.id.index) == Some(c.id.snapshotTerm) ==> c.id in confirmed)
    {
      hide Assembling, Genuine, Unique;
      if durable.snapshotIndex == c.id.index && snapshotHash != c.id.hash {
        ReplyChunk(c, false, 0);
        return;
      }
      if DurableTermAt(durable, c.id.index) == Some(c.id.snapshotTerm) {
        MoreConfirmed(chunks, confirmed, c.id, replies);
        confirmed := confirmed + {c.id};
        ReplyChunk(c, true, c.offset + |c.payload|);
      } else {
        ReplyChunk(c, false, 0);
      }
    }

    // The assembled payload is complete: verify and install it.
    method Complete(c: Chunk, bytes: Blob, verified: bool, works: bool)
      requires Valid() && c in chunks && c.id.term == durable.term && incoming.None?
      requires durable.commit < c.id.index && bytes == payloads(c.id)
      modifies this`durable, this`snapshotHash, this`replies, this`confirmed
      ensures Valid()
      ensures replies == old(replies) +
        (if verified && !works then {}
         else {Reply(durable.term, verified, if verified then |bytes| else 0, c.correlation)})
      ensures confirmed == old(confirmed) ||
        (confirmed == old(confirmed) + {c.id} && durable == InstallTarget(old(durable), c.id.index, c.id.snapshotTerm))
      ensures if verified && works then confirmed == old(confirmed) + {c.id} && snapshotHash == c.id.hash &&
                durable == InstallTarget(old(durable), c.id.index, c.id.snapshotTerm)
              else confirmed == old(confirmed) && durable == old(durable) && snapshotHash == old(snapshotHash)
    {
      hide Assembling, Genuine, Unique;
      if !verified {
        ReplyChunk(c, false, 0);
        return;
      }
      if !works {
        return;
      }
      durable := InstallTarget(durable, c.id.index, c.id.snapshotTerm);
      snapshotHash := c.id.hash;
      MoreConfirmed(chunks, confirmed, c.id, replies);
      confirmed := confirmed + {c.id};
      ReplyChunk(c, true, |bytes|);
    }

    // Put the chunk where it belongs; anything that does not fit starts over.
    method Assemble(c: Chunk, verified: bool, works: bool)
      requires Valid() && c in chunks && c.id.term == durable.term && durable.commit < c.id.index
      modifies this`durable, this`snapshotHash, this`incoming, this`replies, this`confirmed
      ensures Valid()
      ensures replies == old(replies) + Said(Response(old(durable), old(snapshotHash), old(incoming), c, verified, works))
      ensures confirmed == old(confirmed) ||
        (confirmed == old(confirmed) + {c.id} && durable == InstallTarget(old(durable), c.id.index, c.id.snapshotTerm))
      ensures incoming.Some? <==> c.more && Continues(Held(old(incoming), c), c)
      ensures incoming.Some? ==>
        var held := Held(old(incoming), c).value;
        incoming.value.id == c.id && incoming.value.bytes == if c.offset == |held| then held + c.payload else held
      ensures durable != old(durable) || confirmed != old(confirmed) ==>
        verified && works && Completes(Held(old(incoming), c), c)
      ensures verified && works && Completes(Held(old(incoming), c), c) ==>
        c.id in confirmed && Held(old(incoming), c).value + c.payload == payloads(c.id) &&
        durable == InstallTarget(old(durable), c.id.index, c.id.snapshotTerm)
      ensures !(verified && works && Completes(Held(old(incoming), c), c)) ==> snapshotHash == old(snapshotHash)
    {
      hide Genuine, Unique, LeaderOK, HasBoundary, Answers, InstallTarget, Assembling;
      Sent(c);
      StartsEmpty(payloads, c);
      var same := incoming.Some? && incoming.value.id == c.id;
      if c.offset == 0 && !same {
        incoming := Some(Incoming(c.id, []));
      }
      if incoming.None? || (!same && c.offset != 0) || c.offset > |incoming.value.bytes| {
        incoming := None;
        ReplyChunk(c, false, 0);
        return;
      }
      var bytes := incoming.value.bytes;
      if c.offset < |bytes| {
        if |c.payload| <= |bytes| - c.offset && bytes[c.offset..c.offset + |c.payload|] == c.payload {
          InsideIsNotLast(payloads, incoming.value, c);
          ReplyChunk(c, true, |bytes|);
        } else {
          incoming := None;
          ReplyChunk(c, false, 0);
        }
        return;
      }
      Extends(payloads, incoming.value, c);
      bytes := bytes + c.payload;
      if c.more {
        incoming := Some(Incoming(c.id, bytes));
        ReplyChunk(c, true, |bytes|);
        return;
      }
      incoming := None;
      InstallHas(durable, c.id.index, c.id.snapshotTerm);
      Complete(c, bytes, verified, works);
      assert old(replies) + {} == old(replies);
    }

    // One frame at the follower.
    method OnChunk(c: Chunk, verified: bool, works: bool)
      requires Valid() && c in chunks
      modifies this`durable, this`snapshotHash, this`incoming, this`replies, this`confirmed
      ensures Valid()
      ensures forall id :: id in confirmed && id !in old(confirmed) ==>
        id == c.id && id.index <= durable.commit && DurableTermAt(durable, id.index) == Some(id.snapshotTerm)
      // Frames that say nothing or come too late change nothing.
      ensures !WellFormed(c) || Lowers(old(durable), c) || c.id.term < old(durable).term ==>
        durable == old(durable) && incoming == old(incoming) && confirmed == old(confirmed)
      ensures !WellFormed(c) || Lowers(old(durable), c) ==> replies == old(replies)
      ensures WellFormed(c) && !Lowers(old(durable), c) && c.id.term < old(durable).term ==>
        replies == old(replies) + {Reply(old(durable).term, false, 0, c.correlation)}
      // Others are answered, assembled and in the end installed.
      ensures WellFormed(c) && !Lowers(old(durable), c) && c.id.term >= old(durable).term ==>
        var d := AdoptTerm(old(durable), c.id.term);
        var had := if c.id.term > old(durable).term then None else old(incoming);
        replies == old(replies) + Said(Response(d, old(snapshotHash), had, c, verified, works)) &&
        if c.id.index <= d.commit then durable == d && incoming == had && snapshotHash == old(snapshotHash)
        else
          ((verified && works && Completes(Held(had, c), c)) || snapshotHash == old(snapshotHash)) &&
          (incoming.Some? <==> c.more && Continues(Held(had, c), c)) &&
          (incoming.Some? ==>
            var held := Held(had, c).value;
            incoming.value == Incoming(c.id, if c.offset == |held| then held + c.payload else held)) &&
          durable == if verified && works && Completes(Held(had, c), c)
                     then InstallTarget(d, c.id.index, c.id.snapshotTerm) else d
    {
      hide Assembling, Genuine, Unique, InstallTarget, Held, Continues, LeaderOK, Answers;
      if !WellFormed(c) {
        return;
      }
      if Lowers(durable, c) {
        return;
      }
      if c.id.term < durable.term {
        replies := replies + {Reply(durable.term, false, 0, c.correlation)};
        return;
      }
      if c.id.term > durable.term {
        durable := AdoptTerm(durable, c.id.term);
        incoming := None;
      }
      if c.id.index <= durable.commit {
        Confirm(c);
      } else {
        InstallHas(durable, c.id.index, c.id.snapshotTerm);
        Assemble(c, verified, works);
      }
    }

    // Anything else the follower's core does, restarts included.
    method Move(d: Durable, hash: string, restarted: bool)
      requires Valid()
      modifies this`durable, this`snapshotHash, this`incoming
      ensures Valid() && (MayBecome(old(durable), d) ==> durable == d && snapshotHash == hash)
      ensures restarted && MayBecome(old(durable), d) ==> incoming == None
    {
      if MayBecome(durable, d) {
        if restarted || d.term != durable.term {
          incoming := None;
        }
        durable, snapshotHash := d, hash;
      }
    }

    // A frame some other leader sent in its own term.
    method Foreign(c: Chunk)
      requires Valid()
      modifies this`chunks
      ensures Valid()
    {
      hide Assembling;
      if c.id.leader != leader && Genuine(payloads, c) && !(leading && c.id.term == term) {
        MoreAnswers(chunks, c, confirmed, replies);
        chunks := chunks + {c};
      }
    }

    // ---------------------------------------------------------------- undisturbed transfers

    // What the follower holds of the transfer when the current frame arrives.
    ghost function HeldNow(): Option<Blob>
      reads this
      requires outgoing.Some?
    {
      Held(if durable.term < term then None else incoming, outgoing.value.frame)
    }

    // One frame delivered and its reply returned.
    method Exchange()
      requires Valid() && leading && outgoing.Some? && durable.term <= term && nextCorrelation < MAX_U64
      requires WellFormed(outgoing.value.frame) && !Lowers(durable, outgoing.value.frame)
      modifies this
      ensures Valid() && leading && term == old(term) && old(accepted) <= accepted
      ensures
        var o := old(outgoing).value;
        var d := AdoptTerm(old(durable), term);
        var had := if old(durable).term < term then None else old(incoming);
        var r := Response(d, old(snapshotHash), had, o.frame, true, true);
        r.Some? &&
        (if r.value.success && r.value.nextOffset == o.end && o.final then outgoing == None && o.id in accepted
         else if r.value.success && r.value.nextOffset != o.end then
           outgoing == old(outgoing) && nextCorrelation == old(nextCorrelation)
         else
           StandsAt(outgoing, o.id, if r.value.success then o.end else 0, chunkLimit, payloads(o.id),
                    old(nextCorrelation)) && nextCorrelation == old(nextCorrelation) + 1) &&
        if o.id.index <= d.commit then durable == d && incoming == had && snapshotHash == old(snapshotHash)
        else
          (incoming.Some? <==> o.frame.more && Continues(Held(had, o.frame), o.frame)) &&
          (incoming.Some? ==>
            var held := Held(had, o.frame).value;
            incoming.value == Incoming(o.id, if o.frame.offset == |held| then held + o.frame.payload else held)) &&
          (Completes(Held(had, o.frame), o.frame) || snapshotHash == old(snapshotHash)) &&
          durable == if Completes(Held(had, o.frame), o.frame) then InstallTarget(d, o.id.index, o.id.snapshotTerm) else d
    {
      hide Genuine, Unique, Assembling, Answers, InstallTarget, Held, Continues;
      var o := outgoing.value;
      var had := if durable.term < term then None else incoming;
      var r := Response(AdoptTerm(durable, term), snapshotHash, had, o.frame, true, true);
      OnChunk(o.frame, true, true);
      OnReply(r.value);
    }

    ghost predicate Sendable(id: Identity)
      reads `term
    {
      id.leader == leader && id.term == term && |id.hash| == 16 && 0 < id.index < MAX_U64 &&
      0 < id.snapshotTerm <= id.term && |payloads(id)| <= MAXIMUM_SNAPSHOT
    }

    // An undisturbed transfer of id over the follower's image d stands at o, with b
    // assembled.
    ghost predicate Underway(id: Identity, d: Durable, hash: string, o: nat, b: Blob)
      reads this
    {
      Valid() && leading && Sendable(id) && durable.term <= term && nextCorrelation > 0 &&
      StandsAt(outgoing, id, o, chunkLimit, payloads(id), nextCorrelation - 1) &&
      AdoptTerm(durable, term) == d && snapshotHash == hash && WelcomeTo(d, hash, id) &&
      nextCorrelation + (|payloads(id)| - o) + Detour(id, d, o, b) + 1 < MAX_U64 &&
      (id.index > d.commit ==> HeldNow() == Some(b) && InOrder(payloads(id), o, chunkLimit, b))
    }

    method Turn(id: Identity, ghost d: Durable, ghost hash: string, ghost o: nat, ghost b: Blob)
      returns (ghost o': nat, ghost b': Blob)
      requires Underway(id, d, hash, o, b)
      modifies this
      ensures Valid() && leading
      ensures outgoing.None? ==>
        id in accepted && durable == if id.index <= d.commit then d else InstallTarget(d, id.index, id.snapshotTerm)
      ensures outgoing.Some? ==>
        Underway(id, d, hash, o', b') &&
        (o' > o || (o' == o && Detour(id, d, o', b') < Detour(id, d, o, b)))
    {
      hide Genuine, Unique, Assembling, Answers, InstallTarget, DurableTermAt, Continues, Response, LeaderOK, FollowerOK,
        Completes;
      var whole := payloads(id);
      Positive();
      FrameFits(outgoing, id, o, chunkLimit, whole, nextCorrelation - 1);
      WelcomeFits(d, hash, id, outgoing.value.frame);
      NotLowered(durable, term, outgoing.value.frame);
      ghost var f, e := outgoing.value.frame, outgoing.value.end;
      ghost var had := if durable.term < term then None else incoming;
      if id.index > d.commit {
        Progress(d, hash, had, f, whole, o, e, chunkLimit, b);
      } else {
        Confirmed(d, hash, had, f);
      }
      Exchange();
      if id.index > d.commit && |b| != o && |b| != e {
        o', b' := 0, [];
      } else {
        o', b' := e, whole[..e];
      }
    }

    lemma Positive()
      requires LeaderOK()
      ensures chunkLimit > 0
    {}

    // An undisturbed transfer ends with the boundary accepted by the leader and
    // on the follower's disk, provided the follower does not hold more of the same
    // transfer than its first frame.
    method Deliver(id: Identity)
      requires Valid() && leading && durable.term <= term && Sendable(id) && WelcomeTo(durable, snapshotHash, id)
      requires id.index > durable.commit && durable.term == term && incoming.Some? && incoming.value.id == id ==>
        |incoming.value.bytes| <= Min(chunkLimit, |payloads(id)|)
      requires nextCorrelation + |payloads(id)| + 3 < MAX_U64
      modifies this
      ensures Valid() && id in accepted
      ensures
        var d := AdoptTerm(old(durable), id.term);
        durable == if id.index <= d.commit then d else InstallTarget(d, id.index, id.snapshotTerm)
    {
      hide Genuine, Unique, Answers, InstallTarget, LeaderOK;
      ghost var d, hash := AdoptTerm(durable, id.term), snapshotHash;
      SendChunk(id, 0);
      HeldPrefix(payloads, if durable.term < term then None else incoming, outgoing.value.frame);
      ghost var o: nat, b := 0, if id.index > d.commit then HeldNow().value else [];
      while outgoing.Some?
        invariant Valid() && leading
        invariant outgoing.None? ==>
          id in accepted && durable == if id.index <= d.commit then d else InstallTarget(d, id.index, id.snapshotTerm)
        invariant outgoing.Some? ==> o <= |payloads(id)| && Underway(id, d, hash, o, b)
        decreases outgoing.Some?, |payloads(id)| - o, Detour(id, d, o, b)
      {
        o, b := Turn(id, d, hash, o, b);
        if outgoing.Some? {
          Within(outgoing, id, o, chunkLimit, payloads(id), nextCorrelation - 1);
        }
      }
    }

    // Otherwise nothing moves: the follower acknowledges a later offset than the
    // frame's end, which the leader ignores.
    method Stall()
      requires Valid() && leading && outgoing.Some? && durable.term == term && nextCorrelation < MAX_U64
      requires WellFormed(outgoing.value.frame) && !Lowers(durable, outgoing.value.frame)
      requires outgoing.value.id.index > durable.commit && outgoing.value.frame.offset == 0
      requires incoming.Some? && incoming.value.id == outgoing.value.id && |incoming.value.bytes| > outgoing.value.end
      modifies this
      ensures Valid() && leading && term == old(term) && outgoing == old(outgoing) && nextCorrelation == old(nextCorrelation)
      ensures durable == old(durable) && incoming == old(incoming)
    {
      hide Unique, Answers, InstallTarget, Response;
      StillHeld(payloads, durable, snapshotHash, incoming, outgoing.value.frame);
      Exchange();
    }

    // ---------------------------------------------------------------- runs

    method Do(a: Action)
      requires Valid()
      modifies this
      ensures Valid()
    {
      match a
      case LeadAct(t, restarted) => Lead(t, restarted);
      case DeposeAct(t) => Depose(t);
      case StartAct(index, snapshotTerm, hash) => Start(index, snapshotTerm, hash);
      case ReplyAct(r) =>
        if r in replies {
          OnReply(r);
        }
      case ChunkAct(c, verified, works) =>
        if c in chunks {
          OnChunk(c, verified, works);
        }
      case MoveAct(d, hash, restarted) => Move(d, hash, restarted);
      case ForeignAct(c) => Foreign(c);
    }

    // Over every run: what is assembled is a prefix of the pinned payload, and
    // the leader has accepted only boundaries the follower installed or held
    // committed with the same term, and has still.
    method Run(actions: seq<Action>)
      requires Valid()
      modifies this
      ensures Valid() && accepted <= confirmed && forall id :: id in accepted ==> HasBoundary(durable, id)
      ensures incoming.Some? ==> incoming.value.bytes <= payloads(incoming.value.id)
    {
      var k := 0;
      while k < |actions|
        invariant 0 <= k <= |actions| && Valid()
      {
        Do(actions[k]);
        k := k + 1;
      }
    }
  }

  // A small transfer: three bytes, one per frame.
  const SMALL := Identity("a", 1, 5, 1, "0123456789abcdef")
  const EMPTY_DISK := Durable(1, None, [], 0, 0, 0, 0)

  function SmallFrame(offset: nat, number: nat): Chunk
    requires offset < 3
  {
    Chunk(SMALL, [offset + 1], offset, offset < 2, number)
  }

  // The follower holds n bytes, the leader's frame at this offset is out.
  ghost predicate SmallState(link: Link, n: nat, offset: nat, number: nat)
    reads link
  {
    link.Valid() && link.leading && link.term == 1 && link.durable == EMPTY_DISK && link.nextCorrelation == number + 1 &&
    link.payloads(SMALL) == [1, 2, 3] && link.chunkLimit == 1 && offset < 3 && link.outgoing.Some? &&
    link.outgoing.value.id == SMALL && link.outgoing.value.frame == SmallFrame(offset, number) &&
    link.outgoing.value.end == offset + 1 && link.outgoing.value.final == (offset == 2) && n < 3 &&
    link.incoming == if n == 0 then None else Some(Incoming(SMALL, [1, 2, 3][..n]))
  }

  // A small frame arrives in order, or out of order at an empty follower.
  method SmallArrives(link: Link, c: Chunk, ghost n: nat, ghost offset: nat, ghost number: nat)
    requires SmallState(link, n, offset, number) && c in link.chunks
    requires c.offset < 2 && c == SmallFrame(c.offset, c.correlation) && (c.offset == n || n == 0)
    modifies link
    ensures SmallState(link, if c.offset == n then n + 1 else 0, offset, number) && link.chunks == old(link.chunks)
    ensures link.replies == old(link.replies) + {Reply(1, c.offset == n, if c.offset == n then n + 1 else 0, c.correlation)}
  {
    hide Genuine, Unique, Assembling, Answers, InstallTarget;
    link.OnChunk(c, true, true);
    assert [1, 2, 3][..c.offset] + [c.offset + 1] == [1, 2, 3][..c.offset + 1];
  }

  // The reply to the frame that is out moves the leader on, or back to the start.
  method SmallReplies(link: Link, success: bool, ghost n: nat, ghost offset: nat, ghost number: nat)
    requires SmallState(link, n, offset, number) && offset < 2 && number + 1 < MAX_U64
    requires Reply(1, success, if success then offset + 1 else 0, number) in link.replies
    modifies link
    ensures SmallState(link, n, if success then offset + 1 else 0, number + 1)
    ensures link.replies == old(link.replies)
    ensures old(link.chunks) <= link.chunks && link.outgoing.value.frame in link.chunks
  {
    hide Genuine, Unique, Assembling, Answers, InstallTarget;
    var o := link.outgoing.value;
    link.OnReply(Reply(1, success, if success then o.end else 0, o.frame.correlation));
    var whole: Blob := [1, 2, 3];
    assert whole[0..1] == [1] && whole[1..2] == [2] && whole[2..3] == [3];
  }

  method SmallStart() returns (link: Link)
    ensures fresh(link) && SmallState(link, 0, 0, 1) && SmallFrame(0, 1) in link.chunks
  {
    hide Genuine, Unique, Assembling, Answers, InstallTarget;
    link := new Link((_: Identity) => [1, 2, 3], "a", 1, EMPTY_DISK);
    link.Lead(1, false);
    link.Start(SMALL.index, SMALL.snapshotTerm, SMALL.hash);
  }

  // A transfer that stalls: the follower restarts between the first two frames and
  // refuses the second, then late copies of both reach it before the leader hears
  // of the refusal and starts over.
  method StallReached() returns (link: Link)
    ensures fresh(link) && SmallState(link, 2, 0, 3)
    ensures WellFormed(link.outgoing.value.frame) && !Lowers(link.durable, link.outgoing.value.frame)
    ensures |link.incoming.value.bytes| > link.outgoing.value.end
  {
    hide Genuine, Unique, Assembling, Answers, Response, InstallTarget, HasBoundary, StandsAt, Held, Continues;
    link := SmallStart();
    var first, second := SmallFrame(0, 1), SmallFrame(1, 2);
    SmallArrives(link, first, 0, 0, 1);
    SmallReplies(link, true, 1, 0, 1);
    link.Move(EMPTY_DISK, "", true);
    SmallArrives(link, second, 0, 1, 2);
    SmallArrives(link, first, 0, 1, 2);
    SmallArrives(link, second, 1, 1, 2);
    SmallReplies(link, false, 2, 1, 2);
  }

  datatype Action =
    | LeadAct(term: nat, restarted: bool)
    | DeposeAct(term: nat)
    | StartAct(index: nat, snapshotTerm: nat, hash: string)
    | ReplyAct(reply: Reply)
    | ChunkAct(chunk: Chunk, verified: bool, works: bool)
    | MoveAct(durable: Durable, hash: string, restarted: bool)
    | ForeignAct(chunk: Chunk)

  lemma MoreAnswers(chunks: set<Chunk>, c: Chunk, confirmed: set<Identity>, replies: set<Reply>)
    requires forall r :: r in replies && r.success ==> Answers(chunks, confirmed, r)
    ensures forall r :: r in replies && r.success ==> Answers(chunks + {c}, confirmed, r)
  {
    forall r | r in replies && r.success
      ensures Answers(chunks + {c}, confirmed, r)
    {
      var d :| d in chunks && d.id.term == r.term && d.correlation == r.correlation && (d.more || d.id in confirmed);
      assert d in chunks + {c};
    }
  }

  lemma MoreConfirmed(chunks: set<Chunk>, confirmed: set<Identity>, id: Identity, replies: set<Reply>)
    requires forall r :: r in replies && r.success ==> Answers(chunks, confirmed, r)
    ensures forall r :: r in replies && r.success ==> Answers(chunks, confirmed + {id}, r)
  {
    forall r | r in replies && r.success
      ensures Answers(chunks, confirmed + {id}, r)
    {
      var d :| d in chunks && d.id.term == r.term && d.correlation == r.correlation && (d.more || d.id in confirmed);
      assert d.more || d.id in confirmed + {id};
    }
  }
}
