// Committing a batch: staged beside the history, then merged into it.
module ChoreographyBatch {
  import opened Logs
  import opened Choreography

  // The domain without any history.
  function DomainCopy(s: State): State {
    State(s.domain, s.lastApplied, s.term, map[], map[], map[])
  }

  function StageAll(h: Fingerprint, base: State, staged: State, batch: seq<Event>): Result<State>
    decreases |batch|
  {
    if batch == [] then Ok(staged)
    else match ApplyAgainst(h, staged, batch[0], Some(base))
    case Err(error) => Err(error)
    case Ok(next) => StageAll(h, base, next, batch[1..])
  }

  function Prepare(h: Fingerprint, s: State, batch: seq<Event>): Result<State> {
    StageAll(h, s, DomainCopy(s), batch)
  }

  // Existing history wins over staged records of the same key.
  function Publish(s: State, staged: State): State {
    State(staged.domain, staged.lastApplied, staged.term, staged.events + s.events, staged.commands + s.commands,
          staged.receipts + s.receipts)
  }

  // The outcome of a commit: a failed one publishes nothing.
  function Merged(s: State, staged: Result<State>): Result<State> {
    if staged.Ok? then Ok(Publish(s, staged.value)) else staged
  }

  // Events whose id is their command's id.
  predicate SelfNamed(batch: seq<Event>) {
    forall k :: 0 <= k < |batch| ==> batch[k].id == batch[k].commandId
  }

  // Staged records are about staged events, none of which the history knows.
  predicate Separate(base: State, staged: State) {
    (forall i :: i in staged.receipts ==> i in staged.events) &&
    (forall i :: i in staged.commands ==> i in staged.events) &&
    (forall i :: i in staged.events ==> i !in base.events && i !in base.receipts && i !in base.commands)
  }

  // Looking in both places finds what looking in the merged history finds.
  lemma SeenTogether(h: Fingerprint, base: State, staged: State, e: Event)
    requires Separate(base, staged) && e.id == e.commandId
    ensures Existing(h, Publish(base, staged), e) ==
            if Existing(h, staged, e) != New then Existing(h, staged, e) else Existing(h, base, e)
  {
    hide FingerprintOf;
  }

  lemma UpdateMerged<V>(m: map<Id, V>, b: map<Id, V>, k: Id, v: V)
    requires k !in b
    ensures m[k := v] + b == (m + b)[k := v]
  {}

  lemma NewKeys(h: Fingerprint, s: State, e: Event)
    requires Existing(h, s, e) == New
    ensures e.id !in s.events && e.commandId !in s.receipts && e.commandId !in s.commands
  {}

  lemma RecordSeparate(h: Fingerprint, base: State, staged: State, d: Domain, e: Event)
    requires Separate(base, staged) && e.id == e.commandId
    requires e.id !in base.events && e.id !in base.receipts && e.id !in base.commands
    ensures Separate(base, Recorded(h, staged, d, e))
  {
    hide FingerprintOf;
  }

  lemma RecordTogether(h: Fingerprint, base: State, staged: State, d: Domain, e: Event)
    requires Separate(base, staged) && e.id == e.commandId
    requires Existing(h, staged, e) == New && Existing(h, base, e) == New
    ensures Separate(base, Recorded(h, staged, d, e))
    ensures Publish(base, Recorded(h, staged, d, e)) == Recorded(h, Publish(base, staged), d, e)
  {
    hide FingerprintOf, Existing, Separate;
    NewKeys(h, staged, e);
    NewKeys(h, base, e);
    RecordSeparate(h, base, staged, d, e);
    UpdateMerged(staged.events, base.events, e.id, e);
    UpdateMerged(staged.commands, base.commands, e.commandId, e.id);
    UpdateMerged(staged.receipts, base.receipts, e.commandId, ReceiptOf(h, e));
  }

  // One event, staged or applied directly.
  lemma StepTogether(h: Fingerprint, base: State, staged: State, e: Event)
    requires Separate(base, staged) && e.id == e.commandId
    ensures Merged(base, ApplyAgainst(h, staged, e, Some(base))) == Apply(h, Publish(base, staged), e)
    ensures ApplyAgainst(h, staged, e, Some(base)).Ok? ==> Separate(base, ApplyAgainst(h, staged, e, Some(base)).value)
  {
    hide ApplyDomain, Recorded, Existing, Separate;
    SeenTogether(h, base, staged, e);
    if Existing(h, staged, e) == New && Existing(h, base, e) == New && ApplyDomain(staged.domain, e).Ok? {
      RecordTogether(h, base, staged, ApplyDomain(staged.domain, e).value, e);
    }
  }

  lemma {:induction false} StagedTogether(h: Fingerprint, base: State, staged: State, batch: seq<Event>)
    requires Separate(base, staged) && SelfNamed(batch)
    ensures Merged(base, StageAll(h, base, staged, batch)) == ApplyAll(h, Publish(base, staged), batch)
    decreases |batch|
  {
    hide ApplyAgainst, Apply, Separate, Publish;
    if batch != [] {
      StepTogether(h, base, staged, batch[0]);
      var next := ApplyAgainst(h, staged, batch[0], Some(base));
      if next.Ok? {
        StagedTogether(h, base, next.value, batch[1..]);
      }
    }
  }

  // Batch commit refines single application: same success, same error, same state.
  lemma BatchRefines(h: Fingerprint, s: State, batch: seq<Event>)
    requires SelfNamed(batch)
    ensures Merged(s, Prepare(h, s, batch)) == ApplyAll(h, s, batch)
  {
    hide StageAll, ApplyAll;
    CopyPublishes(s);
    StagedTogether(h, s, DomainCopy(s), batch);
  }

  lemma CopyPublishes(s: State)
    ensures Separate(s, DomainCopy(s)) && Publish(s, DomainCopy(s)) == s
  {
    var p := Publish(s, DomainCopy(s));
    assert p.events == s.events && p.commands == s.commands && p.receipts == s.receipts;
  }

  // ---------------------------------------------------------------- any names

  // Each kept event is filed under its id, and its command is known and its own.
  predicate Filed(s: State) {
    (forall i :: i in s.events ==>
      s.events[i].id == i && (s.events[i].commandId in s.commands || s.events[i].commandId in s.receipts)) &&
    (forall i, j :: i in s.events && j in s.events && s.events[i].commandId == s.events[j].commandId ==> i == j)
  }

  lemma ApplyFiled(h: Fingerprint, s: State, e: Event)
    requires Filed(s) && Apply(h, s, e).Ok?
    ensures Filed(Apply(h, s, e).value)
  {
    hide ApplyDomain, FingerprintOf;
  }

  lemma {:induction false} ApplyAllFiled(h: Fingerprint, s: State, events: seq<Event>)
    requires Filed(s) && ApplyAll(h, s, events).Ok?
    ensures Filed(ApplyAll(h, s, events).value)
    decreases |events|
  {
    hide Apply, Filed;
    if events != [] {
      ApplyFiled(h, s, events[0]);
      ApplyAllFiled(h, Apply(h, s, events[0]).value, events[1..]);
    }
  }

  // e repeats the command of an earlier event of its batch, which s does not
  // know, under the id of an event s still keeps.
  predicate CrossedBy(h: Fingerprint, s: State, earlier: seq<Event>, e: Event) {
    e.kind != NoOp && e.id in s.events && e.commandId !in s.commands && e.commandId !in s.receipts &&
    exists j :: 0 <= j < |earlier| && earlier[j].kind != NoOp && earlier[j].commandId == e.commandId &&
      ReceiptOf(h, earlier[j]) == ReceiptOf(h, e)
  }

  predicate CrossNamed(h: Fingerprint, s: State, batch: seq<Event>) {
    exists k :: 0 <= k < |batch| && CrossedBy(h, s, batch[..k], batch[k])
  }

  // The staged history is about the events done so far, and disjoint from base.
  ghost predicate Staging(h: Fingerprint, base: State, staged: State, done: seq<Event>) {
    (forall i :: i in staged.events ==> i !in base.events) &&
    (forall c :: c in staged.receipts ==> c in staged.commands) &&
    (forall c :: c in staged.commands ==> c !in base.commands && c !in base.receipts) &&
    (forall i :: i in staged.events && staged.events[i].kind != NoOp ==>
      staged.events[i].commandId in staged.receipts &&
      staged.receipts[staged.events[i].commandId] == ReceiptOf(h, staged.events[i])) &&
    (forall c :: c in staged.receipts ==> Sourced(h, done, c, staged.receipts[c])) &&
    (forall d :: d in done && d.kind != NoOp && d.commandId !in base.commands && d.commandId !in base.receipts ==>
      d.commandId in staged.receipts && staged.receipts[d.commandId] == ReceiptOf(h, d))
  }

  ghost predicate Sourced(h: Fingerprint, done: seq<Event>, c: Id, r: Receipt) {
    exists j :: 0 <= j < |done| && done[j].kind != NoOp && done[j].commandId == c && ReceiptOf(h, done[j]) == r
  }

  // Single application sees the kept event first, staging the repeated command.
  predicate Crosses(h: Fingerprint, base: State, staged: State, e: Event) {
    e.kind != NoOp && e.id in base.events && e.commandId in staged.receipts &&
    staged.receipts[e.commandId] == ReceiptOf(h, e)
  }

  lemma CrossedHere(h: Fingerprint, base: State, staged: State, done: seq<Event>, e: Event)
    requires Staging(h, base, staged, done)
    ensures Crosses(h, base, staged, e) <==> CrossedBy(h, base, done, e)
  {
    hide ReceiptOf;
    if Crosses(h, base, staged, e) {
      assert Sourced(h, done, e.commandId, staged.receipts[e.commandId]);
    }
    if CrossedBy(h, base, done, e) {
      var j :| 0 <= j < |done| && done[j].kind != NoOp && done[j].commandId == e.commandId &&
               ReceiptOf(h, done[j]) == ReceiptOf(h, e);
      assert done[j] in done;
    }
  }

  lemma SeenExactly(h: Fingerprint, base: State, staged: State, done: seq<Event>, e: Event)
    requires Filed(base) && Staging(h, base, staged, done)
    ensures
      var apart := if Existing(h, staged, e) != New then Existing(h, staged, e) else Existing(h, base, e);
      if Crosses(h, base, staged, e)
      then Existing(h, staged, e) == Repeated && Existing(h, Publish(base, staged), e) == Conflict
      else Existing(h, Publish(base, staged), e) == apart
  {
    hide ReceiptOf, Sourced;
  }

  lemma RecordExactly(h: Fingerprint, base: State, staged: State, d: Domain, e: Event)
    requires e.id !in base.events && e.commandId !in base.commands && e.commandId !in base.receipts
    ensures Publish(base, Recorded(h, staged, d, e)) == Recorded(h, Publish(base, staged), d, e)
  {
    hide ReceiptOf;
    UpdateMerged(staged.events, base.events, e.id, e);
    UpdateMerged(staged.commands, base.commands, e.commandId, e.id);
    UpdateMerged(staged.receipts, base.receipts, e.commandId, ReceiptOf(h, e));
  }

  lemma RecordStages(h: Fingerprint, base: State, staged: State, done: seq<Event>, d: Domain, e: Event)
    requires Staging(h, base, staged, done) && Existing(h, staged, e) == New && Existing(h, base, e) == New
    ensures Staging(h, base, Recorded(h, staged, d, e), done + [e])
  {
    hide ReceiptOf, Sourced;
    var next := Recorded(h, staged, d, e);
    forall c | c in next.receipts
      ensures Sourced(h, done + [e], c, next.receipts[c])
    {
      SourcedMore(h, done, e, c, next.receipts[c]);
    }
  }

  lemma SourcedMore(h: Fingerprint, done: seq<Event>, e: Event, c: Id, r: Receipt)
    ensures Sourced(h, done, c, r) ==> Sourced(h, done + [e], c, r)
    ensures e.kind != NoOp && e.commandId == c && ReceiptOf(h, e) == r ==> Sourced(h, done + [e], c, r)
  {
    hide ReceiptOf;
    var all := done + [e];
    if Sourced(h, done, c, r) {
      var j :| 0 <= j < |done| && done[j].kind != NoOp && done[j].commandId == c && ReceiptOf(h, done[j]) == r;
      assert all[j] == done[j];
    }
    assert all[|done|] == e;
  }

  lemma RepeatStages(h: Fingerprint, base: State, staged: State, done: seq<Event>, e: Event)
    requires Filed(base) && Staging(h, base, staged, done)
    requires Existing(h, staged, e) == Repeated || (Existing(h, staged, e) == New && Existing(h, base, e) == Repeated)
    ensures Staging(h, base, staged, done + [e])
  {
    hide ReceiptOf, Sourced;
    forall c | c in staged.receipts
      ensures Sourced(h, done + [e], c, staged.receipts[c])
    {
      SourcedMore(h, done, e, c, staged.receipts[c]);
    }
  }

  // One event of any name.
  lemma StepExactly(h: Fingerprint, base: State, staged: State, done: seq<Event>, e: Event)
    requires Filed(base) && Staging(h, base, staged, done)
    ensures
      var next := ApplyAgainst(h, staged, e, Some(base));
      (next.Ok? ==> Staging(h, base, next.value, done + [e])) &&
      if next.Ok? && CrossedBy(h, base, done, e) then Apply(h, Publish(base, staged), e) == Err(ConflictingEvent)
      else Merged(base, next) == Apply(h, Publish(base, staged), e)
  {
    hide ApplyDomain, Recorded, Existing, Staging, Filed, Crosses, CrossedBy;
    CrossedHere(h, base, staged, done, e);
    SeenExactly(h, base, staged, done, e);
    if Existing(h, staged, e) == New && Existing(h, base, e) == New {
      NewKeys(h, base, e);
      if ApplyDomain(staged.domain, e).Ok? {
        RecordExactly(h, base, staged, ApplyDomain(staged.domain, e).value, e);
        RecordStages(h, base, staged, done, ApplyDomain(staged.domain, e).value, e);
      }
    } else if Existing(h, staged, e) == Repeated || (Existing(h, staged, e) == New && Existing(h, base, e) == Repeated) {
      RepeatStages(h, base, staged, done, e);
    }
  }

  // Some event of rest is crossed by those before it.
  predicate CrossedLater(h: Fingerprint, s: State, done: seq<Event>, rest: seq<Event>) {
    exists k :: 0 <= k < |rest| && CrossedBy(h, s, done + rest[..k], rest[k])
  }

  lemma CrossedSplit(h: Fingerprint, s: State, done: seq<Event>, rest: seq<Event>)
    requires rest != []
    ensures CrossedLater(h, s, done, rest) <==>
            CrossedBy(h, s, done, rest[0]) || CrossedLater(h, s, done + [rest[0]], rest[1..])
  {
    hide CrossedBy;
    assert done + rest[..0] == done;
    forall k | 0 <= k < |rest[1..]|
      ensures done + [rest[0]] + rest[1..][..k] == done + rest[..k + 1]
    {}
    if CrossedLater(h, s, done, rest) {
      var k :| 0 <= k < |rest| && CrossedBy(h, s, done + rest[..k], rest[k]);
      if k > 0 {
        assert CrossedBy(h, s, done + [rest[0]] + rest[1..][..k - 1], rest[1..][k - 1]);
      }
    }
    if CrossedLater(h, s, done + [rest[0]], rest[1..]) {
      var k :| 0 <= k < |rest[1..]| && CrossedBy(h, s, done + [rest[0]] + rest[1..][..k], rest[1..][k]);
      assert CrossedBy(h, s, done + rest[..k + 1], rest[k + 1]);
    }
  }

  lemma {:induction false} StagedExactly(h: Fingerprint, base: State, staged: State, done: seq<Event>, rest: seq<Event>)
    requires Filed(base) && Staging(h, base, staged, done)
    ensures
      var batch, single := StageAll(h, base, staged, rest), ApplyAll(h, Publish(base, staged), rest);
      if CrossedLater(h, base, done, rest) then single.Err? && (batch.Ok? ==> single == Err(ConflictingEvent))
      else Merged(base, batch) == single
    decreases |rest|
  {
    hide ApplyAgainst, Apply, Staging, Publish, Filed, CrossedBy, CrossedLater;
    if rest == [] {
      NoneLater(h, base, done);
    } else {
      StepExactly(h, base, staged, done, rest[0]);
      CrossedSplit(h, base, done, rest);
      var next := ApplyAgainst(h, staged, rest[0], Some(base));
      if next.Ok? {
        StagedExactly(h, base, next.value, done + [rest[0]], rest[1..]);
      }
    }
  }

  lemma NoneLater(h: Fingerprint, s: State, done: seq<Event>)
    ensures !CrossedLater(h, s, done, [])
  {}

  // For batches of any names: staging refuses only what single application
  // refuses, and what it accepts has the same outcome exactly if no event
  // repeats an earlier command of the batch under the id of a kept event.
  lemma BatchExactly(h: Fingerprint, s: State, batch: seq<Event>)
    requires Filed(s)
    ensures !CrossNamed(h, s, batch) ==> Merged(s, Prepare(h, s, batch)) == ApplyAll(h, s, batch)
    ensures CrossNamed(h, s, batch) ==> ApplyAll(h, s, batch).Err?
    ensures Prepare(h, s, batch).Err? ==> ApplyAll(h, s, batch).Err?
    ensures Prepare(h, s, batch).Ok? ==>
              (Merged(s, Prepare(h, s, batch)) == ApplyAll(h, s, batch) <==> !CrossNamed(h, s, batch))
  {
    hide StageAll, ApplyAll, CrossedBy;
    CopyPublishes(s);
    StagedExactly(h, s, DomainCopy(s), [], batch);
    forall k | 0 <= k < |batch|
      ensures [] + batch[..k] == batch[..k]
    {}
  }

  // The condition matters in a state a run reaches: after one election marker a
  // create, and the same create under the marker's id, can be staged together but
  // not applied one after the other.
  lemma NamingMatters(h: Fingerprint)
    ensures
      var create := CreatePayload("x", Stage(1, 1), false, 0);
      var marker := Event("x", "x", "x", NoOp, SCHEMA, 0, 1, 1, create);
      var event := Event("y", "c", "x", Create, SCHEMA, 0, 2, 1, create);
      var batch := [event, event.(id := "x")];
      var s := Replay(h, [marker]);
      s.Ok? && CrossNamed(h, s.value, batch) && Prepare(h, s.value, batch).Ok? &&
      ApplyAll(h, s.value, batch) == Err(ConflictingEvent)
  {
    var create := CreatePayload("x", Stage(1, 1), false, 0);
    var marker := Event("x", "x", "x", NoOp, SCHEMA, 0, 1, 1, create);
    var event := Event("y", "c", "x", Create, SCHEMA, 0, 2, 1, create);
    var again := event.(id := "x");
    var s := Recorded(h, EMPTY, EMPTY_DOMAIN, marker);
    assert Apply(h, EMPTY, marker) == Ok(s);
    assert ApplyAll(h, s, []) == Ok(s) && [marker][1..] == [];
    assert [event, again][..1] == [event];
    assert [event][0].commandId == again.commandId && ReceiptOf(h, [event][0]) == ReceiptOf(h, again);
    assert CrossedBy(h, s, [event], again);
    var d := ApplyDomain(EMPTY_DOMAIN, event).value;
    var staged := Recorded(h, DomainCopy(s), d, event);
    assert ApplyAgainst(h, DomainCopy(s), event, Some(s)) == Ok(staged);
    assert ApplyAgainst(h, staged, again, Some(s)) == Ok(staged);
    assert [event, again][1..] == [again] && [again][1..] == [];
    assert StageAll(h, s, staged, [again]) == StageAll(h, s, staged, []) == Ok(staged);
    var full := Recorded(h, s, d, event);
    assert Apply(h, s, event) == Ok(full) && Apply(h, full, again) == Err(ConflictingEvent);
    assert ApplyAll(h, full, [again]) == Err(ConflictingEvent);
  }
}
