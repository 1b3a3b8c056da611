// The engine around the state machine: submits, commits, trimming, restarts.
module ChoreographyEngine {
  import opened Logs
  import opened Transition
  import opened Orders
  import opened Journal
  import opened Choreography
  import opened ChoreographyDomain
  import opened ChoreographyBatch
  import opened ChoreographySnapshot

  // ---------------------------------------------------------------- proposing and resolving

  predicate CommandOK(c: Command) {
    ValidId(c.id) && PayloadOK(c.payload) && c.kind != NoOp
  }

  predicate Known(s: State, c: Command) {
    c.id in s.commands || c.id in s.receipts
  }

  function EventFor(c: Command, index: U64, term: U64): Event {
    Event(c.id, c.id, c.choreography, c.kind, c.schema, c.tick, index, term, NormalPayload(c.payload))
  }

  // The event an unknown command would become.
  function Propose(h: Fingerprint, s: State, c: Command): Result<Event> {
    if c.schema != SCHEMA then Err(UnsupportedVersion)
    else if Known(s, c) then Err(DuplicateCommand)
    else if c.kind != Create && !Choreography.Ready(s.domain) then Err(ChoreographyNotFound)
    else if c.kind != Create && Some(c.choreography) != s.domain.id then Err(ChoreographyNotFound)
    else if c.kind == Create && s.domain.created then Err(ChoreographyExists)
    else if s.lastApplied + 1 >= 0x1_0000_0000_0000_0000 || s.term >= 0x1_0000_0000_0000_0000 then Err(IndexGap)
    else
      var e := EventFor(c, s.lastApplied + 1, s.term);
      match Apply(h, DomainCopy(s), e)
      case Err(error) => Err(error)
      case Ok(_) => Ok(e)
  }

  // e carries what c asks for, under c's id; members are listed in order.
  ghost predicate Describes(e: Event, c: Command) {
    e.id == c.id && e.commandId == c.id && e.choreography == c.choreography && e.kind == c.kind && e.schema == c.schema &&
    e.tick == c.tick &&
    if c.payload.FormationPayload?
    then
      e.payload.FormationPayload? && e.payload.formation == c.payload.formation && Ascends(e.payload.members) &&
      forall m :: m in e.payload.members <==> m in c.payload.members
    else e.payload == c.payload
  }

  lemma EventDescribes(c: Command)
    ensures forall index: U64, term: U64 :: Describes(EventFor(c, index, term), c)
  {
    hide Sorted, Ascends;
    if c.payload.FormationPayload? {
      SortedAscends(c.payload.members);
    }
  }

  // A command the choreography accepts as its next event: of the known schema,
  // creating it or addressed to it, and allowed by its rules.
  predicate Acceptable(s: State, c: Command) {
    c.schema == SCHEMA && (c.kind != Create ==> s.domain.id == Some(c.choreography)) &&
    s.lastApplied + 1 < 0x1_0000_0000_0000_0000 && s.term < 0x1_0000_0000_0000_0000 &&
    ApplyDomain(s.domain, EventFor(c, s.lastApplied + 1, s.term)).Ok?
  }

  // A new command is proposed exactly if it is acceptable.
  lemma ProposeAccepts(h: Fingerprint, s: State, c: Command)
    requires c.id !in s.commands && c.id !in s.receipts && c.kind != NoOp
    ensures Propose(h, s, c).Ok? <==> Acceptable(s, c)
    ensures Propose(h, s, c).Ok? ==> Propose(h, s, c).value == EventFor(c, s.lastApplied + 1, s.term)
  {
    hide ApplyDomain, Apply, NormalPayload;
    if s.lastApplied + 1 < 0x1_0000_0000_0000_0000 && s.term < 0x1_0000_0000_0000_0000 {
      var e := EventFor(c, s.lastApplied + 1, s.term);
      ChoreographyDomain.ApplyOutcome(h, DomainCopy(s), e);
      if ApplyDomain(s.domain, e).Ok? {
        RulesNeedIt(s.domain, e);
      }
    }
  }

  // Only a missing choreography can be created, and only an existing one changed.
  lemma RulesNeedIt(d: Domain, e: Event)
    requires ApplyDomain(d, e).Ok? && e.kind != NoOp
    ensures if e.kind == Create then !d.created else Choreography.Ready(d)
  {
    hide Sorted, CheckMembers, Occupied, WithinTravel, OnStage;
  }

  // An accepted proposal is also accepted when applied.
  lemma ProposedApplies(h: Fingerprint, s: State, c: Command)
    requires StateOK(s) && Filed(s) && Propose(h, s, c).Ok? && c.kind != NoOp
    ensures Apply(h, s, Propose(h, s, c).value).Ok? <==> c.id !in s.events
    ensures Apply(h, s, Propose(h, s, c).value).Ok? ==>
      var e := Propose(h, s, c).value;
      var t := Apply(h, s, e).value;
      ApplyDomain(s.domain, e).Ok? && t.domain == ApplyDomain(s.domain, e).value && t.lastApplied == e.index &&
      c.id in t.receipts && t.receipts[c.id] == ReceiptOf(h, e)
  {
    hide ApplyDomain, NormalPayload, StateOK;
  }

  // The outcome of a command that is already committed.
  function Resolve(h: Fingerprint, s: State, c: Command): Result<Event> {
    if c.id !in s.receipts then Err(OutcomeUnavailable)
    else if FingerprintOf(h, c) != s.receipts[c.id].fingerprint then Err(CommandConflict)
    else Ok(EventFor(c, s.receipts[c.id].index, s.receipts[c.id].term))
  }

  // ---------------------------------------------------------------- at most once

  // `applied` is every event that ever changed the state: each of its commands
  // has a receipt, and no command occurs twice.
  ghost predicate Once(h: Fingerprint, s: State, applied: seq<Event>) {
    (forall k :: 0 <= k < |applied| && applied[k].kind != NoOp ==>
      applied[k].commandId in s.receipts && s.receipts[applied[k].commandId] == ReceiptOf(h, applied[k])) &&
    (forall j, k :: 0 <= j < k < |applied| && applied[j].kind != NoOp && applied[k].kind != NoOp ==>
      applied[j].commandId != applied[k].commandId) &&
    (forall i :: i in s.receipts ==> exists k :: 0 <= k < |applied| && applied[k].commandId == i && applied[k].kind != NoOp)
  }

  // The events of a sequence that are new when their turn comes.
  function Fresh(h: Fingerprint, s: State, events: seq<Event>): seq<Event>
    decreases |events|
  {
    if events == [] || Apply(h, s, events[0]).Err? then []
    else
      (if Existing(h, s, events[0]) == New then [events[0]] else []) +
      Fresh(h, Apply(h, s, events[0]).value, events[1..])
  }

  lemma OnceStep(h: Fingerprint, s: State, applied: seq<Event>, e: Event)
    requires Once(h, s, applied) && Apply(h, s, e).Ok?
    ensures Once(h, Apply(h, s, e).value, applied + (if Existing(h, s, e) == New then [e] else []))
    ensures forall i :: i in s.receipts ==>
      i in Apply(h, s, e).value.receipts && Apply(h, s, e).value.receipts[i] == s.receipts[i]
  {
    hide ApplyDomain, FingerprintOf;
    if Existing(h, s, e) == New {
      OnceGrows(h, s, applied, e, Apply(h, s, e).value);
    } else {
      assert applied + [] == applied;
    }
  }

  lemma OnceGrows(h: Fingerprint, s: State, applied: seq<Event>, e: Event, t: State)
    requires Once(h, s, applied) && e.commandId !in s.receipts
    requires t.receipts == if e.kind == NoOp then s.receipts else s.receipts[e.commandId := ReceiptOf(h, e)]
    ensures Once(h, t, applied + [e])
  {
    hide FingerprintOf;
    var more := applied + [e];
    forall i | i in t.receipts
      ensures exists k :: 0 <= k < |more| && more[k].commandId == i && more[k].kind != NoOp
    {
      if i in s.receipts {
        var k :| 0 <= k < |applied| && applied[k].commandId == i && applied[k].kind != NoOp;
        assert more[k].commandId == i;
      } else {
        assert more[|applied|].commandId == i;
      }
    }
  }

  // The events of a batch that are new to the history and to the batch so far.
  function StagedFresh(h: Fingerprint, base: State, staged: State, batch: seq<Event>): seq<Event>
    decreases |batch|
  {
    if batch == [] || ApplyAgainst(h, staged, batch[0], Some(base)).Err? then []
    else
      (if Existing(h, staged, batch[0]) == New && Existing(h, base, batch[0]) == New then [batch[0]] else []) +
      StagedFresh(h, base, ApplyAgainst(h, staged, batch[0], Some(base)).value, batch[1..])
  }

  // What a history and the events that made it keep to.
  ghost predicate Sound(h: Fingerprint, s: State, applied: seq<Event>) {
    StateOK(s) && Filed(s) && Once(h, s, applied) && Coherent(s.domain)
  }

  lemma StagedStep(h: Fingerprint, base: State, staged: State, done: seq<Event>, e: Event, applied: seq<Event>)
    requires Filed(base) && Staging(h, base, staged, done) && Sound(h, Publish(base, staged), applied) && EventOK(e)
    requires ApplyAgainst(h, staged, e, Some(base)).Ok?
    ensures
      var added := if Existing(h, staged, e) == New && Existing(h, base, e) == New then [e] else [];
      Sound(h, Publish(base, ApplyAgainst(h, staged, e, Some(base)).value), applied + added)
    ensures !CrossedBy(h, base, done, e) ==>
      (Existing(h, Publish(base, staged), e) == New <==> Existing(h, staged, e) == New && Existing(h, base, e) == New)
  {
    hide ApplyDomain, Recorded, Existing, Staging, Filed, StateOK, Once, EventOK, Crosses, CrossedBy, Publish, Coherent;
    CrossedHere(h, base, staged, done, e);
    SeenExactly(h, base, staged, done, e);
    StepExactly(h, base, staged, done, e);
    if CrossedBy(h, base, done, e) {
      assert applied + [] == applied;
    } else {
      StateKeeps(h, Publish(base, staged), e);
      ApplyFiled(h, Publish(base, staged), e);
      StepCoheres(h, Publish(base, staged), e);
      OnceStep(h, Publish(base, staged), applied, e);
    }
  }

  lemma {:induction false} StagedKeeps(h: Fingerprint, base: State, staged: State, done: seq<Event>, rest: seq<Event>,
                                       applied: seq<Event>)
    requires Filed(base) && Staging(h, base, staged, done) && Sound(h, Publish(base, staged), applied)
    requires (forall e :: e in rest ==> EventOK(e)) && StageAll(h, base, staged, rest).Ok?
    ensures Sound(h, Publish(base, StageAll(h, base, staged, rest).value), applied + StagedFresh(h, base, staged, rest))
    ensures !CrossedLater(h, base, done, rest) ==>
      StagedFresh(h, base, staged, rest) == Fresh(h, Publish(base, staged), rest)
    decreases |rest|
  {
    hide ApplyAgainst, Apply, Existing, Staging, Publish, Filed, Sound, CrossedBy, CrossedLater, EventOK;
    if rest == [] {
      assert applied + [] == applied;
    } else {
      var e := rest[0];
      var next := ApplyAgainst(h, staged, e, Some(base)).value;
      var added := if Existing(h, staged, e) == New && Existing(h, base, e) == New then [e] else [];
      StagedStep(h, base, staged, done, e, applied);
      StepExactly(h, base, staged, done, e);
      CrossedSplit(h, base, done, rest);
      StagedKeeps(h, base, next, done + [e], rest[1..], applied + added);
      assert applied + added + StagedFresh(h, base, next, rest[1..]) == applied + StagedFresh(h, base, staged, rest);
    }
  }

  // A committed batch keeps the history sound, whatever its names.
  lemma BatchKeeps(h: Fingerprint, s: State, applied: seq<Event>, batch: seq<Event>)
    requires Sound(h, s, applied) && (forall e :: e in batch ==> EventOK(e)) && Prepare(h, s, batch).Ok?
    ensures Sound(h, Publish(s, Prepare(h, s, batch).value), applied + StagedFresh(h, s, DomainCopy(s), batch))
    ensures !CrossNamed(h, s, batch) ==> StagedFresh(h, s, DomainCopy(s), batch) == Fresh(h, s, batch)
  {
    hide StageAll, Sound, CrossedBy, EventOK, Fresh, StagedFresh;
    SoundFiled(h, s, applied);
    CopyPublishes(s);
    CopyStages(h, s);
    StagedKeeps(h, s, DomainCopy(s), [], batch, applied);
    forall k | 0 <= k < |batch|
      ensures [] + batch[..k] == batch[..k]
    {}
  }

  lemma SoundFiled(h: Fingerprint, s: State, applied: seq<Event>)
    requires Sound(h, s, applied)
    ensures Filed(s)
  {}

  lemma CopyStages(h: Fingerprint, s: State)
    ensures Staging(h, s, DomainCopy(s), [])
  {}

  // ---------------------------------------------------------------- the engine

  class Engine {
    const h: Fingerprint
    var state: State
    var events: seq<Event>
    // History of every event that changed the state.
    var applied: seq<Event>

    ghost predicate Valid()
      reads this
    {
      Sound(h, state, applied)
    }

    constructor (h: Fingerprint)
      ensures Valid() && this.h == h && state == EMPTY && applied == []
    {
      this.h := h;
      state, events, applied := EMPTY, [], [];
      new;
      EmptyOK();
      EmptyCoheres();
    }

    method ApplyCommitted(e: Event) returns (result: Result<()>)
      requires Valid() && EventOK(e)
      modifies this
      ensures Valid() && old(applied) <= applied
      ensures result.Ok? <==> Apply(h, old(state), e).Ok?
      ensures result.Ok? ==> state == Apply(h, old(state), e).value && events == old(events) + [e]
      ensures result.Ok? ==> applied == old(applied) + (if Existing(h, old(state), e) == New then [e] else [])
      // A new event is accepted at the next index if the choreography's rules allow it.
      ensures e.id !in old(state.events) && e.commandId !in old(state.commands) && e.commandId !in old(state.receipts) ==>
        (result.Ok? <==>
          e.schema == SCHEMA && e.index == old(state.lastApplied) + 1 && ApplyDomain(old(state.domain), e).Ok?) &&
        (result.Ok? ==> state.domain == ApplyDomain(old(state.domain), e).value && state.lastApplied == e.index)
      ensures e.schema == SCHEMA && e.id in old(state.events) ==> (result.Ok? <==> old(state.events)[e.id] == e)
      ensures result.Err? ==> state == old(state) && events == old(events) && applied == old(applied)
    {
      hide StateOK, Filed, Once, Apply, EventOK, Coherent, ApplyDomain;
      if e.id in state.events {
        if e.schema == SCHEMA {
          ApplyAgain(h, state, e);
        }
      } else if e.commandId !in state.commands && e.commandId !in state.receipts {
        ChoreographyDomain.ApplyOutcome(h, state, e);
      }
      match Apply(h, state, e)
      case Err(error) => result := Err(error);
      case Ok(next) =>
        StateKeeps(h, state, e);
        ApplyFiled(h, state, e);
        StepCoheres(h, state, e);
        OnceStep(h, state, applied, e);
        assert applied + [] == applied;
        if Existing(h, state, e) == New {
          applied := applied + [e];
        }
        state := next;
        events := events + [e];
        result := Ok(());
    }

    // A known command is answered from its receipt; a new one is applied.
    method Submit(c: Command) returns (result: Result<Event>, duplicate: bool)
      requires Valid() && CommandOK(c)
      modifies this
      ensures Valid() && old(applied) <= applied
      ensures duplicate ==> result.Ok? && state == old(state)
      ensures result.Err? ==> state == old(state) && applied == old(applied)
      // Retries of an applied command.
      ensures c.id in old(state.receipts) && FingerprintOf(h, c) == old(state.receipts)[c.id].fingerprint ==>
        result.Ok? && duplicate && Describes(result.value, c) &&
        result.value.index == old(state.receipts)[c.id].index && result.value.term == old(state.receipts)[c.id].term
      ensures c.id in old(state.receipts) && FingerprintOf(h, c) != old(state.receipts)[c.id].fingerprint ==>
        result == Err(CommandConflict)
      // A newly accepted command is applied once, at the next index.
      ensures c.id !in old(state.commands) && c.id !in old(state.receipts) ==>
        !duplicate && (result.Ok? <==> Acceptable(old(state), c) && c.id !in old(state.events))
      ensures c.id in old(state.commands) && c.id !in old(state.receipts) ==> result == Err(OutcomeUnavailable)
      ensures result.Ok? && !duplicate ==>
        Describes(result.value, c) && result.value.term == old(state.term) &&
        ApplyDomain(old(state.domain), result.value).Ok? &&
        state.domain == ApplyDomain(old(state.domain), result.value).value &&
        c.id !in old(state.receipts) && result.value.index == old(state.lastApplied) + 1 &&
        state.lastApplied == result.value.index && applied == old(applied) + [result.value] &&
        c.id in state.receipts && state.receipts[c.id].fingerprint == FingerprintOf(h, c)
    {
      hide StateOK, Filed, Once, PayloadOK, ApplyDomain, Coherent, Apply, Describes, NormalPayload;
      EventDescribes(c);
      duplicate := false;
      if Known(state, c) {
        result := Resolve(h, state, c);
        duplicate := result.Ok?;
        return;
      }
      ProposeAccepts(h, state, c);
      result := Propose(h, state, c);
      if result.Err? {
        return;
      }
      var e := result.value;
      ProposedOK(h, state, c);
      ProposedNew(h, state, c);
      ProposedApplies(h, state, c);
      NormalTwice(h, c, e);
      var done := ApplyCommitted(e);
      if done.Err? {
        result := Err(done.error);
      }
    }

    // Stage the batch beside the history, then merge it in.
    method CommitBatch(batch: seq<Event>) returns (result: Result<()>)
      requires Valid() && forall e :: e in batch ==> EventOK(e)
      modifies this
      ensures Valid() && result.Ok? == Prepare(h, old(state), batch).Ok?
      ensures result.Ok? ==>
        state == Publish(old(state), Prepare(h, old(state), batch).value) && events == old(events) + batch &&
        applied == old(applied) + StagedFresh(h, old(state), DomainCopy(old(state)), batch)
      ensures result.Err? ==>
        result.error == Prepare(h, old(state), batch).error && state == old(state) && events == old(events) &&
        applied == old(applied)
      // Single application is the reference.
      ensures ApplyAll(h, old(state), batch).Ok? ==>
        result.Ok? && state == ApplyAll(h, old(state), batch).value &&
        applied == old(applied) + Fresh(h, old(state), batch)
      ensures !CrossNamed(h, old(state), batch) && ApplyAll(h, old(state), batch).Err? ==>
        result == Err(ApplyAll(h, old(state), batch).error)
    {
      hide StateOK, Filed, Once, ApplyAgainst, Apply, ApplyAll, EventOK, StageAll, CrossNamed, Fresh, StagedFresh, Publish;
      BatchExactly(h, state, batch);
      var staged := DomainCopy(state);
      var k := 0;
      var added: seq<Event> := [];
      assert batch[0..] == batch;
      while k < |batch|
        invariant 0 <= k <= |batch| && added == batch[..k]
        invariant state == old(state) && events == old(events) && applied == old(applied)
        invariant StageAll(h, state, staged, batch[k..]) == Prepare(h, state, batch)
      {
        StageUnroll(h, state, staged, batch[k..]);
        match ApplyAgainst(h, staged, batch[k], Some(state))
        case Err(error) =>
          result := Err(error);
          return;
        case Ok(next) =>
          staged := next;
          added := added + [batch[k]];
          assert batch[k..][1..] == batch[k + 1..];
          k := k + 1;
      }
      StageUnroll(h, state, staged, batch[k..]);
      BatchKeeps(h, state, applied, batch);
      applied := applied + StagedFresh(h, state, DomainCopy(state), batch);
      state := Publish(state, staged);
      events := events + added;
      result := Ok(());
    }

    // Forget event bodies below the anchor; receipts stay.
    method RetainHistoryFrom(anchor: nat)
      requires Valid()
      modifies this`state, this`events
      ensures Valid()
      ensures state.domain == old(state.domain)
      ensures state.lastApplied == old(state.lastApplied) && state.term == old(state.term)
      ensures state.receipts == old(state.receipts)
      ensures forall i :: i in state.events <==> i in old(state.events) && old(state.events)[i].index >= anchor
      ensures forall i :: i in state.events ==> state.events[i] == old(state.events)[i]
      ensures forall c :: c in state.commands <==>
                c in old(state.commands) && !Trims(old(state), c, anchor) && !Aliased(old(state), c, anchor)
      ensures forall c :: c in state.commands ==> state.commands[c] == old(state.commands)[c]
      ensures |events| <= |old(events)| && events == old(events)[|old(events)| - |events|..]
      ensures forall k :: 0 <= k < |old(events)| - |events| ==> old(events)[k].index < anchor
      ensures events != [] ==> events[0].index >= anchor
    {
      hide StateOK, Filed, Once, Trims;
      var bodies, commands := TrimBodies(state, anchor);
      commands := TrimAliases(state, commands, anchor);
      TrimmedOK(h, state, bodies, commands, applied);
      TrimmedFiled(state, bodies, commands, anchor);
      state := state.(events := bodies, commands := commands);
      var k := 0;
      while k < |events| && events[k].index < anchor
        invariant 0 <= k <= |events| && forall j :: 0 <= j < k ==> events[j].index < anchor
      {
        k := k + 1;
      }
      events := events[k..];
    }

    // Restart from a snapshot of the current state.
    method Reload(p: Printing)
      requires Valid() && Prints(p, state)
      modifies this`state, this`events
      ensures Valid() && state.receipts == old(state.receipts) && state.lastApplied == old(state.lastApplied)
      ensures state.domain == old(state.domain) <==> DashFree(old(state.domain))
    {
      hide Restore, Snapshot, Prints, Once, DashFree, StateOK, Coherent, Undashed;
      UndashedCoheres(state.domain);
      SnapshotRoundTrip(state, p);
      DashExactly(state.domain);
      RestoredOK(h, state, applied);
      state := Restore(Snapshot(state, p)).value;
      events := [];
    }

    // ---------------------------------------------------------------- runs

    // Whatever happens, every accepted command was applied exactly once and every
    // receipt ever given stays as it was.
    method Run(actions: seq<Action>)
      requires Valid()
      modifies this
      ensures Valid() && old(applied) <= applied
      ensures forall j, k :: 0 <= j < k < |applied| && applied[j].kind != NoOp && applied[k].kind != NoOp ==>
        applied[j].commandId != applied[k].commandId
      ensures forall i :: i in old(state.receipts) ==> i in state.receipts && state.receipts[i] == old(state.receipts)[i]
      ensures Coherent(state.domain)
    {
      ghost var before, was := applied, state;
      var n := 0;
      while n < |actions|
        invariant 0 <= n <= |actions| && Valid() && before <= applied
      {
        match actions[n] {
          case SubmitAct(c) =>
            if CommandOK(c) {
              var result, duplicate := Submit(c);
            }
          case ApplyAct(e) =>
            if EventOK(e) {
              var result := ApplyCommitted(e);
            }
          case BatchAct(batch) =>
            if forall e :: e in batch ==> EventOK(e) {
              var result := CommitBatch(batch);
            }
          case TrimAct(anchor) => RetainHistoryFrom(anchor);
          case ReloadAct(p) =>
            if Prints(p, state) {
              Reload(p);
            }
        }
        n := n + 1;
      }
      ReceiptsStay(h, before, applied, was, state);
    }
  }

  // Drop event bodies below the anchor, and their commands where a receipt or an
  // election marker makes them redundant.
  method TrimBodies(s: State, anchor: nat) returns (bodies: map<Id, Event>, commands: map<Id, Id>)
    ensures forall i :: i in bodies <==> i in s.events && s.events[i].index >= anchor
    ensures forall i :: i in bodies ==> bodies[i] == s.events[i]
    ensures forall c :: c in commands <==> c in s.commands && !Trims(s, c, anchor)
    ensures forall c :: c in commands ==> commands[c] == s.commands[c]
  {
    bodies, commands := s.events, s.commands;
    var rest := bodies.Keys;
    while rest != {}
      invariant rest <= s.events.Keys
      invariant forall i :: i in bodies <==> i in s.events && (i in rest || s.events[i].index >= anchor)
      invariant forall i :: i in bodies ==> bodies[i] == s.events[i]
      invariant forall c :: c in commands ==> c in s.commands && commands[c] == s.commands[c]
      invariant forall i :: i in s.events && i !in rest && Redundant(s, s.events[i], anchor) ==>
        s.events[i].commandId !in commands
      invariant forall c :: c in s.commands && c !in commands ==> Trims(s, c, anchor)
      decreases |rest|
    {
      var i :| i in rest;
      rest := rest - {i};
      var e := s.events[i];
      if e.index < anchor {
        if e.kind == NoOp || e.commandId in s.receipts {
          assert Redundant(s, s.events[i], anchor);
          commands := commands - {e.commandId};
        }
        bodies := bodies - {i};
      }
      assert Redundant(s, s.events[i], anchor) ==> e.commandId !in commands;
    }
  }

  // Drop command aliases whose receipt lies below the anchor.
  method TrimAliases(s: State, before: map<Id, Id>, anchor: nat) returns (commands: map<Id, Id>)
    ensures forall c :: c in commands ==> c in before && commands[c] == before[c]
    ensures forall c :: c in before && c !in commands ==> c in s.receipts && s.receipts[c].index < anchor
    ensures forall c :: c in commands && c in s.receipts ==> s.receipts[c].index >= anchor
  {
    commands := before;
    var left := before.Keys;
    while left != {}
      invariant left <= before.Keys
      invariant forall c :: c in commands ==> c in before && commands[c] == before[c]
      invariant forall c :: c in before && c !in commands ==> c in s.receipts && s.receipts[c].index < anchor
      invariant forall c :: c in commands && c !in left && c in s.receipts ==> s.receipts[c].index >= anchor
      decreases |left|
    {
      var c :| c in left;
      left := left - {c};
      if c in s.receipts && s.receipts[c].index < anchor {
        commands := commands - {c};
      }
    }
  }

  datatype Action =
    | SubmitAct(command: Command)
    | ApplyAct(event: Event)
    | BatchAct(batch: seq<Event>)
    | TrimAct(anchor: nat)
    | ReloadAct(printing: Printing)

  lemma StageUnroll(h: Fingerprint, base: State, staged: State, batch: seq<Event>)
    ensures batch == [] ==> StageAll(h, base, staged, batch) == Ok(staged)
    ensures batch != [] && ApplyAgainst(h, staged, batch[0], Some(base)).Err? ==>
      StageAll(h, base, staged, batch).Err? &&
      StageAll(h, base, staged, batch).error == ApplyAgainst(h, staged, batch[0], Some(base)).error
    ensures batch != [] && ApplyAgainst(h, staged, batch[0], Some(base)).Ok? ==>
      StageAll(h, base, staged, batch) ==
      StageAll(h, base, ApplyAgainst(h, staged, batch[0], Some(base)).value, batch[1..])
  {}

  lemma ProposedOK(h: Fingerprint, s: State, c: Command)
    requires StateOK(s) && CommandOK(c) && Propose(h, s, c).Ok?
    ensures EventOK(Propose(h, s, c).value)
  {
    hide Apply, ValidId, Sorted, DomainOK, HistoryOK;
    if c.payload.FormationPayload? {
      forall m | m in Sorted(c.payload.members)
        ensures ValidId(m)
      {
        SortedFrom(c.payload.members, m);
      }
    }
  }

  // A proposed event is applied, if at all, as a new one.
  lemma ProposedNew(h: Fingerprint, s: State, c: Command)
    requires Propose(h, s, c).Ok? && StateOK(s)
    ensures Apply(h, s, Propose(h, s, c).value).Ok? ==> Existing(h, s, Propose(h, s, c).value) == New
    ensures c.id !in s.receipts
  {
    hide ApplyDomain, FingerprintOf, DomainOK, ValidId;
    NextIsNew(h, s, Propose(h, s, c).value);
  }

  // e goes below the anchor, and nothing needs its command afterwards.
  predicate Redundant(s: State, e: Event, anchor: nat) {
    e.index < anchor && (e.kind == NoOp || e.commandId in s.receipts)
  }

  // The command goes with the body of one of its events.
  predicate Trims(s: State, c: Id, anchor: nat) {
    exists i :: i in s.events && s.events[i].commandId == c && Redundant(s, s.events[i], anchor)
  }

  // The command's receipt lies below the anchor.
  predicate Aliased(s: State, c: Id, anchor: nat) {
    c in s.receipts && s.receipts[c].index < anchor
  }

  // Trimming leaves every kept event filed.
  lemma TrimmedFiled(s: State, bodies: map<Id, Event>, commands: map<Id, Id>, anchor: nat)
    requires Filed(s) && forall i :: i in bodies ==> i in s.events && bodies[i] == s.events[i] && bodies[i].index >= anchor
    requires forall c :: c in s.commands && c !in commands ==> Trims(s, c, anchor) || Aliased(s, c, anchor)
    ensures Filed(s.(events := bodies, commands := commands))
  {
    hide Trims;
    forall i | i in bodies
      ensures !Trims(s, bodies[i].commandId, anchor)
    {
      KeptCommand(s, i, anchor);
    }
  }

  lemma KeptCommand(s: State, i: Id, anchor: nat)
    requires Filed(s) && i in s.events && s.events[i].index >= anchor
    ensures !Trims(s, s.events[i].commandId, anchor)
  {}

  // ---------------------------------------------------------------- normal forms

  // The receipt of an event carries the fingerprint of the command it came from.
  lemma NormalTwice(h: Fingerprint, c: Command, e: Event)
    requires e == EventFor(c, e.index, e.term) && c.kind != NoOp
    ensures ReceiptOf(h, e).fingerprint == FingerprintOf(h, c)
  {
    hide Sorted;
    if c.payload.FormationPayload? {
      SortedAscends(c.payload.members);
      SortedStays(Sorted(c.payload.members));
    }
    assert Normal(CommandOf(e)) == Normal(c);
  }

  // ---------------------------------------------------------------- what trimming and restarting keep

  lemma TrimmedOK(h: Fingerprint, s: State, bodies: map<Id, Event>, commands: map<Id, Id>, applied: seq<Event>)
    requires StateOK(s) && Once(h, s, applied)
    requires forall i :: i in bodies ==> i in s.events && bodies[i] == s.events[i]
    requires forall c :: c in commands ==> c in s.commands
    ensures StateOK(s.(events := bodies, commands := commands))
    ensures Once(h, s.(events := bodies, commands := commands), applied)
  {
    hide DomainOK, ValidId, FingerprintOf;
  }

  lemma UndashedOK(d: Domain)
    requires DomainOK(d)
    ensures DomainOK(Undashed(d))
  {
    hide ValidId, StageOK, PositionOK;
  }

  lemma UndashedCoheres(d: Domain)
    requires Coherent(d)
    ensures Coherent(Undashed(d))
  {
    hide Ascends;
    var u := Undashed(d);
    forall c: Cue | DependencyDue(d, c)
      ensures DependencyDue(u, c.(dependsOn := Undash(c.dependsOn)))
    {}
  }

  lemma RestoredOK(h: Fingerprint, s: State, applied: seq<Event>)
    requires StateOK(s) && Once(h, s, applied)
    ensures StateOK(Restored(s)) && Once(h, Restored(s), applied)
  {
    hide DomainOK, ValidId, FingerprintOf, Undashed;
    UndashedOK(s.domain);
  }

  // A receipt belongs to one applied event, and that event stays.
  lemma ReceiptsStay(h: Fingerprint, before: seq<Event>, after: seq<Event>, s: State, t: State)
    requires Once(h, s, before) && Once(h, t, after) && before <= after
    ensures forall i :: i in s.receipts ==> i in t.receipts && t.receipts[i] == s.receipts[i]
  {
    hide FingerprintOf;
    forall i | i in s.receipts
      ensures i in t.receipts && t.receipts[i] == s.receipts[i]
    {
      var k :| 0 <= k < |before| && before[k].commandId == i && before[k].kind != NoOp;
      assert after[k] == before[k];
    }
  }
}
