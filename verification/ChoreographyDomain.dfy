// What each event does to the choreography: when it is accepted, its effect and
// what it leaves alone, and what every reachable choreography keeps to.
module ChoreographyDomain {
  import opened Logs
  import opened Transition
  import opened Orders
  import opened Choreography

  predicate Exists(d: Domain) {
    d.created && d.id.Some? && d.stage.Some?
  }

  predicate Inside(d: Domain, p: Position) {
    d.stage.Some? && p.x <= d.stage.value.width && p.y <= d.stage.value.depth
  }

  predicate Active(d: Domain, i: Id) {
    i in d.dancers && d.dancers[i].active
  }

  // No other active dancer stands on p, or overlap is allowed.
  ghost predicate Unoccupied(d: Domain, p: Position, mover: Id) {
    d.overlapAllowed || forall i :: Active(d, i) && i != mover ==> d.dancers[i].position != p
  }

  // The straight distance is within the travel limit.
  predicate Reaches(d: Domain, was: Position, to: Position) {
    (to.x - was.x) * (to.x - was.x) + (to.y - was.y) * (to.y - was.y) <= d.maxTravel * d.maxTravel
  }

  // ---------------------------------------------------------------- one event

  lemma CreateOutcome(d: Domain, e: Event)
    requires e.kind == Create
    ensures ApplyDomain(d, e).Ok? <==> e.payload.CreatePayload? && !d.created && e.payload.maxTravel >= 0
    ensures ApplyDomain(d, e).Ok? ==>
      var r, p := ApplyDomain(d, e).value, e.payload;
      r.created && r.id == Some(p.choreography) && r.stage == Some(p.stage) && r.overlapAllowed == p.overlapAllowed &&
      r.maxTravel == p.maxTravel && r.dancers == d.dancers && r.formations == d.formations && r.music == d.music &&
      r.lights == d.lights
  {}

  lemma AddOutcome(d: Domain, e: Event)
    requires e.kind == AddDancer
    ensures ApplyDomain(d, e).Ok? <==>
      e.payload.DancerPayload? && Exists(d) && e.payload.dancer !in d.dancers && Inside(d, e.payload.position) &&
      Unoccupied(d, e.payload.position, e.payload.dancer)
    ensures ApplyDomain(d, e).Ok? ==>
      var r, p := ApplyDomain(d, e).value, e.payload;
      r == d.(dancers := r.dancers) && r.dancers == d.dancers[p.dancer := Dancer(p.position, true)]
  {}

  lemma RemoveOutcome(d: Domain, e: Event)
    requires e.kind == RemoveDancer
    ensures ApplyDomain(d, e).Ok? <==> e.payload.RemovePayload? && Exists(d) && Active(d, e.payload.dancer)
    ensures ApplyDomain(d, e).Ok? ==>
      var r, i := ApplyDomain(d, e).value, e.payload.dancer;
      r == d.(dancers := r.dancers) && r.dancers == d.dancers[i := Dancer(d.dancers[i].position, false)]
  {}

  lemma MoveOutcome(d: Domain, e: Event)
    requires e.kind == MoveDancer
    ensures ApplyDomain(d, e).Ok? <==>
      e.payload.DancerPayload? && Exists(d) && Active(d, e.payload.dancer) && Inside(d, e.payload.position) &&
      Unoccupied(d, e.payload.position, e.payload.dancer) &&
      Reaches(d, d.dancers[e.payload.dancer].position, e.payload.position)
    ensures ApplyDomain(d, e).Ok? ==>
      var r, p := ApplyDomain(d, e).value, e.payload;
      r == d.(dancers := r.dancers) && r.dancers == d.dancers[p.dancer := Dancer(p.position, true)]
  {}

  lemma {:induction false} MembersChecked(d: Domain, members: seq<Id>)
    ensures CheckMembers(d, members).None? <==> forall m :: m in members ==> Active(d, m)
    ensures CheckMembers(d, members) == Some(DancerNotFound) ==> exists m :: m in members && m !in d.dancers
    ensures CheckMembers(d, members) == Some(DancerInactive) ==>
      exists m :: m in members && m in d.dancers && !d.dancers[m].active
    ensures CheckMembers(d, members).Some? ==>
      CheckMembers(d, members).value == DancerNotFound || CheckMembers(d, members).value == DancerInactive
  {
    if members != [] {
      MembersChecked(d, members[1..]);
      assert members == [members[0]] + members[1..];
      assert members[0] in members && forall m :: m in members[1..] ==> m in members;
      if CheckMembers(d, members).None? {
        forall m | m in members
          ensures Active(d, m)
        {
          assert m == members[0] || m in members[1..];
        }
      }
    }
  }

  // A formation lists its members in order, each once.
  lemma FormationOutcome(d: Domain, e: Event)
    requires e.kind == DefineFormation || e.kind == ChangeFormation
    ensures ApplyDomain(d, e).Ok? <==>
      e.payload.FormationPayload? && Exists(d) && e.payload.members != [] &&
      (forall m :: m in e.payload.members ==> Active(d, m)) &&
      (e.payload.formation in d.formations <==> e.kind == ChangeFormation)
    ensures ApplyDomain(d, e).Ok? ==>
      var r, p := ApplyDomain(d, e).value, e.payload;
      p.formation in r.formations && r == d.(formations := d.formations[p.formation := r.formations[p.formation]]) &&
      Ascends(r.formations[p.formation]) && forall m :: m in r.formations[p.formation] <==> m in p.members
  {
    hide Sorted, Ascends;
    if e.payload.FormationPayload? {
      SortedAscends(e.payload.members);
      MembersChecked(d, Sorted(e.payload.members));
      NoneSorted(e.payload.members);
    }
  }

  lemma NoneSorted(ids: seq<Id>)
    ensures Sorted(ids) == [] <==> ids == []
  {
    SortedAscends(ids);
    if ids != [] {
      assert ids[0] in ids;
    }
  }

  predicate HasCue(d: Domain, cue: Id) {
    cue in d.music || cue in d.lights
  }

  // The cue exists and comes no later than tick.
  predicate DueBy(d: Domain, cue: Id, tick: nat) {
    if cue in d.music then d.music[cue].tick <= tick else cue in d.lights && d.lights[cue].tick <= tick
  }

  lemma CueOutcome(d: Domain, e: Event)
    requires e.kind == MusicCue || e.kind == LightingCue
    ensures ApplyDomain(d, e).Ok? <==>
      e.payload.CuePayload? && Exists(d) && !HasCue(d, e.payload.cue) &&
      (e.payload.dependsOn.Some? ==> DueBy(d, e.payload.dependsOn.value, e.tick))
    ensures ApplyDomain(d, e).Ok? ==>
      var r, added := ApplyDomain(d, e).value, Cue(e.tick, e.payload.dependsOn);
      if e.kind == MusicCue then r == d.(music := d.music[e.payload.cue := added])
      else r == d.(lights := d.lights[e.payload.cue := added])
  {}

  lemma MarkerOutcome(d: Domain, e: Event)
    requires e.kind == NoOp
    ensures ApplyDomain(d, e) == Ok(d)
  {}

  // An error says what is wrong.
  ghost predicate Justifies(d: Domain, e: Event, error: Error) {
    var p := e.payload;
    match error
    case UnsupportedType =>
      !(match e.kind
        case NoOp => true
        case Create => p.CreatePayload?
        case AddDancer => p.DancerPayload?
        case RemoveDancer => p.RemovePayload?
        case MoveDancer => p.DancerPayload?
        case DefineFormation => p.FormationPayload?
        case ChangeFormation => p.FormationPayload?
        case MusicCue => p.CuePayload?
        case LightingCue => p.CuePayload?)
    case ChoreographyExists => e.kind == Create && d.created
    case InvalidTravel => p.CreatePayload? && p.maxTravel < 0
    case ChoreographyNotFound => e.kind != Create && !Exists(d)
    case DancerExists => e.kind == AddDancer && p.DancerPayload? && p.dancer in d.dancers
    case DancerNotFound =>
      (p.DancerPayload? && p.dancer !in d.dancers) || (p.RemovePayload? && p.dancer !in d.dancers) ||
      (p.FormationPayload? && exists m :: m in p.members && m !in d.dancers)
    case DancerInactive =>
      (p.DancerPayload? && p.dancer in d.dancers && !d.dancers[p.dancer].active) ||
      (p.RemovePayload? && p.dancer in d.dancers && !d.dancers[p.dancer].active) ||
      (p.FormationPayload? && exists m :: m in p.members && m in d.dancers && !d.dancers[m].active)
    case OutOfBounds => p.DancerPayload? && !Inside(d, p.position)
    case PositionOccupied => p.DancerPayload? && !Unoccupied(d, p.position, p.dancer)
    case TravelTooFar =>
      e.kind == MoveDancer && p.DancerPayload? && p.dancer in d.dancers &&
      !Reaches(d, d.dancers[p.dancer].position, p.position)
    case InvalidFormation => p.FormationPayload? && p.members == []
    case FormationExists => e.kind == DefineFormation && p.FormationPayload? && p.formation in d.formations
    case FormationNotFound => e.kind == ChangeFormation && p.FormationPayload? && p.formation !in d.formations
    case CueExists => p.CuePayload? && HasCue(d, p.cue)
    case CueDependencyUnmet => p.CuePayload? && p.dependsOn.Some? && !DueBy(d, p.dependsOn.value, e.tick)
    case _ => false
  }

  lemma ErrorMeans(d: Domain, e: Event)
    requires ApplyDomain(d, e).Err?
    ensures Justifies(d, e, ApplyDomain(d, e).error)
  {
    hide Sorted, CheckMembers;
    if e.kind == DefineFormation || e.kind == ChangeFormation {
      if e.payload.FormationPayload? {
        FormationError(d, e);
      }
    }
  }

  lemma FormationError(d: Domain, e: Event)
    requires (e.kind == DefineFormation || e.kind == ChangeFormation) && e.payload.FormationPayload?
    requires ApplyDomain(d, e).Err?
    ensures Justifies(d, e, ApplyDomain(d, e).error)
  {
    hide Sorted, CheckMembers;
    SortedAscends(e.payload.members);
    MembersChecked(d, Sorted(e.payload.members));
    NoneSorted(e.payload.members);
  }

  // ---------------------------------------------------------------- every choreography

  // Everybody stands on the stage, and active dancers on marks of their own unless
  // overlap is allowed.
  ghost predicate Placed(d: Domain) {
    (forall i :: i in d.dancers ==> Inside(d, d.dancers[i].position)) &&
    (!d.overlapAllowed ==> forall i, j :: Active(d, i) && Active(d, j) && i != j ==>
      d.dancers[i].position != d.dancers[j].position)
  }

  // Formations are lists of known dancers, in order.
  ghost predicate Formed(d: Domain) {
    forall f :: f in d.formations ==>
      d.formations[f] != [] && Ascends(d.formations[f]) && forall m :: m in d.formations[f] ==> m in d.dancers
  }

  predicate DependencyDue(d: Domain, c: Cue) {
    c.dependsOn.Some? ==> DueBy(d, c.dependsOn.value, c.tick)
  }

  // A cue has one kind, and what it depends on comes no later.
  ghost predicate Cued(d: Domain) {
    (forall c :: c in d.music ==> c !in d.lights && DependencyDue(d, d.music[c])) &&
    (forall c :: c in d.lights ==> DependencyDue(d, d.lights[c]))
  }

  ghost predicate Coherent(d: Domain) {
    Placed(d) && Formed(d) && Cued(d) &&
    (!d.created ==> d.dancers == map[] && d.formations == map[] && d.music == map[] && d.lights == map[])
  }

  lemma DancersCohere(d: Domain, r: Domain, i: Id, x: Dancer)
    requires Coherent(d) && d.created && r == d.(dancers := d.dancers[i := x])
    requires Inside(d, x.position) && (x.active ==> Unoccupied(d, x.position, i))
    ensures Coherent(r)
  {
    hide Ascends;
    forall f | f in r.formations
      ensures r.formations[f] != [] && Ascends(r.formations[f]) && forall m :: m in r.formations[f] ==> m in r.dancers
    {
      assert d.formations[f] != [];
    }
    assert Cued(r) by { CuesAlike(d, r); }
  }

  lemma CuesAlike(d: Domain, r: Domain)
    requires Cued(d) && r.music == d.music && r.lights == d.lights
    ensures Cued(r)
  {}

  lemma FormationCoheres(d: Domain, r: Domain, f: Id, members: seq<Id>)
    requires Coherent(d) && d.created && r == d.(formations := d.formations[f := members])
    requires members != [] && Ascends(members) && forall m :: m in members ==> Active(d, m)
    ensures Coherent(r)
  {
    hide Ascends;
    CuesAlike(d, r);
  }

  lemma CueCoheres(d: Domain, r: Domain, music: bool, i: Id, c: Cue)
    requires Coherent(d) && d.created && !HasCue(d, i) && DependencyDue(d, c)
    requires r == if music then d.(music := d.music[i := c]) else d.(lights := d.lights[i := c])
    ensures Coherent(r)
  {
    hide Ascends;
    forall x: Cue | DependencyDue(d, x)
      ensures DependencyDue(r, x)
    {}
  }

  // Every accepted event keeps a choreography coherent.
  lemma EventCoheres(d: Domain, e: Event)
    requires Coherent(d) && ApplyDomain(d, e).Ok?
    ensures Coherent(ApplyDomain(d, e).value)
  {
    hide ApplyDomain, Coherent, Sorted, Ascends, Unoccupied;
    var r := ApplyDomain(d, e).value;
    match e.kind
    case NoOp => MarkerOutcome(d, e);
    case Create =>
      CreateOutcome(d, e);
      CreateCoheres(d, r);
    case AddDancer =>
      AddOutcome(d, e);
      DancersCohere(d, r, e.payload.dancer, Dancer(e.payload.position, true));
    case RemoveDancer =>
      RemoveOutcome(d, e);
      PlacedInside(d, e.payload.dancer);
      DancersCohere(d, r, e.payload.dancer, Dancer(d.dancers[e.payload.dancer].position, false));
    case MoveDancer =>
      MoveOutcome(d, e);
      DancersCohere(d, r, e.payload.dancer, Dancer(e.payload.position, true));
    case DefineFormation =>
      FormationOutcome(d, e);
      FormationKept(d, e, r);
    case ChangeFormation =>
      FormationOutcome(d, e);
      FormationKept(d, e, r);
    case MusicCue =>
      CueOutcome(d, e);
      CueCoheres(d, r, true, e.payload.cue, Cue(e.tick, e.payload.dependsOn));
    case LightingCue =>
      CueOutcome(d, e);
      CueCoheres(d, r, false, e.payload.cue, Cue(e.tick, e.payload.dependsOn));
  }

  lemma PlacedInside(d: Domain, i: Id)
    requires Coherent(d) && i in d.dancers
    ensures Inside(d, d.dancers[i].position)
  {}

  lemma CreateCoheres(d: Domain, r: Domain)
    requires Coherent(d) && !d.created && r.dancers == d.dancers && r.formations == d.formations
    requires r.music == d.music && r.lights == d.lights && r.created
    ensures Coherent(r)
  {}

  lemma FormationKept(d: Domain, e: Event, r: Domain)
    requires Coherent(d) && e.payload.FormationPayload? && Exists(d) && e.payload.formation in r.formations
    requires r == d.(formations := d.formations[e.payload.formation := r.formations[e.payload.formation]])
    requires Ascends(r.formations[e.payload.formation]) && e.payload.members != []
    requires forall m :: m in r.formations[e.payload.formation] <==> m in e.payload.members
    requires forall m :: m in e.payload.members ==> Active(d, m)
    ensures Coherent(r)
  {
    hide Ascends, Coherent;
    assert e.payload.members[0] in e.payload.members;
    FormationCoheres(d, r, e.payload.formation, r.formations[e.payload.formation]);
  }

  // ---------------------------------------------------------------- applying

  // An event is applied exactly if its schema is known, it is new, its index is
  // the next one and the choreography accepts it. It is then remembered, and an
  // event other than a marker leaves a receipt.
  lemma ApplyOutcome(h: Fingerprint, s: State, e: Event)
    requires e.id !in s.events && e.commandId !in s.commands && e.commandId !in s.receipts
    ensures Apply(h, s, e).Ok? <==>
      e.schema == SCHEMA && e.index == s.lastApplied + 1 && ApplyDomain(s.domain, e).Ok?
    ensures Apply(h, s, e).Ok? ==>
      var t := Apply(h, s, e).value;
      t.domain == ApplyDomain(s.domain, e).value && t.lastApplied == e.index && t.term == e.term &&
      t.events == s.events[e.id := e] && t.commands == s.commands[e.commandId := e.id] &&
      if e.kind == NoOp then t.receipts == s.receipts
      else
        e.commandId in t.receipts && t.receipts == s.receipts[e.commandId := t.receipts[e.commandId]] &&
        t.receipts[e.commandId].index == e.index && t.receipts[e.commandId].term == e.term
  {
    hide ApplyDomain, FingerprintOf;
  }

  // Applying a remembered event again changes nothing; anything else under its id
  // or its command is refused.
  lemma ApplyAgain(h: Fingerprint, s: State, e: Event)
    requires e.schema == SCHEMA && e.id in s.events
    ensures Apply(h, s, e) == if s.events[e.id] == e then Ok(s) else Err(ConflictingEvent)
  {
    hide ApplyDomain;
  }

  // Where only the receipt is kept, an event is recognised by its index, term and
  // fingerprint; a command without a receipt cannot come back.
  lemma ApplyReceipted(h: Fingerprint, s: State, e: Event)
    requires e.schema == SCHEMA && e.id !in s.events && (e.commandId in s.receipts || e.commandId in s.commands)
    ensures
      var same := e.commandId in s.receipts && e.kind != NoOp && s.receipts[e.commandId].index == e.index &&
        s.receipts[e.commandId].term == e.term && s.receipts[e.commandId].fingerprint == FingerprintOf(h, CommandOf(e));
      Apply(h, s, e) == if same then Ok(s) else Err(ConflictingEvent)
  {
    hide ApplyDomain, FingerprintOf;
  }

  lemma StepCoheres(h: Fingerprint, s: State, e: Event)
    requires Coherent(s.domain) && Apply(h, s, e).Ok?
    ensures Coherent(Apply(h, s, e).value.domain)
  {
    hide ApplyDomain, Coherent, FingerprintOf;
    if ApplyDomain(s.domain, e).Ok? {
      EventCoheres(s.domain, e);
    }
  }

  lemma {:induction false} AllCoheres(h: Fingerprint, s: State, events: seq<Event>)
    requires Coherent(s.domain) && ApplyAll(h, s, events).Ok?
    ensures Coherent(ApplyAll(h, s, events).value.domain)
    decreases |events|
  {
    hide Apply, Coherent;
    if events != [] {
      StepCoheres(h, s, events[0]);
      AllCoheres(h, Apply(h, s, events[0]).value, events[1..]);
    }
  }

  // Every replayed log leads to a coherent choreography.
  lemma ReplayCoheres(h: Fingerprint, log: seq<Event>)
    requires Replay(h, log).Ok?
    ensures Coherent(Replay(h, log).value.domain)
  {
    hide ApplyAll;
    EmptyCoheres();
    AllCoheres(h, EMPTY, log);
  }

  lemma EmptyCoheres()
    ensures Coherent(EMPTY_DOMAIN)
  {}
}
