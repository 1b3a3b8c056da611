// The choreography state machine: commands, events, applying and replaying.
module Choreography {
  import opened Logs
  import opened Transition
  import opened Journal

  const SCHEMA: nat := 1

  datatype Position = Position(x: nat, y: nat)
  datatype Stage = Stage(width: nat, depth: nat)
  datatype Dancer = Dancer(position: Position, active: bool)
  datatype Cue = Cue(tick: nat, dependsOn: Option<Id>)

  datatype Payload =
    | CreatePayload(choreography: Id, stage: Stage, overlapAllowed: bool, maxTravel: int)
    | DancerPayload(dancer: Id, position: Position)
    | RemovePayload(dancer: Id)
    | FormationPayload(formation: Id, members: seq<Id>)
    | CuePayload(cue: Id, dependsOn: Option<Id>)

  datatype Kind =
    | Create | AddDancer | RemoveDancer | MoveDancer | DefineFormation | ChangeFormation | MusicCue | LightingCue | NoOp

  datatype Command = Command(id: Id, choreography: Id, kind: Kind, schema: nat, tick: nat, payload: Payload)

  datatype Event = Event(
    id: Id, commandId: Id, choreography: Id, kind: Kind, schema: nat, tick: nat, index: U64, term: U64,
    payload: Payload)

  // What is kept of a committed command for retries.
  datatype Receipt = Receipt(index: U64, term: U64, fingerprint: U64)

  // Any deterministic 64-bit fingerprint of a command.
  type Fingerprint = Command -> U64

  datatype Domain = Domain(
    created: bool,
    id: Option<Id>,
    stage: Option<Stage>,
    overlapAllowed: bool,
    maxTravel: int,
    dancers: map<Id, Dancer>,
    formations: map<Id, seq<Id>>,
    music: map<Id, Cue>,
    lights: map<Id, Cue>)

  const EMPTY_DOMAIN := Domain(false, None, None, false, 0, map[], map[], map[], map[])

  // Domain plus what is remembered about past events. An applied event stands
  // for its canonical text.
  datatype State = State(
    domain: Domain,
    lastApplied: nat,
    term: nat,
    events: map<Id, Event>,
    commands: map<Id, Id>,
    receipts: map<Id, Receipt>)

  const EMPTY := State(EMPTY_DOMAIN, 0, 1, map[], map[], map[])

  datatype Error =
    | UnsupportedVersion | ConflictingEvent | IndexGap | UnsupportedType | ChoreographyExists | ChoreographyNotFound
    | InvalidTravel | DancerExists | DancerNotFound | DancerInactive | OutOfBounds | PositionOccupied | TravelTooFar
    | InvalidFormation | FormationExists | FormationNotFound | CueExists | CueDependencyUnmet | DuplicateCommand
    | CommandConflict | OutcomeUnavailable

  datatype Result<T> = Ok(value: T) | Err(error: Error)

  // ---------------------------------------------------------------- domain rules

  predicate Ready(d: Domain) {
    d.created && d.id.Some? && d.stage.Some?
  }

  predicate OnStage(s: Stage, p: Position) {
    p.x <= s.width && p.y <= s.depth
  }

  predicate Occupied(d: Domain, p: Position, except: Option<Id>) {
    exists i :: i in d.dancers && d.dancers[i].active && Some(i) != except && d.dancers[i].position == p
  }

  function Square(a: int): int { a * a }

  predicate WithinTravel(a: Position, b: Position, limit: int) {
    Square(b.x - a.x) + Square(b.y - a.y) <= Square(limit)
  }

  function FindCue(d: Domain, cue: Id): Option<Cue> {
    if cue in d.music then Some(d.music[cue]) else if cue in d.lights then Some(d.lights[cue]) else None
  }

  function ApplyCreate(d: Domain, p: Payload): Result<Domain>
    requires p.CreatePayload?
  {
    if d.created then Err(ChoreographyExists)
    else if p.maxTravel < 0 then Err(InvalidTravel)
    else Ok(d.(created := true, id := Some(p.choreography), stage := Some(p.stage), overlapAllowed := p.overlapAllowed,
               maxTravel := p.maxTravel))
  }

  function ApplyAdd(d: Domain, p: Payload): Result<Domain>
    requires p.DancerPayload?
  {
    if !Ready(d) then Err(ChoreographyNotFound)
    else if p.dancer in d.dancers then Err(DancerExists)
    else if !OnStage(d.stage.value, p.position) then Err(OutOfBounds)
    else if !d.overlapAllowed && Occupied(d, p.position, None) then Err(PositionOccupied)
    else Ok(d.(dancers := d.dancers[p.dancer := Dancer(p.position, true)]))
  }

  function ApplyRemove(d: Domain, p: Payload): Result<Domain>
    requires p.RemovePayload?
  {
    if !Ready(d) then Err(ChoreographyNotFound)
    else if p.dancer !in d.dancers then Err(DancerNotFound)
    else if !d.dancers[p.dancer].active then Err(DancerInactive)
    else Ok(d.(dancers := d.dancers[p.dancer := d.dancers[p.dancer].(active := false)]))
  }

  function ApplyMove(d: Domain, p: Payload): Result<Domain>
    requires p.DancerPayload?
  {
    if !Ready(d) then Err(ChoreographyNotFound)
    else if p.dancer !in d.dancers then Err(DancerNotFound)
    else if !d.dancers[p.dancer].active then Err(DancerInactive)
    else if !OnStage(d.stage.value, p.position) then Err(OutOfBounds)
    else if !WithinTravel(d.dancers[p.dancer].position, p.position, d.maxTravel) then Err(TravelTooFar)
    else if !d.overlapAllowed && Occupied(d, p.position, Some(p.dancer)) then Err(PositionOccupied)
    else Ok(d.(dancers := d.dancers[p.dancer := d.dancers[p.dancer].(position := p.position)]))
  }

  function CheckMembers(d: Domain, members: seq<Id>): Option<Error> {
    if members == [] then None
    else if members[0] !in d.dancers then Some(DancerNotFound)
    else if !d.dancers[members[0]].active then Some(DancerInactive)
    else CheckMembers(d, members[1..])
  }

  function ApplyFormation(d: Domain, define: bool, p: Payload): Result<Domain>
    requires p.FormationPayload?
  {
    var members := Sorted(p.members);
    if !Ready(d) then Err(ChoreographyNotFound)
    else if members == [] then Err(InvalidFormation)
    else if CheckMembers(d, members).Some? then Err(CheckMembers(d, members).value)
    else if define && p.formation in d.formations then Err(FormationExists)
    else if !define && p.formation !in d.formations then Err(FormationNotFound)
    else Ok(d.(formations := d.formations[p.formation := members]))
  }

  function ApplyCue(d: Domain, music: bool, p: Payload, tick: nat): Result<Domain>
    requires p.CuePayload?
  {
    if !Ready(d) then Err(ChoreographyNotFound)
    else if FindCue(d, p.cue).Some? then Err(CueExists)
    else if p.dependsOn.Some? &&
            (FindCue(d, p.dependsOn.value).None? || tick < FindCue(d, p.dependsOn.value).value.tick)
    then Err(CueDependencyUnmet)
    else if music then Ok(d.(music := d.music[p.cue := Cue(tick, p.dependsOn)]))
    else Ok(d.(lights := d.lights[p.cue := Cue(tick, p.dependsOn)]))
  }

  function ApplyDomain(d: Domain, e: Event): Result<Domain> {
    match e.kind
    case NoOp => Ok(d)
    case Create => if e.payload.CreatePayload? then ApplyCreate(d, e.payload) else Err(UnsupportedType)
    case AddDancer => if e.payload.DancerPayload? then ApplyAdd(d, e.payload) else Err(UnsupportedType)
    case RemoveDancer => if e.payload.RemovePayload? then ApplyRemove(d, e.payload) else Err(UnsupportedType)
    case MoveDancer => if e.payload.DancerPayload? then ApplyMove(d, e.payload) else Err(UnsupportedType)
    case DefineFormation =>
      if e.payload.FormationPayload? then ApplyFormation(d, true, e.payload) else Err(UnsupportedType)
    case ChangeFormation =>
      if e.payload.FormationPayload? then ApplyFormation(d, false, e.payload) else Err(UnsupportedType)
    case MusicCue => if e.payload.CuePayload? then ApplyCue(d, true, e.payload, e.tick) else Err(UnsupportedType)
    case LightingCue => if e.payload.CuePayload? then ApplyCue(d, false, e.payload, e.tick) else Err(UnsupportedType)
  }

  // ---------------------------------------------------------------- receipts

  function NormalPayload(p: Payload): Payload {
    if p.FormationPayload? then p.(members := Sorted(p.members)) else p
  }

  function Normal(c: Command): Command {
    c.(payload := NormalPayload(c.payload))
  }

  // Fingerprints ignore the order and repetition of formation members.
  function FingerprintOf(h: Fingerprint, c: Command): U64 {
    h(Normal(c))
  }

  function CommandOf(e: Event): Command {
    Command(e.commandId, e.choreography, e.kind, e.schema, e.tick, e.payload)
  }

  function ReceiptOf(h: Fingerprint, e: Event): Receipt {
    Receipt(e.index, e.term, if e.kind == NoOp then 0 else FingerprintOf(h, CommandOf(e)))
  }

  // ---------------------------------------------------------------- applying

  datatype Seen = New | Repeated | Conflict

  // Is e an event this state has already applied?
  function Existing(h: Fingerprint, s: State, e: Event): Seen {
    if e.id in s.events then if s.events[e.id] == e then Repeated else Conflict
    else if e.commandId in s.receipts then
      if e.kind != NoOp && s.receipts[e.commandId] == ReceiptOf(h, e) then Repeated else Conflict
    else if e.commandId in s.commands then Conflict
    else New
  }

  // Record e after its domain change d.
  function Recorded(h: Fingerprint, s: State, d: Domain, e: Event): State {
    State(d, e.index, e.term,
          s.events[e.id := e],
          if e.commandId in s.commands then s.commands else s.commands[e.commandId := e.id],
          if e.kind == NoOp then s.receipts else s.receipts[e.commandId := ReceiptOf(h, e)])
  }

  // Apply e to s; `baseline` is further history to check against.
  function ApplyAgainst(h: Fingerprint, s: State, e: Event, baseline: Option<State>): Result<State> {
    if e.schema != SCHEMA then Err(UnsupportedVersion)
    else match Existing(h, s, e)
    case Conflict => Err(ConflictingEvent)
    case Repeated => Ok(s)
    case New =>
      match (if baseline.Some? then Existing(h, baseline.value, e) else New)
      case Conflict => Err(ConflictingEvent)
      case Repeated => Ok(s)
      case New =>
        if e.index != s.lastApplied + 1 then Err(IndexGap)
        else match ApplyDomain(s.domain, e)
        case Err(error) => Err(error)
        case Ok(d) => Ok(Recorded(h, s, d, e))
  }

  function Apply(h: Fingerprint, s: State, e: Event): Result<State> {
    ApplyAgainst(h, s, e, None)
  }

  function ApplyAll(h: Fingerprint, s: State, events: seq<Event>): Result<State>
    decreases |events|
  {
    if events == [] then Ok(s)
    else match Apply(h, s, events[0])
    case Err(error) => Err(error)
    case Ok(next) => ApplyAll(h, next, events[1..])
  }

  function Replay(h: Fingerprint, events: seq<Event>): Result<State> {
    ApplyAll(h, EMPTY, events)
  }

  lemma {:induction false} ApplySplit(h: Fingerprint, s: State, a: seq<Event>, b: seq<Event>)
    ensures ApplyAll(h, s, a + b) ==
            match ApplyAll(h, s, a) case Err(error) => Err(error) case Ok(next) => ApplyAll(h, next, b)
    decreases |a|
  {
    hide Apply;
    if a == [] {
      assert a + b == b;
    } else {
      assert (a + b)[1..] == a[1..] + b;
      match Apply(h, s, a[0])
      case Err(_) =>
      case Ok(next) => ApplySplit(h, next, a[1..], b);
    }
  }

  // ---------------------------------------------------------------- reachable states

  // Remembered events and receipts lie within the applied prefix, and receipts
  // have distinct indexes.
  predicate HistoryOK(s: State) {
    (forall i :: i in s.events ==> s.events[i].index <= s.lastApplied) &&
    (forall i :: i in s.receipts ==> 1 <= s.receipts[i].index <= s.lastApplied && s.receipts[i].term >= 1) &&
    (forall i, j :: i in s.receipts && j in s.receipts && s.receipts[i].index == s.receipts[j].index ==> i == j)
  }

  lemma ApplyKeeps(h: Fingerprint, s: State, e: Event)
    requires HistoryOK(s) && Apply(h, s, e).Ok? && e.term >= 1
    ensures HistoryOK(Apply(h, s, e).value)
  {
    hide ApplyDomain, FingerprintOf;
  }

  // An event with the next index has not been applied before.
  lemma NextIsNew(h: Fingerprint, s: State, e: Event)
    requires HistoryOK(s) && e.index == s.lastApplied + 1
    ensures Existing(h, s, e) != Repeated
  {}

  predicate Contiguous(events: seq<Event>, first: nat) {
    forall k :: 0 <= k < |events| ==> events[k].index == first + k && events[k].term >= 1
  }
}
