// Snapshot payloads: what is written, what is read back, and replay from there.
module ChoreographySnapshot {
  import opened Logs
  import opened Transition
  import opened Choreography
  import opened Receipts

  const MAX_STAGE: nat := 1000000

  // One line of a version 3 payload, split into its fields. Absent ids and
  // dependencies are written as "-".
  datatype Line =
    | HeaderLine(version: nat)
    | SchemaLine(schema: nat)
    | CreatedLine(created: bool)
    | ChoreographyLine(text: string)
    | StageLine(stage: Option<Stage>)
    | OverlapLine(allowed: bool)
    | TravelLine(limit: int)
    | LastAppliedLine(index: nat)
    | StateTermLine(term: nat)
    | DancerLine(id: Id, dancer: Dancer)
    | FormationLine(id: Id, members: seq<Id>)
    | MusicLine(id: Id, tick: nat, depends: string)
    | LightLine(id: Id, tick: nat, depends: string)
    | ReceiptPart(line: ReceiptLine)
    | LegacyLine(id: Id)

  function Marked(t: Option<Id>): string {
    if t.Some? then t.value else "-"
  }

  // ---------------------------------------------------------------- writing

  // The order in which a payload lists the maps.
  datatype Printing = Printing(
    dancers: seq<Id>,
    formations: seq<Id>,
    music: seq<Id>,
    lights: seq<Id>,
    receipts: seq<Numbered>,
    legacy: seq<Id>)

  predicate Lists(l: seq<Id>, keys: set<Id>) {
    (forall i :: i in l ==> i in keys) && (forall i :: i in keys ==> i in l) &&
    forall j, k :: 0 <= j < k < |l| ==> l[j] != l[k]
  }

  // Commands remembered without a receipt, other than election markers.
  function LegacyIds(s: State): set<Id> {
    set i | i in s.commands && i !in s.receipts && !("noop-" <= s.commands[i])
  }

  predicate Prints(p: Printing, s: State) {
    Lists(p.dancers, s.domain.dancers.Keys) && Lists(p.formations, s.domain.formations.Keys) &&
    Lists(p.music, s.domain.music.Keys) && Lists(p.lights, s.domain.lights.Keys) &&
    Enumerates(p.receipts, s.receipts) && Lists(p.legacy, LegacyIds(s))
  }

  function Fixed(s: State): seq<Line> {
    [SchemaLine(SCHEMA), CreatedLine(s.domain.created), ChoreographyLine(Marked(s.domain.id)), StageLine(s.domain.stage),
     OverlapLine(s.domain.overlapAllowed), TravelLine(s.domain.maxTravel), LastAppliedLine(s.lastApplied),
     StateTermLine(s.term)]
  }

  function DancerLines(l: seq<Id>, m: map<Id, Dancer>): seq<Line>
    requires forall i :: i in l ==> i in m
  {
    if l == [] then [] else [DancerLine(l[0], m[l[0]])] + DancerLines(l[1..], m)
  }

  function FormationLines(l: seq<Id>, m: map<Id, seq<Id>>): seq<Line>
    requires forall i :: i in l ==> i in m
  {
    if l == [] then [] else [FormationLine(l[0], m[l[0]])] + FormationLines(l[1..], m)
  }

  function CueLine(music: bool, id: Id, c: Cue): Line {
    if music then MusicLine(id, c.tick, Marked(c.dependsOn)) else LightLine(id, c.tick, Marked(c.dependsOn))
  }

  function CueLines(music: bool, l: seq<Id>, m: map<Id, Cue>): seq<Line>
    requires forall i :: i in l ==> i in m
  {
    if l == [] then [] else [CueLine(music, l[0], m[l[0]])] + CueLines(music, l[1..], m)
  }

  function ReceiptParts(lines: seq<ReceiptLine>): seq<Line> {
    if lines == [] then [] else [ReceiptPart(lines[0])] + ReceiptParts(lines[1..])
  }

  function LegacyLines(l: seq<Id>): seq<Line> {
    if l == [] then [] else [LegacyLine(l[0])] + LegacyLines(l[1..])
  }

  // Everything after the header.
  function Content(s: State, p: Printing): seq<Line>
    requires Prints(p, s)
  {
    Fixed(s) + DancerLines(p.dancers, s.domain.dancers) + FormationLines(p.formations, s.domain.formations) +
    CueLines(true, p.music, s.domain.music) + CueLines(false, p.lights, s.domain.lights) +
    ReceiptParts(Lines(p.receipts, 0, 1)) + LegacyLines(p.legacy)
  }

  function Snapshot(s: State, p: Printing): seq<Line>
    requires Prints(p, s)
  {
    [HeaderLine(3)] + Content(s, p)
  }

  // ---------------------------------------------------------------- reading

  // A state being read; its receipts are those found so far.
  datatype Partial = Partial(state: State, index: nat, term: nat)

  predicate StageOK(s: Stage) {
    0 < s.width <= MAX_STAGE && 0 < s.depth <= MAX_STAGE
  }

  predicate PositionOK(p: Position) {
    p.x <= MAX_STAGE && p.y <= MAX_STAGE
  }

  function ReadDependency(text: string): Option<Option<Id>> {
    if text == "-" || text == "" then Some(None) else if ValidId(text) then Some(Some(text)) else None
  }

  function ReadReceipt(p: Partial, line: ReceiptLine): Option<Partial> {
    match ReadLine(Cursor(p.index, p.term, p.state.receipts), line, p.state.lastApplied)
    case None => None
    case Some(c) =>
      Some(Partial(p.state.(receipts := c.receipts,
                            commands := if line.EntryLine? then p.state.commands[line.id := line.id] else p.state.commands),
                   c.index, c.term))
  }

  function RestoreLine(p: Partial, line: Line): Option<Partial> {
    var s := p.state;
    match line
    case HeaderLine(_) => None
    case SchemaLine(schema) => if schema == SCHEMA then Some(p) else None
    case CreatedLine(created) => Some(p.(state := s.(domain := s.domain.(created := created))))
    case ChoreographyLine(text) =>
      if text == "-" then Some(p)
      else if ValidId(text) then Some(p.(state := s.(domain := s.domain.(id := Some(text))))) else None
    case StageLine(stage) =>
      if stage.None? then Some(p)
      else if StageOK(stage.value) then Some(p.(state := s.(domain := s.domain.(stage := stage)))) else None
    case OverlapLine(allowed) => Some(p.(state := s.(domain := s.domain.(overlapAllowed := allowed))))
    case TravelLine(limit) => Some(p.(state := s.(domain := s.domain.(maxTravel := limit))))
    case LastAppliedLine(index) => Some(p.(state := s.(lastApplied := index)))
    case StateTermLine(term) => if term == 0 then None else Some(p.(state := s.(term := term)))
    case DancerLine(id, dancer) =>
      if PositionOK(dancer.position)
      then Some(p.(state := s.(domain := s.domain.(dancers := s.domain.dancers[id := dancer])))) else None
    case FormationLine(id, members) =>
      if forall m :: m in members ==> ValidId(m)
      then Some(p.(state := s.(domain := s.domain.(formations := s.domain.formations[id := members])))) else None
    case MusicLine(id, tick, depends) =>
      if ReadDependency(depends).None? then None
      else Some(p.(state := s.(domain := s.domain.(
             music := s.domain.music[id := Cue(tick, ReadDependency(depends).value)]))))
    case LightLine(id, tick, depends) =>
      if ReadDependency(depends).None? then None
      else Some(p.(state := s.(domain := s.domain.(
             lights := s.domain.lights[id := Cue(tick, ReadDependency(depends).value)]))))
    case ReceiptPart(l) => ReadReceipt(p, l)
    case LegacyLine(id) =>
      if !ValidId(id) || id in s.commands then None else Some(p.(state := s.(commands := s.commands[id := id])))
  }

  function RestoreAll(p: Partial, lines: seq<Line>): Option<Partial>
    decreases |lines|
  {
    if lines == [] then Some(p)
    else match RestoreLine(p, lines[0])
    case None => None
    case Some(next) => RestoreAll(next, lines[1..])
  }

  function Restore(lines: seq<Line>): Option<State> {
    if lines == [] || lines[0] != HeaderLine(3) then None
    else match RestoreAll(Partial(EMPTY, 0, 1), lines[1..])
    case None => None
    case Some(p) => Some(p.state)
  }

  lemma {:induction false} RestoreSplit(p: Partial, a: seq<Line>, b: seq<Line>)
    ensures RestoreAll(p, a + b) ==
            if RestoreAll(p, a).None? then None else RestoreAll(RestoreAll(p, a).value, b)
    decreases |a|
  {
    hide RestoreLine;
    if a == [] {
      assert a + b == b;
    } else {
      assert (a + b)[1..] == a[1..] + b;
      var next := RestoreLine(p, a[0]);
      if next.Some? {
        RestoreSplit(next.value, a[1..], b);
      }
    }
  }

  // ---------------------------------------------------------------- what survives

  // "-" means absent.
  function Undash(t: Option<Id>): Option<Id> {
    if t == Some("-") then None else t
  }

  function UndashCues(m: map<Id, Cue>): map<Id, Cue> {
    map i | i in m :: m[i].(dependsOn := Undash(m[i].dependsOn))
  }

  function Undashed(d: Domain): Domain {
    d.(id := Undash(d.id), music := UndashCues(d.music), lights := UndashCues(d.lights))
  }

  predicate DashFree(d: Domain) {
    d.id != Some("-") && (forall i :: i in d.music ==> d.music[i].dependsOn != Some("-")) &&
    (forall i :: i in d.lights ==> d.lights[i].dependsOn != Some("-"))
  }

  // The format loses exactly the ids that look like its own marker.
  lemma DashExactly(d: Domain)
    ensures Undashed(d) == d <==> DashFree(d)
  {
    if Undashed(d) == d {
      assert forall i :: i in d.music ==> UndashCues(d.music)[i] == d.music[i];
      assert forall i :: i in d.lights ==> UndashCues(d.lights)[i] == d.lights[i];
    }
    if DashFree(d) {
      assert UndashCues(d.music) == d.music;
      assert UndashCues(d.lights) == d.lights;
    }
  }

  predicate CuesOK(m: map<Id, Cue>) {
    forall i :: i in m && m[i].dependsOn.Some? ==> ValidId(m[i].dependsOn.value)
  }

  predicate DomainOK(d: Domain) {
    (d.id.Some? ==> d.created && ValidId(d.id.value)) && (d.stage.Some? ==> StageOK(d.stage.value)) &&
    (forall i :: i in d.dancers ==> PositionOK(d.dancers[i].position)) &&
    (forall i, m :: i in d.formations && m in d.formations[i] ==> ValidId(m)) && CuesOK(d.music) && CuesOK(d.lights)
  }

  // States built from events with valid ids.
  predicate StateOK(s: State) {
    HistoryOK(s) && DomainOK(s.domain) && s.term >= 1 && (forall i :: i in s.receipts ==> ValidId(i)) &&
    (forall i :: i in s.commands ==> ValidId(i))
  }

  // What reading a snapshot of s gives.
  function Restored(s: State): State {
    State(Undashed(s.domain), s.lastApplied, s.term, map[], map i | i in s.receipts.Keys + LegacyIds(s) :: i, s.receipts)
  }

  // ---------------------------------------------------------------- segments

  function Collect<V>(l: seq<Id>, m: map<Id, V>, acc: map<Id, V>): map<Id, V>
    requires forall i :: i in l ==> i in m
  {
    if l == [] then acc else Collect(l[1..], m, acc[l[0] := m[l[0]]])
  }

  lemma {:induction false} CollectHas<V>(l: seq<Id>, m: map<Id, V>, acc: map<Id, V>, i: Id)
    requires forall j :: j in l ==> j in m
    ensures i in Collect(l, m, acc) <==> i in l || i in acc
    ensures i in l ==> Collect(l, m, acc)[i] == m[i]
    ensures i !in l && i in acc ==> Collect(l, m, acc)[i] == acc[i]
    decreases |l|
  {
    if l != [] {
      CollectHas(l[1..], m, acc[l[0] := m[l[0]]], i);
      assert i in l <==> i == l[0] || i in l[1..];
    }
  }

  lemma CollectAll<V>(l: seq<Id>, m: map<Id, V>)
    requires Lists(l, m.Keys)
    ensures Collect(l, m, map[]) == m
  {
    hide Collect;
    forall i
      ensures i in Collect(l, m, map[]) <==> i in m
      ensures i in m ==> Collect(l, m, map[])[i] == m[i]
    {
      CollectHas(l, m, map[], i);
    }
  }

  // Reading line by line through the given states.
  lemma {:induction false} Chain(ps: seq<Partial>, lines: seq<Line>)
    requires |ps| == |lines| + 1 && forall k :: 0 <= k < |lines| ==> RestoreLine(ps[k], lines[k]) == Some(ps[k + 1])
    ensures RestoreAll(ps[0], lines) == Some(ps[|lines|])
    decreases |lines|
  {
    hide RestoreLine;
    if lines != [] {
      Chain(ps[1..], lines[1..]);
    }
  }

  // The state after the fixed lines: everything but the maps.
  function Skeleton(s: State): State {
    State(s.domain.(id := Undash(s.domain.id), dancers := map[], formations := map[], music := map[], lights := map[]),
          s.lastApplied, s.term, map[], map[], map[])
  }

  lemma FixedRead(s: State)
    requires DomainOK(s.domain) && s.term >= 1
    ensures RestoreAll(Partial(EMPTY, 0, 1), Fixed(s)) == Some(Partial(Skeleton(s), 0, 1))
  {
    hide RestoreAll, ValidId, CuesOK;
    var d, t := s.domain, Skeleton(s);
    var d1 := EMPTY_DOMAIN.(created := d.created);
    var d2 := d1.(id := Undash(d.id));
    var d3 := d2.(stage := d.stage);
    var d4 := d3.(overlapAllowed := d.overlapAllowed);
    var d5 := d4.(maxTravel := d.maxTravel);
    assert d5 == t.domain;
    var ps := [Partial(EMPTY, 0, 1), Partial(EMPTY, 0, 1), Partial(EMPTY.(domain := d1), 0, 1),
               Partial(EMPTY.(domain := d2), 0, 1), Partial(EMPTY.(domain := d3), 0, 1),
               Partial(EMPTY.(domain := d4), 0, 1), Partial(EMPTY.(domain := d5), 0, 1),
               Partial(EMPTY.(domain := d5, lastApplied := s.lastApplied), 0, 1), Partial(t, 0, 1)];
    Chain(ps, Fixed(s));
  }

  function WithDancers(p: Partial, m: map<Id, Dancer>): Partial {
    p.(state := p.state.(domain := p.state.domain.(dancers := m)))
  }

  lemma {:induction false} DancersRead(p: Partial, l: seq<Id>, m: map<Id, Dancer>)
    requires (forall i :: i in l ==> i in m) && forall i :: i in m ==> PositionOK(m[i].position)
    ensures RestoreAll(p, DancerLines(l, m)) == Some(WithDancers(p, Collect(l, m, p.state.domain.dancers)))
    decreases |l|
  {
    if l != [] {
      DancersRead(WithDancers(p, p.state.domain.dancers[l[0] := m[l[0]]]), l[1..], m);
    }
  }

  function WithFormations(p: Partial, m: map<Id, seq<Id>>): Partial {
    p.(state := p.state.(domain := p.state.domain.(formations := m)))
  }

  lemma {:induction false} FormationsRead(p: Partial, l: seq<Id>, m: map<Id, seq<Id>>)
    requires (forall i :: i in l ==> i in m) && forall i, k :: i in m && k in m[i] ==> ValidId(k)
    ensures RestoreAll(p, FormationLines(l, m)) == Some(WithFormations(p, Collect(l, m, p.state.domain.formations)))
    decreases |l|
  {
    hide ValidId;
    if l != [] {
      FormationsRead(WithFormations(p, p.state.domain.formations[l[0] := m[l[0]]]), l[1..], m);
    }
  }

  function WithCues(p: Partial, music: bool, m: map<Id, Cue>): Partial {
    p.(state := p.state.(domain :=
      if music then p.state.domain.(music := m) else p.state.domain.(lights := m)))
  }

  function CuesOf(p: Partial, music: bool): map<Id, Cue> {
    if music then p.state.domain.music else p.state.domain.lights
  }

  lemma CueRead(p: Partial, music: bool, id: Id, c: Cue)
    requires c.dependsOn.Some? ==> ValidId(c.dependsOn.value)
    ensures RestoreLine(p, CueLine(music, id, c)) ==
            Some(WithCues(p, music, CuesOf(p, music)[id := c.(dependsOn := Undash(c.dependsOn))]))
  {}

  lemma {:induction false} CuesRead(p: Partial, music: bool, l: seq<Id>, m: map<Id, Cue>)
    requires (forall i :: i in l ==> i in m) && CuesOK(m)
    ensures RestoreAll(p, CueLines(music, l, m)) ==
            Some(WithCues(p, music, Collect(l, UndashCues(m), CuesOf(p, music))))
    decreases |l|
  {
    hide ValidId, RestoreLine, CueLine;
    if l != [] {
      CueRead(p, music, l[0], m[l[0]]);
      CuesRead(WithCues(p, music, CuesOf(p, music)[l[0] := m[l[0]].(dependsOn := Undash(m[l[0]].dependsOn))]),
               music, l[1..], m);
    }
  }

  predicate SelfCommands(commands: map<Id, Id>, ids: set<Id>) {
    commands.Keys == ids && forall i :: i in ids ==> commands[i] == i
  }

  lemma {:induction false} ReceiptsRead(p: Partial, lines: seq<ReceiptLine>)
    requires ReadLines(Cursor(p.index, p.term, p.state.receipts), lines, p.state.lastApplied).Some?
    requires SelfCommands(p.state.commands, p.state.receipts.Keys)
    ensures
      var c := ReadLines(Cursor(p.index, p.term, p.state.receipts), lines, p.state.lastApplied).value;
      var r := RestoreAll(p, ReceiptParts(lines));
      r.Some? && r.value.state.receipts == c.receipts && SelfCommands(r.value.state.commands, c.receipts.Keys) &&
      r.value.state == p.state.(receipts := c.receipts, commands := r.value.state.commands)
    decreases |lines|
  {
    hide ReadLine;
    if lines != [] {
      var next := ReadReceipt(p, lines[0]);
      LineAdds(Cursor(p.index, p.term, p.state.receipts), lines[0], p.state.lastApplied);
      ReceiptsRead(next.value, lines[1..]);
    }
  }

  lemma LineAdds(c: Cursor, line: ReceiptLine, last: nat)
    requires ReadLine(c, line, last).Some?
    ensures ReadLine(c, line, last).value.receipts.Keys == c.receipts.Keys + (if line.EntryLine? then {line.id} else {})
  {}

  lemma LegacyOne(p: Partial, id: Id)
    requires ValidId(id) && id !in p.state.commands && SelfCommands(p.state.commands, p.state.commands.Keys)
    ensures
      var next := p.(state := p.state.(commands := p.state.commands[id := id]));
      RestoreLine(p, LegacyLine(id)) == Some(next) && SelfCommands(next.state.commands, next.state.commands.Keys) &&
      next.state.commands.Keys == p.state.commands.Keys + {id}
  {}

  lemma {:induction false} LegacyRead(p: Partial, l: seq<Id>)
    requires forall i :: i in l ==> ValidId(i) && i !in p.state.commands
    requires forall j, k :: 0 <= j < k < |l| ==> l[j] != l[k]
    requires SelfCommands(p.state.commands, p.state.commands.Keys)
    ensures
      var r := RestoreAll(p, LegacyLines(l));
      r.Some? && r.value == p.(state := p.state.(commands := r.value.state.commands)) &&
      SelfCommands(r.value.state.commands, p.state.commands.Keys + (set i | i in l))
    decreases |l|
  {
    hide ValidId, RestoreLine;
    if l == [] {
      assert p.state.commands.Keys + (set i | i in l) == p.state.commands.Keys;
    } else {
      var next := p.(state := p.state.(commands := p.state.commands[l[0] := l[0]]));
      LegacyOne(p, l[0]);
      assert forall k :: 0 <= k < |l[1..]| ==> l[1..][k] == l[k + 1];
      LegacyRead(next, l[1..]);
      assert p.state.commands.Keys + {l[0]} + (set i | i in l[1..]) == p.state.commands.Keys + (set i | i in l);
    }
  }

  // ---------------------------------------------------------------- the round trip

  lemma UndashKeys(m: map<Id, Cue>)
    ensures UndashCues(m).Keys == m.Keys
  {}

  // Fixed lines and maps rebuild the domain.
  lemma DomainRead(s: State, p: Printing)
    requires StateOK(s) && Prints(p, s)
    ensures
      RestoreAll(Partial(EMPTY, 0, 1),
                 Fixed(s) + DancerLines(p.dancers, s.domain.dancers) + FormationLines(p.formations, s.domain.formations) +
                 CueLines(true, p.music, s.domain.music) + CueLines(false, p.lights, s.domain.lights)) ==
      Some(Partial(State(Undashed(s.domain), s.lastApplied, s.term, map[], map[], map[]), 0, 1))
  {
    hide RestoreAll, Fixed, DancerLines, FormationLines, CueLines, Collect, HistoryOK, ValidId, Enumerates;
    var d := s.domain;
    var start := Partial(EMPTY, 0, 1);
    var l1, l2 := Fixed(s), DancerLines(p.dancers, d.dancers);
    var l3, l4 := FormationLines(p.formations, d.formations), CueLines(true, p.music, d.music);
    var l5 := CueLines(false, p.lights, d.lights);
    RestoreSplit(start, l1 + l2 + l3 + l4, l5);
    RestoreSplit(start, l1 + l2 + l3, l4);
    RestoreSplit(start, l1 + l2, l3);
    RestoreSplit(start, l1, l2);
    FixedRead(s);
    var p1 := Partial(Skeleton(s), 0, 1);
    DancersRead(p1, p.dancers, d.dancers);
    CollectAll(p.dancers, d.dancers);
    var p2 := WithDancers(p1, d.dancers);
    FormationsRead(p2, p.formations, d.formations);
    CollectAll(p.formations, d.formations);
    var p3 := WithFormations(p2, d.formations);
    CuesRead(p3, true, p.music, d.music);
    UndashKeys(d.music);
    CollectAll(p.music, UndashCues(d.music));
    var p4 := WithCues(p3, true, UndashCues(d.music));
    CuesRead(p4, false, p.lights, d.lights);
    UndashKeys(d.lights);
    CollectAll(p.lights, UndashCues(d.lights));
  }

  // Receipt and legacy lines rebuild what is remembered about commands.
  lemma HistoryRead(s: State, p: Printing)
    requires StateOK(s) && Prints(p, s)
    ensures
      RestoreAll(Partial(State(Undashed(s.domain), s.lastApplied, s.term, map[], map[], map[]), 0, 1),
                 ReceiptParts(Lines(p.receipts, 0, 1)) + LegacyLines(p.legacy)).Some? &&
      RestoreAll(Partial(State(Undashed(s.domain), s.lastApplied, s.term, map[], map[], map[]), 0, 1),
                 ReceiptParts(Lines(p.receipts, 0, 1)) + LegacyLines(p.legacy)).value.state == Restored(s)
  {
    hide RestoreAll, ReceiptParts, LegacyLines, Lines, ReadLines, Undashed, DomainOK, ValidId;
    var q := Partial(State(Undashed(s.domain), s.lastApplied, s.term, map[], map[], map[]), 0, 1);
    ReceiptsRoundTrip(p.receipts, s.receipts, s.lastApplied);
    ReceiptsRead(q, Lines(p.receipts, 0, 1));
    RestoreSplit(q, ReceiptParts(Lines(p.receipts, 0, 1)), LegacyLines(p.legacy));
    var r := RestoreAll(q, ReceiptParts(Lines(p.receipts, 0, 1))).value;
    LegacyRead(r, p.legacy);
    var final := RestoreAll(r, LegacyLines(p.legacy)).value;
    assert (set i | i in p.legacy) == LegacyIds(s);
    assert final.state.commands == Restored(s).commands;
  }

  // Reading a snapshot gives the state it was taken of, up to the "-" marker and
  // the event bodies that only the log keeps.
  lemma SnapshotRoundTrip(s: State, p: Printing)
    requires StateOK(s) && Prints(p, s)
    ensures Restore(Snapshot(s, p)) == Some(Restored(s))
  {
    hide RestoreAll, Fixed, DancerLines, FormationLines, CueLines, ReceiptParts, LegacyLines, Lines, StateOK, Undashed,
      Restored, Enumerates, LegacyIds;
    var a := Fixed(s) + DancerLines(p.dancers, s.domain.dancers) + FormationLines(p.formations, s.domain.formations) +
             CueLines(true, p.music, s.domain.music) + CueLines(false, p.lights, s.domain.lights);
    var b := ReceiptParts(Lines(p.receipts, 0, 1)) + LegacyLines(p.legacy);
    assert Content(s, p) == a + b;
    assert Snapshot(s, p)[1..] == Content(s, p);
    RestoreSplit(Partial(EMPTY, 0, 1), a, b);
    DomainRead(s, p);
    HistoryRead(s, p);
  }

  // The domain survives a snapshot if and only if no id in it is the marker.
  lemma DomainSurvives(s: State, p: Printing)
    requires StateOK(s) && Prints(p, s)
    ensures Restore(Snapshot(s, p)).Some? && Restore(Snapshot(s, p)).value.receipts == s.receipts
    ensures Restore(Snapshot(s, p)).value.domain == s.domain <==> DashFree(s.domain)
  {
    hide Restore, Snapshot, StateOK, Prints;
    SnapshotRoundTrip(s, p);
    DashExactly(s.domain);
  }

  // ---------------------------------------------------------------- events keep states valid

  predicate PayloadOK(p: Payload) {
    match p
    case CreatePayload(choreography, stage, _, _) => ValidId(choreography) && StageOK(stage)
    case DancerPayload(_, position) => PositionOK(position)
    case RemovePayload(_) => true
    case FormationPayload(_, members) => forall m :: m in members ==> ValidId(m)
    case CuePayload(_, dependsOn) => dependsOn.Some? ==> ValidId(dependsOn.value)
  }

  predicate EventOK(e: Event) {
    ValidId(e.commandId) && e.term >= 1 && PayloadOK(e.payload)
  }

  lemma {:induction false} InsertedFrom(ids: seq<Id>, id: Id, x: Id)
    requires x in InsertSorted(ids, id)
    ensures x in ids || x == id
  {
    if ids != [] && ids[0] != id && !Before(id, ids[0]) && x != ids[0] {
      InsertedFrom(ids[1..], id, x);
    }
  }

  lemma {:induction false} SortedFrom(ids: seq<Id>, x: Id)
    requires x in Sorted(ids)
    ensures x in ids
  {
    if ids != [] {
      InsertedFrom(Sorted(ids[1..]), ids[0], x);
      if x != ids[0] {
        SortedFrom(ids[1..], x);
      }
    }
  }

  lemma CreateKeeps(d: Domain, p: Payload)
    requires DomainOK(d) && PayloadOK(p) && p.CreatePayload? && ApplyCreate(d, p).Ok?
    ensures DomainOK(ApplyCreate(d, p).value)
  {
    hide ValidId, CuesOK;
  }

  lemma DancersKeep(d: Domain, i: Id, dancer: Dancer)
    requires DomainOK(d) && PositionOK(dancer.position)
    ensures DomainOK(d.(dancers := d.dancers[i := dancer]))
  {
    hide ValidId, CuesOK;
  }

  lemma FormationKeeps(d: Domain, define: bool, p: Payload)
    requires DomainOK(d) && PayloadOK(p) && p.FormationPayload? && ApplyFormation(d, define, p).Ok?
    ensures DomainOK(ApplyFormation(d, define, p).value)
  {
    hide ValidId, Sorted, CheckMembers, CuesOK;
    forall m | m in Sorted(p.members)
      ensures ValidId(m)
    {
      SortedFrom(p.members, m);
    }
  }

  lemma CueKeeps(d: Domain, music: bool, p: Payload, tick: nat)
    requires DomainOK(d) && PayloadOK(p) && p.CuePayload? && ApplyCue(d, music, p, tick).Ok?
    ensures DomainOK(ApplyCue(d, music, p, tick).value)
  {
    hide ValidId, FindCue;
  }

  lemma DomainKeeps(d: Domain, e: Event)
    requires DomainOK(d) && PayloadOK(e.payload) && ApplyDomain(d, e).Ok?
    ensures DomainOK(ApplyDomain(d, e).value)
  {
    hide ValidId, Occupied, WithinTravel, OnStage, CuesOK, StageOK, ApplyCreate, ApplyFormation, ApplyCue;
    match e.kind
    case NoOp =>
    case Create => CreateKeeps(d, e.payload);
    case AddDancer => DancersKeep(d, e.payload.dancer, Dancer(e.payload.position, true));
    case RemoveDancer => DancersKeep(d, e.payload.dancer, d.dancers[e.payload.dancer].(active := false));
    case MoveDancer => DancersKeep(d, e.payload.dancer, d.dancers[e.payload.dancer].(position := e.payload.position));
    case DefineFormation => FormationKeeps(d, true, e.payload);
    case ChangeFormation => FormationKeeps(d, false, e.payload);
    case MusicCue => CueKeeps(d, true, e.payload, e.tick);
    case LightingCue => CueKeeps(d, false, e.payload, e.tick);
  }

  lemma StateKeeps(h: Fingerprint, s: State, e: Event)
    requires StateOK(s) && EventOK(e) && Apply(h, s, e).Ok?
    ensures StateOK(Apply(h, s, e).value)
  {
    hide ApplyDomain, DomainOK, ValidId, PayloadOK, HistoryOK, FingerprintOf;
    ApplyKeeps(h, s, e);
    if ApplyDomain(s.domain, e).Ok? {
      DomainKeeps(s.domain, e);
    }
  }

  lemma {:induction false} ReplayKeeps(h: Fingerprint, s: State, events: seq<Event>)
    requires StateOK(s) && (forall e :: e in events ==> EventOK(e)) && ApplyAll(h, s, events).Ok?
    ensures StateOK(ApplyAll(h, s, events).value)
    decreases |events|
  {
    hide Apply, StateOK, EventOK;
    if events != [] {
      StateKeeps(h, s, events[0]);
      ReplayKeeps(h, Apply(h, s, events[0]).value, events[1..]);
    }
  }

  lemma EmptyOK()
    ensures StateOK(EMPTY)
  {}

  // ---------------------------------------------------------------- suffix replay

  // t knows at most what s knows, and agrees with it on everything that matters.
  predicate Follows(s: State, t: State) {
    t.domain == s.domain && t.lastApplied == s.lastApplied && t.term == s.term && t.receipts == s.receipts &&
    t.events.Keys <= s.events.Keys && t.commands.Keys <= s.commands.Keys + s.receipts.Keys
  }

  lemma FollowStep(h: Fingerprint, s: State, t: State, e: Event)
    requires Follows(s, t) && HistoryOK(s) && e.index == s.lastApplied + 1 && Apply(h, s, e).Ok?
    ensures Apply(h, t, e).Ok? && Follows(Apply(h, s, e).value, Apply(h, t, e).value)
    ensures Apply(h, s, e).value.lastApplied == e.index
  {
    hide ApplyDomain, FingerprintOf, HistoryOK;
    NextIsNew(h, s, e);
  }

  lemma {:induction false} FollowAll(h: Fingerprint, s: State, t: State, events: seq<Event>)
    requires Follows(s, t) && HistoryOK(s) && Contiguous(events, s.lastApplied + 1) && ApplyAll(h, s, events).Ok?
    ensures ApplyAll(h, t, events).Ok? && Follows(ApplyAll(h, s, events).value, ApplyAll(h, t, events).value)
    decreases |events|
  {
    hide Apply, Follows, HistoryOK;
    if events != [] {
      var e, rest := events[0], events[1..];
      FollowStep(h, s, t, e);
      ApplyKeeps(h, s, e);
      assert forall k :: 0 <= k < |rest| ==> rest[k] == events[k + 1];
      FollowAll(h, Apply(h, s, e).value, Apply(h, t, e).value, rest);
    }
  }

  lemma RestoredFollows(s: State)
    requires DashFree(s.domain)
    ensures Follows(s, Restored(s))
  {
    DashExactly(s.domain);
  }

  lemma {:induction false} LastIndexReached(h: Fingerprint, s: State, events: seq<Event>)
    requires HistoryOK(s) && Contiguous(events, s.lastApplied + 1) && ApplyAll(h, s, events).Ok?
    ensures HistoryOK(ApplyAll(h, s, events).value) && ApplyAll(h, s, events).value.lastApplied == s.lastApplied + |events|
    decreases |events|
  {
    hide Apply, HistoryOK;
    if events != [] {
      var e, rest := events[0], events[1..];
      AppliedIndex(h, s, e);
      ApplyKeeps(h, s, e);
      assert forall k :: 0 <= k < |rest| ==> rest[k] == events[k + 1];
      LastIndexReached(h, Apply(h, s, e).value, rest);
    }
  }

  lemma AppliedIndex(h: Fingerprint, s: State, e: Event)
    requires HistoryOK(s) && e.index == s.lastApplied + 1 && Apply(h, s, e).Ok?
    ensures Apply(h, s, e).value.lastApplied == e.index
  {
    hide ApplyDomain, FingerprintOf, HistoryOK;
    NextIsNew(h, s, e);
  }

  // Snapshot plus suffix equals full replay: whatever prefix the snapshot covers
  // and in whatever order it lists its maps, restoring it and applying the rest
  // succeeds and ends in the same domain, index, term and receipts.
  lemma SnapshotPlusSuffix(h: Fingerprint, log: seq<Event>, k: nat, p: Printing)
    requires Contiguous(log, 1) && (forall e :: e in log ==> EventOK(e)) && Replay(h, log).Ok? && k <= |log|
    requires Replay(h, log[..k]).Ok? ==> Prints(p, Replay(h, log[..k]).value) && DashFree(Replay(h, log[..k]).value.domain)
    ensures Replay(h, log[..k]).Ok? && Restore(Snapshot(Replay(h, log[..k]).value, p)).Some?
    ensures
      var restored := Restore(Snapshot(Replay(h, log[..k]).value, p)).value;
      var full, resumed := Replay(h, log).value, ApplyAll(h, restored, log[k..]);
      resumed.Ok? && resumed.value.domain == full.domain && resumed.value.lastApplied == full.lastApplied &&
      resumed.value.term == full.term && resumed.value.receipts == full.receipts
  {
    hide Apply, ApplyAll, HistoryOK, EventOK, Prints, DashFree, Restore, Snapshot, Restored, DomainOK, ValidId;
    assert log == log[..k] + log[k..];
    ApplySplit(h, EMPTY, log[..k], log[k..]);
    EmptyOK();
    ReplayKeeps(h, EMPTY, log[..k]);
    LastIndexReached(h, EMPTY, log[..k]);
    var s := Replay(h, log[..k]).value;
    SnapshotRoundTrip(s, p);
    RestoredFollows(s);
    FollowAll(h, s, Restored(s), log[k..]);
  }

  // ---------------------------------------------------------------- exactly when

  // Nothing takes back a name or a cue.
  predicate Persists(d: Domain, e: Domain) {
    (d.created ==> e.created && e.id == d.id) &&
    (forall i :: i in d.music ==> i in e.music && e.music[i] == d.music[i]) &&
    (forall i :: i in d.lights ==> i in e.lights && e.lights[i] == d.lights[i])
  }

  lemma SamePersists(d: Domain, e: Domain)
    requires e.created && (d.created ==> e.id == d.id) && e.music == d.music && e.lights == d.lights
    ensures Persists(d, e)
  {}

  lemma CuePersists(d: Domain, music: bool, p: Payload, tick: nat)
    requires p.CuePayload? && ApplyCue(d, music, p, tick).Ok?
    ensures Persists(d, ApplyCue(d, music, p, tick).value)
  {}

  lemma DomainPersists(d: Domain, e: Event)
    requires ApplyDomain(d, e).Ok?
    ensures Persists(d, ApplyDomain(d, e).value)
  {
    hide Occupied, WithinTravel, OnStage, Sorted, CheckMembers, ApplyCue, Persists;
    match e.kind
    case NoOp => Unchanged(d);
    case MusicCue => CuePersists(d, true, e.payload, e.tick);
    case LightingCue => CuePersists(d, false, e.payload, e.tick);
    case _ => SamePersists(d, ApplyDomain(d, e).value);
  }

  lemma Unchanged(d: Domain)
    ensures Persists(d, d)
  {}

  lemma StepPersists(h: Fingerprint, s: State, e: Event)
    requires Apply(h, s, e).Ok?
    ensures Persists(s.domain, Apply(h, s, e).value.domain)
  {
    hide ApplyDomain, FingerprintOf, Existing;
    if ApplyDomain(s.domain, e).Ok? {
      DomainPersists(s.domain, e);
    }
  }

  lemma {:induction false} AllPersists(h: Fingerprint, s: State, events: seq<Event>)
    requires ApplyAll(h, s, events).Ok?
    ensures Persists(s.domain, ApplyAll(h, s, events).value.domain)
    decreases |events|
  {
    hide Apply;
    if events != [] {
      StepPersists(h, s, events[0]);
      AllPersists(h, Apply(h, s, events[0]).value, events[1..]);
    }
  }

  lemma DashShows(d: Domain, full: Domain, resumed: Domain)
    requires DomainOK(d) && !DashFree(d) && Persists(d, full) && Persists(Undashed(d), resumed)
    ensures full != resumed
  {
    hide ValidId, StageOK;
    if i :| i in d.music && d.music[i].dependsOn == Some("-") {
      assert i in Undashed(d).music;
    } else if i :| i in d.lights && d.lights[i].dependsOn == Some("-") {
      assert i in Undashed(d).lights;
    }
  }

  // Resuming from a snapshot reaches the replayed domain if and only if no id in
  // the snapshot's domain is the marker.
  lemma SuffixExactly(h: Fingerprint, log: seq<Event>, k: nat, p: Printing)
    requires Contiguous(log, 1) && (forall e :: e in log ==> EventOK(e)) && Replay(h, log).Ok? && k <= |log|
    requires Replay(h, log[..k]).Ok? ==> Prints(p, Replay(h, log[..k]).value)
    ensures Replay(h, log[..k]).Ok? && Restore(Snapshot(Replay(h, log[..k]).value, p)).Some?
    ensures
      var restored := Restore(Snapshot(Replay(h, log[..k]).value, p)).value;
      var resumed := ApplyAll(h, restored, log[k..]);
      (resumed.Ok? && resumed.value.domain == Replay(h, log).value.domain) <==>
      DashFree(Replay(h, log[..k]).value.domain)
  {
    hide Apply, ApplyAll, HistoryOK, EventOK, Prints, DashFree, Restore, Snapshot, DomainOK, ValidId, Persists;
    assert log == log[..k] + log[k..];
    ApplySplit(h, EMPTY, log[..k], log[k..]);
    EmptyOK();
    ReplayKeeps(h, EMPTY, log[..k]);
    var s := Replay(h, log[..k]).value;
    SnapshotRoundTrip(s, p);
    AllPersists(h, s, log[k..]);
    if DashFree(s.domain) {
      SnapshotPlusSuffix(h, log, k, p);
    } else if ApplyAll(h, Restored(s), log[k..]).Ok? {
      AllPersists(h, Restored(s), log[k..]);
      DashShows(s.domain, Replay(h, log).value.domain, ApplyAll(h, Restored(s), log[k..]).value.domain);
    }
  }

  // The log that creates a choreography with the marker's name.
  function MarkerLog(): seq<Event> {
    [Event("a", "a", "-", Create, SCHEMA, 0, 1, 1, CreatePayload("-", Stage(1, 1), false, 0))]
  }

  // "-" is a valid id, and a choreography of that name does not survive a snapshot.
  lemma DashIsLost(h: Fingerprint) returns (p: Printing)
    ensures Contiguous(MarkerLog(), 1) && (forall e :: e in MarkerLog() ==> EventOK(e)) && Replay(h, MarkerLog()).Ok?
    ensures Prints(p, Replay(h, MarkerLog()).value)
    ensures
      var s := Replay(h, MarkerLog()).value;
      s.domain.id == Some("-") && Restore(Snapshot(s, p)).Some? && Restore(Snapshot(s, p)).value.domain != s.domain
  {
    hide Restore, Snapshot, FingerprintOf;
    var e := MarkerLog()[0];
    var s := Recorded(h, EMPTY, ApplyDomain(EMPTY_DOMAIN, e).value, e);
    assert MarkerLog()[1..] == [] && ApplyAll(h, s, []) == Ok(s);
    assert Apply(h, EMPTY, e) == Ok(s);
    p := Printing([], [], [], [], [Numbered("a", ReceiptOf(h, e))], []);
    EmptyOK();
    StateKeeps(h, EMPTY, e);
    DomainSurvives(s, p);
  }
}
