/** The control record as the document that is stored, and patches as the documents queued for it. */
module ControlDocuments {
  import opened Wrappers
  import opened ControlRecord
  import D = Documents

  type Json = D.Json

  type Doc = D.Doc

  type Path = D.Path

  function ModeName(m: Mode): string {
    match m
    case Stop => "Stop"
    case Error => "Error"
    case Prime => "Prime"
    case Startup => "Startup"
    case Reignite => "Reignite"
    case Smoke => "Smoke"
    case Hold => "Hold"
    case Shutdown => "Shutdown"
    case Monitor => "Monitor"
    case Manual => "Manual"
    case Recipe => "Recipe"
    case Unknown(name) => name
  }

  const KNOWN_MODES := {
    "Stop", "Error", "Prime", "Startup", "Reignite", "Smoke", "Hold", "Shutdown", "Monitor", "Manual", "Recipe" }

  // An unknown mode has a name of its own.
  predicate Proper(m: Mode) { m.Unknown? ==> m.name !in KNOWN_MODES }

  const KNOWN_STATUSES := {"", "active", "inactive", "monitor"}

  predicate ProperStatus(s: Status) { s.Other? ==> s.text !in KNOWN_STATUSES }

  predicate ProperNames(c: Control) {
    Proper(c.mode) && Proper(c.nextMode) && Proper(c.safety.lastState) && ProperStatus(c.status)
  }

  predicate ProperPatch(p: Patch) {
    && (p.mode.Some? ==> Proper(p.mode.value)) && (p.nextMode.Some? ==> Proper(p.nextMode.value))
    && (p.lastState.Some? ==> Proper(p.lastState.value)) && (p.status.Some? ==> ProperStatus(p.status.value))
  }

  function ModeOf(name: string): Mode {
    if name == "Stop" then Stop
    else if name == "Error" then Error
    else if name == "Prime" then Prime
    else if name == "Startup" then Startup
    else if name == "Reignite" then Reignite
    else if name == "Smoke" then Smoke
    else if name == "Hold" then Hold
    else if name == "Shutdown" then Shutdown
    else if name == "Monitor" then Monitor
    else if name == "Manual" then Manual
    else if name == "Recipe" then Recipe
    else Unknown(name)
  }

  lemma ModeNamesDiffer(m: Mode, m': Mode)
    requires Proper(m) && Proper(m') && ModeName(m) == ModeName(m')
    ensures m == m'
  {
    assert !m.Unknown? ==> ModeName(m) in KNOWN_MODES;
    assert !m'.Unknown? ==> ModeName(m') in KNOWN_MODES;
    assert !m.Unknown? ==> ModeOf(ModeName(m)) == m;
    assert !m'.Unknown? ==> ModeOf(ModeName(m')) == m';
  }

  function StatusName(s: Status): string {
    match s
    case Blank => ""
    case Active => "active"
    case Inactive => "inactive"
    case Monitoring => "monitor"
    case Other(text) => text
  }

  lemma StatusNamesDiffer(s: Status, s': Status)
    requires ProperStatus(s) && ProperStatus(s') && StatusName(s) == StatusName(s')
    ensures s == s'
  {
    assert !s.Other? ==> StatusName(s) in KNOWN_STATUSES;
    assert !s'.Other? ==> StatusName(s') in KNOWN_STATUSES;
    assert |StatusName(Active)| == 6 && |StatusName(Inactive)| == 8 && |StatusName(Monitoring)| == 7;
  }

  function DeviceName(d: Device): string {
    match d
    case PowerRelay => "power"
    case IgniterRelay => "igniter"
    case FanRelay => "fan"
    case AugerRelay => "auger"
  }

  datatype Field =
    | ModeField | Updated | NextMode | Setpoint | Critical | UnitsChange | LidToggle
    | StartupTemp | AfterStartTemp | Retries | LastState | Triggered | Pause | StartStep
    | StatusField

  function At(f: Field): Path {
    match f
    case ModeField => ["mode"]
    case Updated => ["updated"]
    case NextMode => ["next_mode"]
    case Setpoint => ["primary_setpoint"]
    case Critical => ["critical_error"]
    case UnitsChange => ["units_change"]
    case LidToggle => ["lid_open_toggle"]
    case StartupTemp => ["safety", "startuptemp"]
    case AfterStartTemp => ["safety", "afterstarttemp"]
    case Retries => ["safety", "reigniteretries"]
    case LastState => ["safety", "reignitelaststate"]
    case Triggered => ["recipe", "step_data", "triggered"]
    case Pause => ["recipe", "step_data", "pause"]
    case StartStep => ["recipe", "start_step"]
    case StatusField => ["status"]
  }

  const MANUAL_CHANGE: Path := ["manual", "change"]

  const MANUAL_OUTPUT: Path := ["manual", "output"]

  function Value(c: Control, f: Field): Json {
    match f
    case ModeField => D.Str(ModeName(c.mode))
    case Updated => D.Bool(c.updated)
    case NextMode => D.Str(ModeName(c.nextMode))
    case Setpoint => D.Float(c.setpoint)
    case Critical => D.Bool(c.critical)
    case UnitsChange => D.Bool(c.unitsChange)
    case LidToggle => D.Bool(c.lidToggle)
    case StartupTemp => D.Int(c.safety.startupTemp)
    case AfterStartTemp => D.Float(c.safety.afterStartTemp)
    case Retries => D.Int(c.safety.retries)
    case LastState => D.Str(ModeName(c.safety.lastState))
    case Triggered => D.Bool(c.triggered)
    case Pause => D.Bool(c.pause)
    case StartStep => D.Int(c.startStep)
    case StatusField => D.Str(StatusName(c.status))
  }

  function Flag(b: Option<bool>): Option<Json> { if b.Some? then Some(D.Bool(b.value)) else None }

  function Changed(p: Patch, f: Field): Option<Json> {
    match f
    case ModeField => if p.mode.Some? then Some(D.Str(ModeName(p.mode.value))) else None
    case Updated => Flag(p.updated)
    case NextMode => if p.nextMode.Some? then Some(D.Str(ModeName(p.nextMode.value))) else None
    case Setpoint => if p.setpoint.Some? then Some(D.Float(p.setpoint.value)) else None
    case Critical => Flag(p.critical)
    case UnitsChange => Flag(p.unitsChange)
    case LidToggle => Flag(p.lidToggle)
    case StartupTemp => if p.startupTemp.Some? then Some(D.Int(p.startupTemp.value)) else None
    case AfterStartTemp => if p.afterStartTemp.Some? then Some(D.Float(p.afterStartTemp.value)) else None
    case Retries => if p.retries.Some? then Some(D.Int(p.retries.value)) else None
    case LastState => if p.lastState.Some? then Some(D.Str(ModeName(p.lastState.value))) else None
    case Triggered => Flag(p.triggered)
    case Pause => Flag(p.pause)
    case StartStep => if p.startStep.Some? then Some(D.Int(p.startStep.value)) else None
    case StatusField => if p.status.Some? then Some(D.Str(StatusName(p.status.value))) else None
  }

  function Number(j: Json): Option<real> {
    match j
    case Int(n) => Some(n as real)
    case Float(r) => Some(r)
    case _ => None
  }

  // A number is read by its value, whether it is stored as an integer or not.
  predicate Reads(j: Json, v: Json) { j == v || (Number(j).Some? && Number(j) == Number(v)) }

  predicate Holds(d: Doc, p: Path, v: Json) {
    D.Lookup(D.Obj(d), p).Some? && Reads(D.Lookup(D.Obj(d), p).value, v)
  }

  // Between recipes there is no step, and its flags count as down.
  predicate Shows(d: Doc, f: Field, v: Json) {
    Holds(d, At(f), v) || (f in {Triggered, Pause} && D.Lookup(D.Obj(d), At(f)).None? && v == D.Bool(false))
  }

  // The document names the path with this value, or leaves it alone.
  predicate Names(d: Doc, p: Path, v: Option<Json>) {
    if v.Some? then Holds(d, p, v.value) else D.Untouched(D.Obj(d), p) && D.Lookup(D.Obj(d), p).None?
  }

  // No pending manual change: what is there names no device.
  predicate NoDevice(v: Option<Json>) {
    v.Some? && !v.value.Obj? && forall d: Device :: v != Some(D.Str(DeviceName(d)))
  }

  ghost predicate RepresentsManual(d: Doc, m: Option<Override>) {
    if m.Some? then
      && Holds(d, MANUAL_CHANGE, D.Str(DeviceName(m.value.device)))
      && Holds(d, MANUAL_OUTPUT, D.Bool(m.value.on))
    else NoDevice(D.Lookup(D.Obj(d), MANUAL_CHANGE))
  }

  // A document with the record's fields, whatever else it holds.
  ghost predicate Represents(d: Doc, c: Control) {
    ProperNames(c) && (forall f: Field :: Shows(d, f, Value(c, f))) && RepresentsManual(d, c.manual)
  }

  // What a document does to the pending manual change: leaves it, sets it, or clears it.
  ghost predicate QueuesManual(d: Doc, m: Option<Option<Override>>) {
    match m
    case None => Names(d, MANUAL_CHANGE, None) && Names(d, MANUAL_OUTPUT, None)
    case Some(None) => NoDevice(D.Lookup(D.Obj(d), MANUAL_CHANGE))
    case Some(Some(o)) =>
      Holds(d, MANUAL_CHANGE, D.Str(DeviceName(o.device))) && Holds(d, MANUAL_OUTPUT, D.Bool(o.on))
  }

  // A document that changes the fields the patch names and no other of them.
  ghost predicate Queues(d: Doc, p: Patch) {
    ProperPatch(p) && (forall f: Field :: Names(d, At(f), Changed(p, f))) && QueuesManual(d, p.manual)
  }

  lemma SameSafety(c: Control, c': Control)
    requires ProperNames(c) && ProperNames(c') && forall f: Field :: Reads(Value(c, f), Value(c', f))
    ensures c.safety == c'.safety
  {
    assert Reads(Value(c, StartupTemp), Value(c', StartupTemp));
    assert Reads(Value(c, AfterStartTemp), Value(c', AfterStartTemp));
    assert Reads(Value(c, Retries), Value(c', Retries));
    assert Reads(Value(c, LastState), Value(c', LastState));
    ModeNamesDiffer(c.safety.lastState, c'.safety.lastState);
  }

  lemma SameOrderFields(c: Control, c': Control)
    requires ProperNames(c) && ProperNames(c') && forall f: Field :: Reads(Value(c, f), Value(c', f))
    ensures c.mode == c'.mode && c.nextMode == c'.nextMode && c.status == c'.status && c.updated == c'.updated
    ensures c.critical == c'.critical && c.unitsChange == c'.unitsChange
  {
    assert Reads(Value(c, ModeField), Value(c', ModeField)) && Reads(Value(c, NextMode), Value(c', NextMode));
    assert Reads(Value(c, StatusField), Value(c', StatusField)) && Reads(Value(c, Updated), Value(c', Updated));
    assert Reads(Value(c, Critical), Value(c', Critical));
    assert Reads(Value(c, UnitsChange), Value(c', UnitsChange));
    ModeNamesDiffer(c.mode, c'.mode);
    ModeNamesDiffer(c.nextMode, c'.nextMode);
    StatusNamesDiffer(c.status, c'.status);
  }

  lemma SameStepFields(c: Control, c': Control)
    requires forall f: Field :: Reads(Value(c, f), Value(c', f))
    ensures c.setpoint == c'.setpoint && c.lidToggle == c'.lidToggle && c.triggered == c'.triggered
    ensures c.pause == c'.pause && c.startStep == c'.startStep
  {
    assert Reads(Value(c, Setpoint), Value(c', Setpoint)) && Reads(Value(c, LidToggle), Value(c', LidToggle));
    assert Reads(Value(c, Triggered), Value(c', Triggered)) && Reads(Value(c, Pause), Value(c', Pause));
    assert Reads(Value(c, StartStep), Value(c', StartStep));
  }

  lemma DeviceNamesDiffer(x: Device, y: Device)
    requires DeviceName(x) == DeviceName(y)
    ensures x == y
  {
    assert DeviceName(x)[0] == DeviceName(y)[0];
  }

  // A document represents one record only.
  lemma RepresentsOneRecord(d: Doc, c: Control, c': Control)
    requires Represents(d, c) && Represents(d, c')
    ensures c == c'
  {
    forall f: Field ensures Reads(Value(c, f), Value(c', f)) {
      assert Shows(d, f, Value(c, f)) && Shows(d, f, Value(c', f));
    }
    SameSafety(c, c');
    SameOrderFields(c, c');
    SameStepFields(c, c');
    if c.manual.Some? && c'.manual.Some? {
      DeviceNamesDiffer(c.manual.value.device, c'.manual.value.device);
    }
  }

  // The path is as the patch names it, or as it was.
  lemma PathMerged(d: Doc, patch: Doc, p: Path, v: Option<Json>)
    requires D.Merge(d, patch).Some? && Names(patch, p, v) && (v.Some? ==> !v.value.Obj?)
    ensures var merged := D.Merge(d, patch).value;
            if v.Some? then Holds(merged, p, v.value)
            else D.Lookup(D.Obj(merged), p) == D.Lookup(D.Obj(d), p)
  {
    D.MergeAtPath(d, patch, p);
  }

  lemma FieldApplied(c: Control, p: Patch, f: Field)
    ensures Value(ApplyPatch(c, p), f) == Or(Changed(p, f), Value(c, f))
    ensures Changed(p, f).Some? ==> !Changed(p, f).value.Obj?
  {
  }

  lemma ManualMerged(d: Doc, c: Control, patch: Doc, p: Patch)
    requires RepresentsManual(d, c.manual) && QueuesManual(patch, p.manual) && D.Merge(d, patch).Some?
    ensures RepresentsManual(D.Merge(d, patch).value, Or(p.manual, c.manual))
  {
    match p.manual
    case None =>
      PathMerged(d, patch, MANUAL_CHANGE, None);
      PathMerged(d, patch, MANUAL_OUTPUT, None);
    case Some(None) => PathMerged(d, patch, MANUAL_CHANGE, D.Lookup(D.Obj(patch), MANUAL_CHANGE));
    case Some(Some(o)) =>
      PathMerged(d, patch, MANUAL_CHANGE, Some(D.Str(DeviceName(o.device))));
      PathMerged(d, patch, MANUAL_OUTPUT, Some(D.Bool(o.on)));
  }

  // Merging a queued document into the stored one is applying the patch.
  lemma MergeRepresents(d: Doc, c: Control, patch: Doc, p: Patch)
    requires Represents(d, c) && Queues(patch, p) && D.Merge(d, patch).Some?
    ensures Represents(D.Merge(d, patch).value, ApplyPatch(c, p))
  {
    var merged := D.Merge(d, patch).value;
    forall f: Field ensures Shows(merged, f, Value(ApplyPatch(c, p), f)) {
      FieldApplied(c, p, f);
      assert Shows(d, f, Value(c, f)) && Names(patch, At(f), Changed(p, f));
      PathMerged(d, patch, At(f), Changed(p, f));
    }
    ManualMerged(d, c, patch, p);
  }

  lemma {:induction false} MergesRepresent(d: Doc, c: Control, docs: seq<Doc>, patches: seq<Patch>)
    requires Represents(d, c) && |docs| == |patches| && D.MergeInTurn(d, docs).Some?
    requires forall i | 0 <= i < |docs| :: Queues(docs[i], patches[i])
    ensures Represents(D.MergeInTurn(d, docs).value, Drained(c, patches))
    decreases |docs|
  {
    if docs != [] {
      MergeRepresents(d, c, docs[0], patches[0]);
      MergesRepresent(D.Merge(d, docs[0]).value, ApplyPatch(c, patches[0]), docs[1..], patches[1..]);
    }
  }

  // Draining the stored queue into the stored record leaves the record that the
  // control process goes on with: all patches applied, or those before the first
  // document that clashes.
  lemma DrainRepresents(fallback: Doc, d: Doc, c: Control, docs: seq<Doc>, patches: seq<Patch>, origins: seq<string>)
    requires Represents(d, c) && |docs| == |patches| == |origins|
    requires forall i | 0 <= i < |docs| :: Queues(docs[i], patches[i])
    requires forall doc | doc in docs :: "origin" !in doc
    ensures var drained, n := D.Drain(fallback, Some(d), D.Stamped(docs, origins)), D.MergedCount(d, docs);
            && drained.record.Some? && Represents(drained.record.value, Drained(c, patches[..n]))
            && (drained.status == D.Emptied <==> n == |patches|)
  {
    D.DrainStopsAtClash(fallback, d, docs, origins);
    var n := D.MergedCount(d, docs);
    MergesRepresent(d, c, docs[..n], patches[..n]);
  }

  // ----- The documents the program itself writes -----

  // The default record, of which the temperatures are integers.
  function DefaultDocument(s: Settings): Doc {
    map[
      "updated" := D.Bool(true), "mode" := D.Str("Stop"), "next_mode" := D.Str("Stop"), "status" := D.Str(""),
      "primary_setpoint" := D.Int(0), "critical_error" := D.Bool(false), "units_change" := D.Bool(false),
      "lid_open_toggle" := D.Bool(false),
      "recipe" := D.Obj(map[
        "filename" := D.Str(""), "start_step" := D.Int(0), "step" := D.Int(0), "step_data" := D.Obj(map[])]),
      "safety" := D.Obj(map[
        "startuptemp" := D.Int(0), "afterstarttemp" := D.Int(0), "reigniteretries" := D.Int(s.retries),
        "reignitelaststate" := D.Str("Smoke")]),
      "manual" := D.Obj(map[
        "change" := D.Bool(false), "fan" := D.Bool(false), "auger" := D.Bool(false), "igniter" := D.Bool(false),
        "power" := D.Bool(false), "pwm" := D.Int(100)])]
  }

  lemma LookupOne(d: Doc, k: string)
    requires k in d
    ensures D.Lookup(D.Obj(d), [k]) == Some(d[k])
  {
    assert [k][1..] == [];
  }

  lemma LookupTwo(d: Doc, k: string, j: string)
    requires k in d && d[k].Obj?
    ensures D.Lookup(D.Obj(d), [k, j]) == D.Get(d[k].fields, j)
  {
    assert [k, j][1..] == [j];
    if j in d[k].fields { LookupOne(d[k].fields, j); }
  }

  lemma LookupThree(d: Doc, k: string, j: string, i: string)
    requires k in d && d[k].Obj? && j in d[k].fields && d[k].fields[j].Obj?
    ensures D.Lookup(D.Obj(d), [k, j, i]) == D.Get(d[k].fields[j].fields, i)
  {
    assert [k, j, i][1..] == [j, i];
    LookupTwo(d[k].fields, j, i);
  }

  // What a flush stores is what the control process takes it for.
  lemma DefaultIsRepresented(s: Settings)
    ensures Represents(DefaultDocument(s), DefaultControl(s))
  {
    var d := DefaultDocument(s);
    forall f: Field ensures Shows(d, f, Value(DefaultControl(s), f)) {
      match f
      case StartupTemp => LookupTwo(d, "safety", "startuptemp");
      case AfterStartTemp => LookupTwo(d, "safety", "afterstarttemp");
      case Retries => LookupTwo(d, "safety", "reigniteretries");
      case LastState => LookupTwo(d, "safety", "reignitelaststate");
      case Triggered => LookupThree(d, "recipe", "step_data", "triggered");
      case Pause => LookupThree(d, "recipe", "step_data", "pause");
      case StartStep => LookupTwo(d, "recipe", "start_step");
      case _ => LookupOne(d, At(f)[0]);
    }
    LookupTwo(d, "manual", "change");
  }

  // A request to hold, with a whole number in Fahrenheit, queues as a patch.
  lemma HoldRequestQueues(target: int)
    ensures var d: Doc := map["mode" := D.Str("Hold"), "primary_setpoint" := D.Int(target), "updated" := D.Bool(true)];
            Queues(d, NO_PATCH.(mode := Some(Hold), setpoint := Some(target as real), updated := Some(true)))
  {
    var d: Doc := map["mode" := D.Str("Hold"), "primary_setpoint" := D.Int(target), "updated" := D.Bool(true)];
    var p := NO_PATCH.(mode := Some(Hold), setpoint := Some(target as real), updated := Some(true));
    forall f: Field ensures Names(d, At(f), Changed(p, f)) {
      if At(f)[0] in d { LookupOne(d, At(f)[0]); }
    }
  }
}
