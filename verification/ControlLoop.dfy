/** The main loop: mode dispatch, the scheduler of the next mode, and recipes. */
module ControlLoop {
  import opened Wrappers
  import opened ControlRecord
  import opened WorkCycle

  // What a run leaves behind for its reader: cycles begun and the auger time each
  // reported, errors and reignites they raised, passes through the Stop/Error
  // handler, and a pending error that a request from outside replaced.
  datatype Event =
    | Began(mode: Mode) | Closed(metric: real) | Fault | Reignited | HandledStop | HandledError | Redirected

  datatype Plant = Plant(control: Control, out: Outputs, usage: real, trace: seq<Event>)

  // An error the main loop has yet to handle.
  predicate Faulted(c: Control) { c.mode == Error && c.updated }

  // ----- Running one work cycle -----

  datatype CycleIn = CycleIn(opening: Opening, ticks: seq<Tick>)

  function ExitEvents(e: Exit): seq<Event> {
    if e.Failed? then [Fault] else if e.Flamed? then [Reignited] else []
  }

  // What is left of a cycle: all of it, if its inputs end inside it.
  function Leave(s: Settings, p: Plant, c: Cycle): (Plant, bool) {
    if c.Running() then (Plant(c.control, c.out, p.usage, p.trace), false)
    else
      (Plant(ClosingControl(c), ClosingOutputs(c.mode, c.out), p.usage + Times(c.timers.metric, s.augerRate),
             p.trace + [Closed(c.timers.metric)] + ExitEvents(c.exit)),
       true)
  }

  // False when the ticks given end inside the cycle.
  function RunCycle(s: Settings, p: Plant, mode: Mode, ci: CycleIn): (Plant, bool) {
    Leave(s, p.(trace := p.trace + [Began(mode)]), Loop(s, Open(s, p.control, mode, ci.opening), ci.ticks))
  }

  function Redirect(p: Plant, c: Control): Plant {
    p.(control := c, trace := if Faulted(p.control) && !Faulted(c) then p.trace + [Redirected] else p.trace)
  }

  // The queue drained outside a cycle. Losing a pending error is put on record.
  function DrainInto(p: Plant, patches: seq<Patch>): Plant {
    Redirect(p, Drained(p.control, patches))
  }

  // ----- The scheduler of the next mode -----

  function NextMode(p: Plant, next: Mode, setpoint: real, patches: seq<Patch>): Plant {
    var drained := DrainInto(p, patches);
    if drained.control.updated then drained
    else
      var target := if next == Hold then setpoint else 0.0;
      drained.(control := drained.control.(mode := next, setpoint := target, updated := true))
  }

  // ----- Recipes -----

  datatype RecipeStep = RecipeStep(mode: Mode, holdTemp: real, pause: bool)

  // One pass of the recipe loop: the step's cycle, the patches queued by its end,
  // and the reignite cycle, if one is due.
  datatype StepIn = StepIn(cycle: CycleIn, patches: seq<Patch>, reignite: CycleIn)

  datatype Leg = Step(n: nat) | Again

  function StepControl(c: Control, step: RecipeStep): Control {
    c.(triggered := false, pause := step.pause, setpoint := step.holdTemp, updated := false)
  }

  // How one pass of the recipe loop ends: inside a cycle, because another mode was
  // requested, to run the step again, or to go on to the next.
  datatype Verdict = Interrupted | Cancelled | Rerun | Next

  datatype StepRun = StepRun(plant: Plant, relit: bool, verdict: Verdict)

  function Relight(s: Settings, p: Plant, ci: CycleIn): StepRun {
    var (relit, finished) := RunCycle(s, p.(control := p.control.(updated := false, mode := Recipe)), Reignite, ci);
    StepRun(relit, true,
            if !finished then Interrupted
            else if relit.control.updated && relit.control.mode != Recipe then Cancelled
            else Rerun)
  }

  function RunStep(s: Settings, p: Plant, step: RecipeStep, i: StepIn): StepRun {
    var (ran, finished) := RunCycle(s, p.(control := StepControl(p.control, step)), step.mode, i.cycle);
    if !finished then StepRun(ran, false, Interrupted)
    else
      var after := DrainInto(ran, i.patches);
      if after.control.mode == Reignite && after.control.updated then Relight(s, after, i.reignite)
      else
        StepRun(after, false, if after.control.mode != Recipe && after.control.updated then Cancelled else Next)
  }

  function Legs(r: StepRun, n: nat): seq<Leg> { if r.relit then [Step(n), Again] else [Step(n)] }

  // Where a recipe stopped: at a step, done or with its inputs used up, and the
  // legs it went through.
  datatype RecipeEnd = RecipeEnd(plant: Plant, step: nat, done: bool, legs: seq<Leg>)

  function RecipeLoop(s: Settings, p: Plant, steps: seq<RecipeStep>, n: nat, ins: seq<StepIn>): RecipeEnd
    decreases |ins|
  {
    if n >= |steps| then RecipeEnd(p, n, true, [])
    else if ins == [] then RecipeEnd(p, n, false, [])
    else
      var r := RunStep(s, p, steps[n], ins[0]);
      match r.verdict
      case Interrupted => RecipeEnd(r.plant, n, false, Legs(r, n))
      case Cancelled => RecipeEnd(r.plant, n, true, Legs(r, n))
      case Rerun =>
        var e := RecipeLoop(s, r.plant, steps, n, ins[1..]);
        e.(legs := Legs(r, n) + e.legs)
      case Next =>
        var e := RecipeLoop(s, r.plant, steps, n + 1, ins[1..]);
        e.(legs := Legs(r, n) + e.legs)
  }

  function StepCleared(c: Control): Control { c.(triggered := false, pause := false) }

  // Clean-up. A recipe that no other mode interrupted stops the grill.
  function CloseRecipe(p: Plant, n: nat, total: nat): Plant {
    var cleared := StepCleared(p.control);
    p.(control := if !cleared.updated || n == total then cleared.(updated := true, mode := Stop) else cleared)
  }

  // A recipe file that is missing or does not load ends the recipe at once.
  function RecipeMode(s: Settings, p: Plant, file: Option<seq<RecipeStep>>, ins: seq<StepIn>): (Plant, bool) {
    if file.None? then (p, true)
    else
      var e := RecipeLoop(s, p, file.value, p.control.startStep, ins);
      if e.done then (CloseRecipe(e.plant, e.step, |file.value|), true) else (e.plant, false)
  }

  // ----- One pass of the main loop -----

  // The main loop keeps its own copy of the record, as of its last read. It is
  // alive until the inputs of a run end inside a work cycle.
  datatype Main = Main(plant: Plant, local: Control, alive: bool)

  datatype HeadIn = HeadIn(
    switchOff: bool, patches: seq<Patch>, notices: seq<Notice>, first: CycleIn, second: CycleIn,
    nextPatches: seq<Patch>, file: Option<seq<RecipeStep>>, steps: seq<StepIn>)

  // The Stop/Error handler: everything off, the record back to its defaults.
  function HandleStop(s: Settings, p: Plant): Plant {
    var error := p.control.mode == Error;
    var control := DefaultControl(s).(updated := false, mode := p.control.mode,
                                      status := if error then Inactive else Blank);
    Plant(control, Outputs(error && p.control.status == Monitoring, false, false, false), p.usage,
          p.trace + [if error then HandledError else HandledStop])
  }

  // A cycle followed by the scheduler, as most modes are dispatched. The main loop
  // is left with the copy it had before the cycle.
  function CycleThenNext(s: Settings, p: Plant, mode: Mode, next: Mode, setpoint: real, ci: CycleIn,
                         patches: seq<Patch>): Main
  {
    var (ran, finished) := RunCycle(s, p, mode, ci);
    Main(if finished then NextMode(ran, next, setpoint, patches) else ran, p.control, finished)
  }

  function JustCycle(s: Settings, p: Plant, mode: Mode, ci: CycleIn): Main {
    var (ran, finished) := RunCycle(s, p, mode, ci);
    Main(ran, p.control, finished)
  }

  function Ignite(s: Settings, p: Plant, h: HeadIn): Main {
    CycleThenNext(s, p.(control := p.control.(nextMode := s.afterStartup)), Startup, s.afterStartup, s.startSetpoint,
                  h.second, h.nextPatches)
  }

  // Start-up, priming first if that is set. Priming that something interrupted is
  // not followed by the start-up.
  function RunStartup(s: Settings, p: Plant, h: HeadIn): Main {
    if !s.primeOnStartup then Ignite(s, p, h)
    else
      var (primed, finished) := RunCycle(s, p.(control := p.control.(mode := Prime)), Prime, h.first);
      if !finished || primed.control.mode !in {Prime, Startup} then Main(primed, primed.control, finished)
      else Ignite(s, primed.(control := primed.control.(updated := false, mode := Startup)), h)
  }

  function Dispatch(s: Settings, p: Plant, h: HeadIn): Main {
    var c := p.control;
    match c.mode
    case Stop => var stopped := HandleStop(s, p); Main(stopped, stopped.control, true)
    case Error => var stopped := HandleStop(s, p); Main(stopped, stopped.control, true)
    case Prime => CycleThenNext(s, p, Prime, c.nextMode, s.startSetpoint, h.first, h.nextPatches)
    case Startup => RunStartup(s, p, h)
    case Smoke => CycleThenNext(s, p, Smoke, c.nextMode, 0.0, h.first, h.nextPatches)
    case Hold => CycleThenNext(s, p, Hold, c.nextMode, 0.0, h.first, h.nextPatches)
    case Shutdown => CycleThenNext(s, p.(control := c.(nextMode := Stop)), Shutdown, Stop, 0.0, h.first, h.nextPatches)
    case Monitor => JustCycle(s, p.(control := c.(status := Monitoring)), Monitor, h.first)
    case Manual => JustCycle(s, p, Manual, h.first)
    case Recipe => var (after, finished) := RecipeMode(s, p, h.file, h.steps); Main(after, c, finished)
    case Reignite =>
      CycleThenNext(s, p.(control := c.(nextMode := c.safety.lastState)), Reignite, c.safety.lastState, c.setpoint,
                    h.first, h.nextPatches)
    case Unknown(_) => Main(p, c, true)
  }

  function Switched(m: Main, h: HeadIn): Plant {
    if h.switchOff then Redirect(m.plant, m.local.(updated := true, mode := Stop)) else m.plant
  }

  // The record as the head of the loop leaves it: the switch, turned off, writes
  // the main loop's own copy back; then the queue and the notifications.
  function HeadControl(m: Main, h: HeadIn): Plant {
    var drained := DrainInto(Switched(m, h), h.patches);
    Redirect(drained, Notified(drained.control, h.notices))
  }

  // A requested units change turns whatever is pending into a stop.
  function Accepted(p: Plant): Plant {
    var c := p.control.(updated := false);
    var changed := if c.unitsChange then c.(mode := Stop, unitsChange := false) else c;
    p.(control := if changed.status != Monitoring && changed.mode != Error then changed.(status := Active) else changed,
       trace := if Faulted(p.control) && c.unitsChange then p.trace + [Redirected] else p.trace)
  }

  function Head(s: Settings, m: Main, h: HeadIn): Main {
    if !m.alive then m
    else
      var p := HeadControl(m, h);
      if !p.control.updated || p.control.critical then Main(p, p.control, true)
      else
        Dispatch(s, Accepted(p), h)
  }

  function Heads(s: Settings, m: Main, hs: seq<HeadIn>): Main
    decreases |hs|
  {
    if hs == [] then m else Heads(s, Head(s, m, hs[0]), hs[1..])
  }
}
