/** Recipes make progress: reignites rerun a step, and only so often. */
module RecipeProgress {
  import opened Wrappers
  import opened ControlRecord
  import opened WorkCycle
  import opened ControlLoop
  import opened CycleFacts
  import F = FaultHandling

  // A reignite is asked for by flame-outs alone, and only they touch the counter.
  predicate Tame(patches: seq<Patch>) {
    forall i | 0 <= i < |patches| :: patches[i].retries.None? && patches[i].mode != Some(Reignite)
  }

  predicate TameCycle(ci: CycleIn) {
    forall i | 0 <= i < |ci.ticks| :: Tame(ci.ticks[i].patches) && WantReignite !in ci.ticks[i].notices
  }

  predicate TameStep(i: StepIn) { TameCycle(i.cycle) && Tame(i.patches) && TameCycle(i.reignite) }

  // Twice the reignites that can still happen: one per retry, and one more if it is
  // already asked for.
  function Fuel(c: Control): int { 2 * c.safety.retries + (if c.mode == Reignite then 2 else 0) }

  lemma {:induction false} DrainedFuel(c: Control, patches: seq<Patch>)
    requires Tame(patches)
    ensures Drained(c, patches).safety.retries == c.safety.retries
    ensures Drained(c, patches).mode == Reignite ==> c.mode == Reignite
    decreases |patches|
  {
    if patches != [] {
      DrainedFuel(ApplyPatch(c, patches[0]), patches[1..]);
    }
  }

  lemma EndFuel(s: Settings, c: Cycle, now: real)
    ensures EndStep(s, c, now).control.safety == c.control.safety
    ensures Fuel(EndStep(s, c, now).control) <= Fuel(c.control)
  {
  }

  lemma CookFuel(s: Settings, c: Cycle, t: Tick)
    requires c.control.safety.retries >= 0
    ensures var c' := CookStep(s, c, t);
            c'.control.safety.retries >= 0 && Fuel(c'.control) <= Fuel(c.control)
  {
    if c.ptemp >= c.control.safety.startupTemp as real {
      LidStepCourse(s, c, t);
      var fanned := FanStep(LidStep(s, c, t), t.fan);
      assert fanned.control == LidStep(s, c, t).control;
      EndFuel(s, fanned, t.now);
    }
  }

  lemma SensorFuel(s: Settings, c: Cycle, t: Tick)
    requires c.Running() && c.control.safety.retries >= 0 && WantReignite !in t.notices
    ensures var c' := SensorStep(s, c, t);
            c'.control.safety.retries >= 0 && Fuel(c'.control) <= Fuel(c.control)
  {
    var read := ReadStep(c, t);
    NotifiedKeeps(c.control, t.notices);
    assert Fuel(read.control) <= Fuel(c.control) && read.control.safety.retries == c.control.safety.retries;
    EndFuel(s, Warmed(read), t.now);
    EndFuel(s, read, t.now);
    CookFuel(s, read, t);
  }

  // A tame pass uses fuel only by letting a reignite request be replaced.
  lemma PassFuel(s: Settings, c: Cycle, t: Tick)
    requires c.Running() && c.control.safety.retries >= 0 && Tame(t.patches) && WantReignite !in t.notices
    ensures var c' := Pass(s, c, t);
            c'.control.safety.retries >= 0 && Fuel(c'.control) <= Fuel(c.control)
  {
    DrainedFuel(c.control, t.patches);
    var drained := c.(control := Drained(c.control, t.patches));
    if !drained.control.updated && !t.switchOff {
      AugerStepCourse(s, drained, c.out.auger, t);
      SensorFuel(s, AugerStep(s, ManualStep(s, drained, t.now), c.out.auger, t), t);
    }
  }

  lemma {:induction false} LoopFuel(s: Settings, c: Cycle, ticks: seq<Tick>)
    requires c.control.safety.retries >= 0
    requires forall i | 0 <= i < |ticks| :: Tame(ticks[i].patches) && WantReignite !in ticks[i].notices
    ensures var c' := Loop(s, c, ticks);
            c'.control.safety.retries >= 0 && Fuel(c'.control) <= Fuel(c.control)
    decreases |ticks|
  {
    if c.Running() && ticks != [] {
      PassFuel(s, c, ticks[0]);
      LoopFuel(s, Pass(s, c, ticks[0]), ticks[1..]);
    }
  }

  lemma RunCycleFuel(s: Settings, p: Plant, mode: Mode, ci: CycleIn)
    requires p.control.safety.retries >= 0 && TameCycle(ci)
    ensures var q := RunCycle(s, p, mode, ci).0;
            q.control.safety.retries >= 0 && Fuel(q.control) <= Fuel(p.control)
  {
    var begin := Open(s, p.control, mode, ci.opening);
    assert Fuel(begin.control) <= Fuel(p.control) && begin.control.safety.retries >= 0;
    LoopFuel(s, begin, ci.ticks);
    assert Fuel(RunCycle(s, p, mode, ci).0.control) == Fuel(Loop(s, begin, ci.ticks).control);
  }

  lemma RelightFuel(s: Settings, p: Plant, ci: CycleIn)
    requires p.control.safety.retries >= 0 && TameCycle(ci)
    ensures var r := Relight(s, p, ci);
            && r.plant.control.safety.retries >= 0 && r.relit && !r.verdict.Next?
            && (p.control.mode == Reignite ==> Fuel(r.plant.control) <= Fuel(p.control) - 2)
  {
    RunCycleFuel(s, p.(control := p.control.(updated := false, mode := Recipe)), Reignite, ci);
  }

  // One pass of the recipe loop pays for each of its legs: a reignite takes fuel
  // for two, a step that is done is one step less to go.
  lemma RunStepFuel(s: Settings, p: Plant, step: RecipeStep, i: StepIn)
    requires p.control.safety.retries >= 0 && TameStep(i)
    ensures var r := RunStep(s, p, step, i);
            && r.plant.control.safety.retries >= 0
            && Fuel(r.plant.control) <= Fuel(p.control) - (if r.relit then 2 else 0)
            && (r.verdict.Rerun? ==> r.relit) && (r.verdict.Next? ==> !r.relit)
  {
    var q := p.(control := StepControl(p.control, step));
    RunCycleFuel(s, q, step.mode, i.cycle);
    var ran := RunCycle(s, q, step.mode, i.cycle).0;
    DrainedFuel(ran.control, i.patches);
    var after := DrainInto(ran, i.patches);
    RelightFuel(s, after, i.reignite);
  }

  // Every leg is one work cycle. A recipe at step n of a record with R retries left
  // and no reignite asked for runs at most (|steps| - n) + 2R of them.
  lemma {:induction false} RecipeRunsAtMost(s: Settings, p: Plant, steps: seq<RecipeStep>, n: nat, ins: seq<StepIn>)
    requires n <= |steps| && p.control.safety.retries >= 0
    requires forall i | 0 <= i < |ins| :: TameStep(ins[i])
    ensures |RecipeLoop(s, p, steps, n, ins).legs| <= |steps| - n + Fuel(p.control)
    decreases |ins|
  {
    if n < |steps| && ins != [] {
      RunStepFuel(s, p, steps[n], ins[0]);
      var r := RunStep(s, p, steps[n], ins[0]);
      assert |Legs(r, n)| == if r.relit then 2 else 1;
      if r.verdict.Rerun? || r.verdict.Next? {
        RecipeRunsAtMost(s, r.plant, steps, if r.verdict.Rerun? then n else n + 1, ins[1..]);
      }
    }
  }

  // From the dispatcher: the mode is Recipe, so no reignite is asked for yet.
  lemma RecipeProgressBound(s: Settings, p: Plant, steps: seq<RecipeStep>, ins: seq<StepIn>)
    requires p.control.mode == Recipe && p.control.startStep <= |steps| && p.control.safety.retries >= 0
    requires forall i | 0 <= i < |ins| :: TameStep(ins[i])
    ensures |RecipeLoop(s, p, steps, p.control.startStep, ins).legs|
            <= |steps| - p.control.startStep + 2 * p.control.safety.retries
  {
    RecipeRunsAtMost(s, p, steps, p.control.startStep, ins);
  }

  // The step due after legs that began at step n: a reignite makes the same step
  // due again. Nothing, for legs that run any other step.
  function Due(legs: seq<Leg>, n: nat): Option<nat>
    decreases |legs|
  {
    if legs == [] then Some(n)
    else if legs[0] != Step(n) then None
    else if |legs| > 1 && legs[1] == Again then Due(legs[2..], n)
    else Due(legs[1..], n + 1)
  }

  // In order from step n, and the recipe stopped at the step due next or at the last
  // one it ran.
  predicate InOrder(legs: seq<Leg>, n: nat, stop: nat) {
    Due(legs, n).Some? && stop <= Due(legs, n).value <= stop + 1
  }

  lemma RerunMeansRelit(s: Settings, p: Plant, step: RecipeStep, i: StepIn)
    ensures var r := RunStep(s, p, step, i); (r.verdict.Rerun? ==> r.relit) && (r.verdict.Next? ==> !r.relit)
  {
  }

  lemma MoreLegs(r: StepRun, n: nat, rest: seq<Leg>, stop: nat)
    requires InOrder(rest, if r.relit then n else n + 1, stop)
    ensures InOrder(Legs(r, n) + rest, n, stop)
  {
    assert r.relit ==> (Legs(r, n) + rest)[2..] == rest;
    assert !r.relit ==> (Legs(r, n) + rest)[1..] == rest;
  }

  lemma LastLegs(r: StepRun, n: nat)
    ensures InOrder(Legs(r, n), n, n)
  {
    assert Legs(r, n)[1..] == if r.relit then [Again] else [];
    assert r.relit ==> Legs(r, n)[2..] == [];
  }

  // The legs of a recipe always run the step that is due.
  lemma {:induction false} LegsInOrder(s: Settings, p: Plant, steps: seq<RecipeStep>, n: nat, ins: seq<StepIn>)
    requires n <= |steps|
    ensures var e := RecipeLoop(s, p, steps, n, ins); n <= e.step <= |steps| && InOrder(e.legs, n, e.step)
    decreases |ins|
  {
    if n < |steps| && ins != [] {
      var r := RunStep(s, p, steps[n], ins[0]);
      RerunMeansRelit(s, p, steps[n], ins[0]);
      if r.verdict.Rerun? || r.verdict.Next? {
        var n' := if r.relit then n else n + 1;
        LegsInOrder(s, r.plant, steps, n', ins[1..]);
        var e := RecipeLoop(s, r.plant, steps, n', ins[1..]);
        MoreLegs(r, n, e.legs, e.step);
      } else {
        LastLegs(r, n);
      }
    }
  }

  // Step k ran and was not followed by a reignite.
  ghost predicate Completed(legs: seq<Leg>, k: nat) {
    exists i :: 0 <= i < |legs| && legs[i] == Step(k) && (i + 1 < |legs| ==> legs[i + 1] != Again)
  }

  lemma CompletedLater(legs: seq<Leg>, rest: seq<Leg>, first: nat, last: nat, skip: nat)
    requires skip <= |legs| && legs[skip..] == rest
    requires forall k | first <= k < last :: Completed(rest, k)
    ensures forall k | first <= k < last :: Completed(legs, k)
  {
    forall k | first <= k < last ensures Completed(legs, k) {
      assert Completed(rest, k);
      var i :| 0 <= i < |rest| && rest[i] == Step(k) && (i + 1 < |rest| ==> rest[i + 1] != Again);
      assert legs[i + skip] == rest[i];
      assert i + skip + 1 < |legs| ==> legs[i + skip + 1] == rest[i + 1];
    }
  }

  lemma {:induction false} DueMeansCompleted(legs: seq<Leg>, n: nat)
    requires Due(legs, n).Some?
    ensures forall k | n <= k < Due(legs, n).value :: Completed(legs, k)
    decreases |legs|
  {
    if legs != [] {
      if |legs| > 1 && legs[1] == Again {
        DueMeansCompleted(legs[2..], n);
        CompletedLater(legs, legs[2..], n, Due(legs, n).value, 2);
      } else {
        DueMeansCompleted(legs[1..], n + 1);
        CompletedLater(legs, legs[1..], n + 1, Due(legs, n).value, 1);
        assert legs[0] == Step(n);
      }
    }
  }

  // No step is skipped: whatever a recipe got past, it completed, a reignited step
  // only by running it again.
  lemma NoStepIsSkipped(s: Settings, p: Plant, steps: seq<RecipeStep>, n: nat, ins: seq<StepIn>)
    requires n <= |steps|
    ensures var e := RecipeLoop(s, p, steps, n, ins);
            forall k | n <= k < e.step :: Completed(e.legs, k)
  {
    LegsInOrder(s, p, steps, n, ins);
    DueMeansCompleted(RecipeLoop(s, p, steps, n, ins).legs, n);
  }

  // The modes of the work cycles begun in a trace, in order.
  function Begun(trace: seq<Event>): seq<Mode>
    decreases |trace|
  {
    if trace == [] then []
    else
      var last := trace[|trace| - 1];
      Begun(trace[..|trace| - 1]) + (if last.Began? then [last.mode] else [])
  }

  lemma BegunLast(trace: seq<Event>, e: Event)
    ensures Begun(trace + [e]) == if e.Began? then Begun(trace) + [e.mode] else Begun(trace)
  {
    assert (trace + [e])[..|trace|] == trace;
    assert Begun(trace) + [] == Begun(trace);
  }

  lemma ClosingBegun(trace: seq<Event>, metric: real, e: Exit)
    ensures Begun(trace + [Closed(metric)] + ExitEvents(e)) == Begun(trace)
  {
    var closed := trace + [Closed(metric)];
    BegunLast(trace, Closed(metric));
    if e.Failed? {
      BegunLast(closed, Fault);
    } else if e.Flamed? {
      BegunLast(closed, Reignited);
    } else {
      assert closed + [] == closed;
    }
  }

  lemma LeaveBegun(s: Settings, p: Plant, c: Cycle)
    ensures Begun(Leave(s, p, c).0.trace) == Begun(p.trace)
  {
    ClosingBegun(p.trace, c.timers.metric, c.exit);
  }

  lemma RunCycleBegun(s: Settings, p: Plant, mode: Mode, ci: CycleIn)
    ensures Begun(RunCycle(s, p, mode, ci).0.trace) == Begun(p.trace) + [mode]
  {
    BegunLast(p.trace, Began(mode));
    LeaveBegun(s, p.(trace := p.trace + [Began(mode)]), Loop(s, Open(s, p.control, mode, ci.opening), ci.ticks));
  }

  lemma RelightBegun(s: Settings, p: Plant, ci: CycleIn)
    ensures Begun(Relight(s, p, ci).plant.trace) == Begun(p.trace) + [Reignite]
  {
    RunCycleBegun(s, p.(control := p.control.(updated := false, mode := Recipe)), Reignite, ci);
  }

  lemma DrainBegun(p: Plant, patches: seq<Patch>)
    ensures Begun(DrainInto(p, patches).trace) == Begun(p.trace)
  {
    BegunLast(p.trace, Redirected);
  }

  lemma RunStepBegun(s: Settings, p: Plant, step: RecipeStep, i: StepIn)
    ensures var r := RunStep(s, p, step, i);
            Begun(r.plant.trace)
            == if r.relit then Begun(p.trace) + [step.mode] + [Reignite] else Begun(p.trace) + [step.mode]
  {
    var q := p.(control := StepControl(p.control, step));
    RunCycleBegun(s, q, step.mode, i.cycle);
    var (ran, finished) := RunCycle(s, q, step.mode, i.cycle);
    if finished {
      DrainBegun(ran, i.patches);
      RelightBegun(s, DrainInto(ran, i.patches), i.reignite);
    }
  }

  // A step's leg runs in the step's mode, and the leg after a lost flame in Reignite.
  function LegModes(steps: seq<RecipeStep>, legs: seq<Leg>): seq<Mode>
    decreases |legs|
  {
    if legs == [] then []
    else
      var mode := match legs[0] case Again => [Reignite]
                                case Step(n) => if n < |steps| then [steps[n].mode] else [];
      mode + LegModes(steps, legs[1..])
  }

  lemma StepLegModes(steps: seq<RecipeStep>, r: StepRun, n: nat, rest: seq<Leg>)
    requires n < |steps|
    ensures LegModes(steps, Legs(r, n) + rest)
            == if r.relit then [steps[n].mode] + ([Reignite] + LegModes(steps, rest))
               else [steps[n].mode] + LegModes(steps, rest)
  {
    var legs := Legs(r, n) + rest;
    if r.relit {
      assert legs[1..] == [Again] + rest && ([Again] + rest)[1..] == rest;
    } else {
      assert legs[1..] == rest;
    }
  }

  lemma Regroup(a: seq<Mode>, b: seq<Mode>, c: seq<Mode>, d: seq<Mode>)
    ensures a + b + c + d == a + (b + (c + d)) && a + b + d == a + (b + d)
  {
  }

  lemma MoreBegun(steps: seq<RecipeStep>, before: seq<Mode>, r: StepRun, n: nat, rest: seq<Leg>, end: seq<Mode>)
    requires n < |steps|
    requires Begun(r.plant.trace)
             == if r.relit then before + [steps[n].mode] + [Reignite] else before + [steps[n].mode]
    requires end == Begun(r.plant.trace) + LegModes(steps, rest)
    ensures end == before + LegModes(steps, Legs(r, n) + rest)
  {
    StepLegModes(steps, r, n, rest);
    Regroup(before, [steps[n].mode], [Reignite], LegModes(steps, rest));
  }

  // One pass of the recipe loop, on the modes begun.
  lemma PassBegun(s: Settings, p: Plant, steps: seq<RecipeStep>, n: nat, ins: seq<StepIn>, e: RecipeEnd)
    requires n < |steps| && ins != []
    requires var r := RunStep(s, p, steps[n], ins[0]);
             Begun(e.plant.trace) == Begun(r.plant.trace) + LegModes(steps, e.legs)
    ensures var r := RunStep(s, p, steps[n], ins[0]);
            Begun(e.plant.trace) == Begun(p.trace) + LegModes(steps, Legs(r, n) + e.legs)
  {
    RunStepBegun(s, p, steps[n], ins[0]);
    MoreBegun(steps, Begun(p.trace), RunStep(s, p, steps[n], ins[0]), n, e.legs, Begun(e.plant.trace));
  }

  // The work cycles of a recipe are its legs, each in its mode.
  lemma {:induction false} LegsAreCycles(s: Settings, p: Plant, steps: seq<RecipeStep>, n: nat, ins: seq<StepIn>)
    ensures var e := RecipeLoop(s, p, steps, n, ins);
            Begun(e.plant.trace) == Begun(p.trace) + LegModes(steps, e.legs)
    decreases |ins|
  {
    if n < |steps| && ins != [] {
      var r := RunStep(s, p, steps[n], ins[0]);
      if r.verdict.Rerun? || r.verdict.Next? {
        var n' := if r.verdict.Rerun? then n else n + 1;
        LegsAreCycles(s, r.plant, steps, n', ins[1..]);
        PassBegun(s, p, steps, n, ins, RecipeLoop(s, r.plant, steps, n', ins[1..]));
      } else {
        PassBegun(s, p, steps, n, ins, RecipeEnd(r.plant, n, true, []));
        assert Legs(r, n) + [] == Legs(r, n);
      }
    }
  }

  // ----- What a step's cycle has to do with its legs -----

  // The exit of a step's cycle, while its inputs last.
  function StepExit(s: Settings, p: Plant, step: RecipeStep, i: StepIn): Exit {
    Loop(s, Open(s, StepControl(p.control, step), step.mode, i.cycle.opening), i.cycle.ticks).exit
  }

  lemma {:induction false} DrainedRequests(c: Control, patches: seq<Patch>)
    requires F.KeepsFaults(patches)
    ensures Drained(c, patches).mode == c.mode && Drained(c, patches).updated == c.updated
    decreases |patches|
  {
    if patches != [] {
      DrainedRequests(ApplyPatch(c, patches[0]), patches[1..]);
    }
  }

  lemma RelightVerdict(s: Settings, p: Plant, ci: CycleIn)
    ensures Relight(s, p, ci).relit && !Relight(s, p, ci).verdict.Next?
  {
  }

  // What a step becomes once its cycle is over and the queue drained.
  lemma VerdictAfterDrain(s: Settings, p: Plant, step: RecipeStep, i: StepIn)
    requires RunCycle(s, p.(control := StepControl(p.control, step)), step.mode, i.cycle).1
    ensures var ran := RunCycle(s, p.(control := StepControl(p.control, step)), step.mode, i.cycle).0;
            var c, r := Drained(ran.control, i.patches), RunStep(s, p, step, i);
            if c.mode == Reignite && c.updated then r.relit && !r.verdict.Next?
            else !r.relit && r.verdict == if c.mode != Recipe && c.updated then Cancelled else Next
  {
    var ran := RunCycle(s, p.(control := StepControl(p.control, step)), step.mode, i.cycle).0;
    RelightVerdict(s, DrainInto(ran, i.patches), i.reignite);
  }

  lemma UnfinishedStep(s: Settings, p: Plant, step: RecipeStep, i: StepIn)
    requires !RunCycle(s, p.(control := StepControl(p.control, step)), step.mode, i.cycle).1
    ensures RunStep(s, p, step, i).verdict.Interrupted? && !RunStep(s, p, step, i).relit
  {
  }

  // Where the queue drained after it names neither a mode nor its flag, a step whose
  // flame went out is followed by a reignite and never counts as done; one that
  // raised an error cancels the recipe.
  lemma FlameOutIsRelit(s: Settings, p: Plant, step: RecipeStep, i: StepIn)
    requires F.KeepsFaults(i.patches)
    ensures var r, exit := RunStep(s, p, step, i), StepExit(s, p, step, i);
            && (exit.Flamed? ==> r.relit && !r.verdict.Next?)
            && (exit.Failed? ==> r.verdict.Cancelled? && !r.relit)
            && (r.verdict.Next? ==> exit in {Requested, SwitchedOff, Finished, NoController})
  {
    var q := p.(control := StepControl(p.control, step));
    var c := RunCycleHonest(s, q, step.mode, i.cycle, false);
    assert StepExit(s, p, step, i) == c.exit;
    if c.Running() {
      UnfinishedStep(s, p, step, i);
    } else {
      DrainedRequests(RunCycle(s, q, step.mode, i.cycle).0.control, i.patches);
      VerdictAfterDrain(s, p, step, i);
    }
  }

  // A step's cycle opens at the step's own temperature, its trigger not pulled yet
  // and its pause as the recipe has it; nothing else of the record is changed for it.
  // A step that needs no reignite leaves what that cycle and the queue left.
  lemma StepRunsAtItsTemperature(s: Settings, p: Plant, step: RecipeStep, i: StepIn)
    ensures var c, r := p.control, RunStep(s, p, step, i);
            var q := p.(control := c.(setpoint := step.holdTemp, pause := step.pause, triggered := false,
                                      updated := false));
            var (ran, finished) := RunCycle(s, q, step.mode, i.cycle);
            && (r.verdict.Interrupted? && !r.relit <==> !finished)
            && (!finished ==> r.plant == ran)
            && (finished && !r.relit ==> r.plant.control == Drained(ran.control, i.patches) && r.plant.out == ran.out)
  {
    var q := p.(control := StepControl(p.control, step));
    var (ran, finished) := RunCycle(s, q, step.mode, i.cycle);
    if finished { RelightVerdict(s, DrainInto(ran, i.patches), i.reignite); }
  }

  lemma RunCycleIgnoresTrace(s: Settings, p: Plant, q: Plant, mode: Mode, ci: CycleIn)
    requires p.control == q.control && p.out == q.out && p.usage == q.usage
    ensures var (p', over), (q', over') := RunCycle(s, p, mode, ci), RunCycle(s, q, mode, ci);
            over == over' && p'.control == q'.control && p'.out == q'.out && p'.usage == q'.usage
  {
  }

  // A reignite inside a recipe runs on the record as drained, back in Recipe mode
  // with the request cleared.
  lemma RelightRunsInRecipe(s: Settings, p: Plant, step: RecipeStep, i: StepIn)
    requires RunStep(s, p, step, i).relit
    ensures var c, r := p.control, RunStep(s, p, step, i);
            var q := p.(control := c.(setpoint := step.holdTemp, pause := step.pause, triggered := false,
                                      updated := false));
            var ran := RunCycle(s, q, step.mode, i.cycle).0;
            var drained := Drained(ran.control, i.patches);
            var (relit, finished) := RunCycle(s, ran.(control := drained.(mode := Recipe, updated := false)), Reignite,
                                              i.reignite);
            && drained.mode == Reignite && drained.updated && r.plant.control == relit.control
            && (r.verdict == if !finished then Interrupted
                             else if relit.control.updated && relit.control.mode != Recipe then Cancelled else Rerun)
  {
    var q := p.(control := StepControl(p.control, step));
    var ran := RunCycle(s, q, step.mode, i.cycle).0;
    var after := DrainInto(ran, i.patches);
    RunCycleIgnoresTrace(s, ran.(control := after.control.(mode := Recipe, updated := false)),
                         after.(control := after.control.(mode := Recipe, updated := false)), Reignite, i.reignite);
  }
}
