/** What a property of the plant needs, to be kept by every dispatched mode. */
module RunLaws {
  import opened Wrappers
  import opened ControlRecord
  import opened ControlLoop

  // A property to be kept, a stronger one that lets a cycle begin, the cycles and
  // drains it bears, and whether it holds even when the inputs end inside a cycle.
  datatype Law = Law(
    inv: Plant -> bool, ready: Plant -> bool, cycles: CycleIn -> bool, queues: seq<Patch> -> bool, total: bool)

  ghost predicate CyclesKeep(s: Settings, l: Law) {
    forall p, mode, ci | l.ready(p) && l.cycles(ci) && (l.total || RunCycle(s, p, mode, ci).1) ::
      l.inv(RunCycle(s, p, mode, ci).0)
  }

  ghost predicate DrainsKeep(l: Law) {
    forall p, patches | l.inv(p) && l.queues(patches) :: l.inv(DrainInto(p, patches))
  }

  // What the dispatcher may write: any record with the same retries while no error
  // is pending, and the end of a recipe step at any time.
  ghost predicate WritesKeep(l: Law) {
    && (forall p | l.ready(p) :: l.inv(p))
    && (forall p | l.inv(p) && !Faulted(p.control) :: l.ready(p))
    && (forall p, c: Control | l.ready(p) && c.safety.retries == p.control.safety.retries :: l.ready(p.(control := c)))
    && (forall p | l.inv(p) :: l.inv(p.(control := StepCleared(p.control))))
  }

  ghost predicate Obeyed(s: Settings, l: Law) { CyclesKeep(s, l) && DrainsKeep(l) && WritesKeep(l) }

  predicate StepBears(l: Law, i: StepIn) { l.cycles(i.cycle) && l.queues(i.patches) && l.cycles(i.reignite) }

  predicate HeadBears(l: Law, h: HeadIn) {
    && l.cycles(h.first) && l.cycles(h.second) && l.queues(h.nextPatches)
    && forall i | 0 <= i < |h.steps| :: StepBears(l, h.steps[i])
  }

  lemma NextModeKeeps(s: Settings, l: Law, p: Plant, next: Mode, setpoint: real, patches: seq<Patch>)
    requires Obeyed(s, l) && l.inv(p) && l.queues(patches)
    ensures l.inv(NextMode(p, next, setpoint, patches))
  {
    var drained := DrainInto(p, patches);
    assert l.inv(drained);
    if !drained.control.updated {
      assert l.ready(drained);
      assert l.ready(NextMode(p, next, setpoint, patches));
    }
  }

  lemma CycleThenNextKeeps(s: Settings, l: Law, p: Plant, mode: Mode, next: Mode, setpoint: real, ci: CycleIn,
                           patches: seq<Patch>)
    requires Obeyed(s, l) && l.ready(p) && l.cycles(ci) && l.queues(patches)
    ensures var m := CycleThenNext(s, p, mode, next, setpoint, ci, patches);
            l.total || m.alive ==> l.inv(m.plant)
  {
    var (ran, finished) := RunCycle(s, p, mode, ci);
    if l.total || finished {
      assert l.inv(ran);
      NextModeKeeps(s, l, ran, next, setpoint, patches);
    }
  }

  lemma RelightKeeps(s: Settings, l: Law, p: Plant, ci: CycleIn)
    requires Obeyed(s, l) && l.ready(p) && l.cycles(ci)
    ensures var r := Relight(s, p, ci);
            && (l.total || !r.verdict.Interrupted? ==> l.inv(r.plant))
            && (r.verdict.Rerun? ==> l.ready(r.plant))
  {
    var q := p.(control := p.control.(updated := false, mode := Recipe));
    assert l.ready(q);
    assert l.total || RunCycle(s, q, Reignite, ci).1 ==> l.inv(RunCycle(s, q, Reignite, ci).0);
  }

  lemma RunStepKeeps(s: Settings, l: Law, p: Plant, step: RecipeStep, i: StepIn)
    requires Obeyed(s, l) && l.ready(p) && StepBears(l, i)
    ensures var r := RunStep(s, p, step, i);
            && (l.total || !r.verdict.Interrupted? ==> l.inv(r.plant))
            && (r.verdict.Rerun? || r.verdict.Next? ==> l.ready(r.plant))
  {
    var q := p.(control := StepControl(p.control, step));
    assert l.ready(q);
    var (ran, finished) := RunCycle(s, q, step.mode, i.cycle);
    if l.total || finished { assert l.inv(ran); }
    if finished {
      var after := DrainInto(ran, i.patches);
      assert l.inv(after);
      if after.control.mode == Reignite && after.control.updated {
        assert l.ready(after);
        RelightKeeps(s, l, after, i.reignite);
      }
    }
  }

  lemma CancelledIsRequested(s: Settings, p: Plant, step: RecipeStep, i: StepIn)
    ensures var r := RunStep(s, p, step, i); r.verdict.Cancelled? ==> r.plant.control.updated
  {
  }

  // A recipe that got past its last step leaves no error pending.
  lemma {:induction false} RecipeLoopKeeps(s: Settings, l: Law, p: Plant, steps: seq<RecipeStep>, n: nat,
                                           ins: seq<StepIn>)
    requires Obeyed(s, l) && l.ready(p) && forall i | 0 <= i < |ins| :: StepBears(l, ins[i])
    ensures var e := RecipeLoop(s, p, steps, n, ins);
            && (l.total || e.done ==> l.inv(e.plant))
            && (e.done ==> l.ready(e.plant) || (e.step < |steps| && e.plant.control.updated))
    decreases |ins|
  {
    if n < |steps| && ins != [] {
      RunStepKeeps(s, l, p, steps[n], ins[0]);
      var r := RunStep(s, p, steps[n], ins[0]);
      CancelledIsRequested(s, p, steps[n], ins[0]);
      if r.verdict.Rerun? {
        RecipeLoopKeeps(s, l, r.plant, steps, n, ins[1..]);
      } else if r.verdict.Next? {
        RecipeLoopKeeps(s, l, r.plant, steps, n + 1, ins[1..]);
      }
    }
  }

  lemma RecipeModeKeeps(s: Settings, l: Law, p: Plant, file: Option<seq<RecipeStep>>, ins: seq<StepIn>)
    requires Obeyed(s, l) && l.ready(p) && forall i | 0 <= i < |ins| :: StepBears(l, ins[i])
    ensures var (after, finished) := RecipeMode(s, p, file, ins); l.total || finished ==> l.inv(after)
  {
    if file.Some? {
      RecipeLoopKeeps(s, l, p, file.value, p.control.startStep, ins);
      var e := RecipeLoop(s, p, file.value, p.control.startStep, ins);
      if e.done {
        var closed := CloseRecipe(e.plant, e.step, |file.value|);
        if l.ready(e.plant) {
          assert l.ready(e.plant.(control := closed.control));
        } else {
          assert l.inv(e.plant.(control := StepCleared(e.plant.control)));
        }
      }
    }
  }

  lemma IgniteKeeps(s: Settings, l: Law, p: Plant, h: HeadIn)
    requires Obeyed(s, l) && l.ready(p) && HeadBears(l, h)
    ensures l.total || Ignite(s, p, h).alive ==> l.inv(Ignite(s, p, h).plant)
  {
    var q := p.(control := p.control.(nextMode := s.afterStartup));
    assert l.ready(q);
    CycleThenNextKeeps(s, l, q, Startup, s.afterStartup, s.startSetpoint, h.second, h.nextPatches);
  }

  lemma StartupKeeps(s: Settings, l: Law, p: Plant, h: HeadIn)
    requires Obeyed(s, l) && l.ready(p) && HeadBears(l, h)
    ensures l.total || RunStartup(s, p, h).alive ==> l.inv(RunStartup(s, p, h).plant)
  {
    if !s.primeOnStartup {
      IgniteKeeps(s, l, p, h);
    } else {
      var q := p.(control := p.control.(mode := Prime));
      assert l.ready(q);
      var (primed, finished) := RunCycle(s, q, Prime, h.first);
      if l.total || finished { assert l.inv(primed); }
      if finished && primed.control.mode in {Prime, Startup} {
        assert l.ready(primed);
        var ready := primed.(control := primed.control.(updated := false, mode := Startup));
        assert l.ready(ready);
        IgniteKeeps(s, l, ready, h);
      }
    }
  }

  lemma JustCycleKeeps(s: Settings, l: Law, p: Plant, mode: Mode, ci: CycleIn)
    requires Obeyed(s, l) && l.ready(p) && l.cycles(ci)
    ensures l.total || JustCycle(s, p, mode, ci).alive ==> l.inv(JustCycle(s, p, mode, ci).plant)
  {
  }

  lemma WriteKeepsReady(s: Settings, l: Law, p: Plant, c: Control)
    requires Obeyed(s, l) && l.ready(p) && c.safety.retries == p.control.safety.retries
    ensures l.ready(p.(control := c))
  {
  }

  // The modes that a next one is scheduled after.
  predicate Scheduled(mode: Mode) { mode in {Prime, Smoke, Hold, Shutdown, Reignite} }

  lemma ScheduledKeeps(s: Settings, l: Law, p: Plant, h: HeadIn)
    requires Obeyed(s, l) && l.ready(p) && HeadBears(l, h) && Scheduled(p.control.mode)
    ensures l.total || Dispatch(s, p, h).alive ==> l.inv(Dispatch(s, p, h).plant)
  {
    var c := p.control;
    match c.mode
    case Prime => CycleThenNextKeeps(s, l, p, Prime, c.nextMode, s.startSetpoint, h.first, h.nextPatches);
    case Smoke => CycleThenNextKeeps(s, l, p, Smoke, c.nextMode, 0.0, h.first, h.nextPatches);
    case Hold => CycleThenNextKeeps(s, l, p, Hold, c.nextMode, 0.0, h.first, h.nextPatches);
    case Shutdown =>
      var c' := c.(nextMode := Stop);
      WriteKeepsReady(s, l, p, c');
      CycleThenNextKeeps(s, l, p.(control := c'), Shutdown, Stop, 0.0, h.first, h.nextPatches);
    case Reignite =>
      var c' := c.(nextMode := c.safety.lastState);
      WriteKeepsReady(s, l, p, c');
      CycleThenNextKeeps(s, l, p.(control := c'), Reignite, c.safety.lastState, c.setpoint, h.first, h.nextPatches);
  }

  // Every mode but the Stop/Error handler keeps a property that obeys its law.
  lemma DispatchKeeps(s: Settings, l: Law, p: Plant, h: HeadIn)
    requires Obeyed(s, l) && l.ready(p) && HeadBears(l, h) && p.control.mode !in {Stop, Error}
    ensures l.total || Dispatch(s, p, h).alive ==> l.inv(Dispatch(s, p, h).plant)
  {
    if Scheduled(p.control.mode) {
      ScheduledKeeps(s, l, p, h);
    } else {
      match p.control.mode
      case Startup => StartupKeeps(s, l, p, h);
      case Monitor =>
        var c' := p.control.(status := Monitoring);
        WriteKeepsReady(s, l, p, c');
        JustCycleKeeps(s, l, p.(control := c'), Monitor, h.first);
      case Manual => JustCycleKeeps(s, l, p, Manual, h.first);
      case Recipe => RecipeModeKeeps(s, l, p, h.file, h.steps);
      case Unknown(_) =>
    }
  }
}
