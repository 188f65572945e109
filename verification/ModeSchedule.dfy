/** Which mode runs next: what a pass of the main loop does with a request, and what follows a mode that is over. */
module ModeSchedule {
  import opened ControlRecord
  import opened WorkCycle
  import opened ControlLoop
  import opened CycleFacts
  import opened FaultHandling

  // The record as the pass finds it, with the switch, the queue and the notifications.
  function Found(m: Main, h: HeadIn): Control { HeadControl(m, h).control }

  predicate Granted(c: Control) { c.updated && !c.critical && !c.unitsChange }

  // ----- What follows a mode -----

  // The mode that follows a finished one, and the set point it gets if it is Hold.
  datatype Following = Following(mode: Mode, setpoint: real)

  // By the request: a start-up is followed by the mode set for it, a reignite by the
  // mode whose flame went out, at its set point, and the rest by the mode that the
  // record named when the request was accepted.
  function After(s: Settings, c: Control): Following {
    match c.mode
    case Startup => Following(s.afterStartup, s.startSetpoint)
    case Reignite => Following(c.safety.lastState, c.setpoint)
    case Prime => Following(c.nextMode, s.startSetpoint)
    case Smoke => Following(c.nextMode, 0.0)
    case Hold => Following(c.nextMode, 0.0)
    case _ => Following(Stop, 0.0)
  }

  // What the record asks for once a mode is over: the request that came in meanwhile,
  // or else the mode that follows.
  ghost predicate Asked(after: Control, drained: Control, f: Following) {
    if drained.updated then after == drained
    else
      && after.updated && after.mode == f.mode && after.setpoint == (if f.mode == Hold then f.setpoint else 0.0)
      && after.(mode := drained.mode, updated := false, setpoint := drained.setpoint) == drained
  }

  lemma ScheduledAsAsked(p: Plant, next: Mode, setpoint: real, patches: seq<Patch>)
    ensures Asked(NextMode(p, next, setpoint, patches).control, Drained(p.control, patches), Following(next, setpoint))
    ensures p.trace <= NextMode(p, next, setpoint, patches).trace
  {
  }

  // The modes whose cycle the scheduler follows up.
  predicate Followed(mode: Mode) { mode in {Prime, Startup, Smoke, Hold, Shutdown, Reignite} }

  // The cycle that serves the request.
  function Served(s: Settings, p: Plant, h: HeadIn): (Plant, bool) {
    RunCycle(s, p.(control := p.control.(nextMode := After(s, p.control).mode)), p.control.mode,
             if p.control.mode == Startup then h.second else h.first)
  }

  lemma DispatchFollows(s: Settings, p: Plant, h: HeadIn)
    requires Followed(p.control.mode) && (p.control.mode == Startup ==> !s.primeOnStartup)
    ensures var (ran, finished) := Served(s, p, h);
            && Dispatch(s, p, h).alive == finished
            && (finished ==>
                  Asked(Dispatch(s, p, h).plant.control, Drained(ran.control, h.nextPatches), After(s, p.control)))
  {
    var (ran, finished) := Served(s, p, h);
    var f := After(s, p.control);
    assert p.control.mode in {Prime, Smoke, Hold} ==>
        p.(control := p.control.(nextMode := p.control.nextMode)) == p;
    if finished { ScheduledAsAsked(ran, f.mode, f.setpoint, h.nextPatches); }
  }

  // What accepting a request changes of the record, and what it does not.
  lemma AcceptedKeeps(p: Plant)
    ensures var c, c' := p.control, Accepted(p).control;
            && !c'.updated && c'.safety == c.safety && c'.nextMode == c.nextMode && c'.setpoint == c.setpoint
            && c'.startStep == c.startStep && c'.manual == c.manual
            && (if c.unitsChange then c'.mode == Stop else c'.mode == c.mode && Accepted(p).trace == p.trace)
            && (c.status == Monitoring || (c.mode == Error && !c.unitsChange) ==> c'.status == c.status)
            && (c.status != Monitoring && (c.mode != Error || c.unitsChange) ==> c'.status == Active)
  {
  }

  lemma HeadDispatches(s: Settings, m: Main, h: HeadIn)
    requires m.alive
    ensures var c := Found(m, h);
            Head(s, m, h) == if c.updated && !c.critical then Dispatch(s, Accepted(HeadControl(m, h)), h)
                             else Main(HeadControl(m, h), c, true)
  {
  }

  // A request that a pass accepts, for any of these modes: when its cycle is over and
  // the queue drained holds no new request, the record asks for the mode that follows.
  lemma FinishedModeIsFollowed(s: Settings, m: Main, h: HeadIn)
    requires m.alive && Granted(Found(m, h)) && Followed(Found(m, h).mode)
    requires Found(m, h).mode == Startup ==> !s.primeOnStartup
    ensures var (ran, finished) := Served(s, Accepted(HeadControl(m, h)), h);
            && Head(s, m, h).alive == finished
            && (finished ==>
                  Asked(Head(s, m, h).plant.control, Drained(ran.control, h.nextPatches), After(s, Found(m, h))))
  {
    AcceptedKeeps(HeadControl(m, h));
    HeadDispatches(s, m, h);
    DispatchFollows(s, Accepted(HeadControl(m, h)), h);
  }

  lemma IgniteFollows(s: Settings, p: Plant, h: HeadIn)
    requires p.control.mode == Startup
    ensures var (ran, finished) := Served(s, p, h);
            && Ignite(s, p, h).alive == finished
            && (finished ==>
                  Asked(Ignite(s, p, h).plant.control, Drained(ran.control, h.nextPatches),
                        Following(s.afterStartup, s.startSetpoint)))
  {
    var (ran, finished) := Served(s, p, h);
    if finished { ScheduledAsAsked(ran, s.afterStartup, s.startSetpoint, h.nextPatches); }
  }

  // A start-up that primes first goes on to its own cycle unless the record then
  // asks for another mode.
  lemma PrimedStartup(s: Settings, m: Main, h: HeadIn)
    requires m.alive && Granted(Found(m, h)) && Found(m, h).mode == Startup && s.primeOnStartup
    ensures var p := Accepted(HeadControl(m, h));
            var (primed, over) := RunCycle(s, p.(control := p.control.(mode := Prime)), Prime, h.first);
            var begin := primed.(control := primed.control.(mode := Startup, updated := false));
            var (ran, finished) := Served(s, begin, h);
            if !over || primed.control.mode !in {Prime, Startup} then Head(s, m, h).plant == primed
            else
              && Head(s, m, h).alive == finished
              && (finished ==>
                    Asked(Head(s, m, h).plant.control, Drained(ran.control, h.nextPatches),
                          Following(s.afterStartup, s.startSetpoint)))
  {
    HeadDispatches(s, m, h);
    AcceptedKeeps(HeadControl(m, h));
    var p := Accepted(HeadControl(m, h));
    assert Head(s, m, h) == RunStartup(s, p, h);
    var primed := RunCycle(s, p.(control := p.control.(mode := Prime)), Prime, h.first).0;
    IgniteFollows(s, primed.(control := primed.control.(mode := Startup, updated := false)), h);
  }

  // ----- What a request leads to -----

  // The first thing that happens for a request.
  function First(s: Settings, c: Control, h: HeadIn): seq<Event> {
    match c.mode
    case Stop => [HandledStop]
    case Error => [HandledError]
    case Startup => [Began(if s.primeOnStartup then Prime else Startup)]
    case Recipe =>
      if h.file.Some? && c.startStep < |h.file.value| && h.steps != [] then [Began(h.file.value[c.startStep].mode)]
      else []
    case Unknown(_) => []
    case _ => [Began(c.mode)]
  }

  lemma RunCycleBegins(s: Settings, p: Plant, mode: Mode, ci: CycleIn)
    ensures p.trace + [Began(mode)] <= RunCycle(s, p, mode, ci).0.trace
  {
  }

  lemma CycleThenNextBegins(s: Settings, p: Plant, mode: Mode, next: Mode, setpoint: real, ci: CycleIn,
                            patches: seq<Patch>)
    ensures p.trace + [Began(mode)] <= CycleThenNext(s, p, mode, next, setpoint, ci, patches).plant.trace
  {
    RunCycleBegins(s, p, mode, ci);
    ScheduledAsAsked(RunCycle(s, p, mode, ci).0, next, setpoint, patches);
  }

  lemma StartupBegins(s: Settings, p: Plant, h: HeadIn)
    ensures p.trace + [Began(if s.primeOnStartup then Prime else Startup)] <= RunStartup(s, p, h).plant.trace
  {
    if s.primeOnStartup {
      var (primed, finished) := RunCycle(s, p.(control := p.control.(mode := Prime)), Prime, h.first);
      RunCycleBegins(s, p.(control := p.control.(mode := Prime)), Prime, h.first);
      var begin := primed.(control := primed.control.(updated := false, mode := Startup, nextMode := s.afterStartup));
      CycleThenNextBegins(s, begin, Startup, s.afterStartup, s.startSetpoint, h.second, h.nextPatches);
    } else {
      CycleThenNextBegins(s, p.(control := p.control.(nextMode := s.afterStartup)), Startup, s.afterStartup,
                          s.startSetpoint, h.second, h.nextPatches);
    }
  }

  lemma RunStepBegins(s: Settings, p: Plant, step: RecipeStep, i: StepIn)
    ensures p.trace + [Began(step.mode)] <= RunStep(s, p, step, i).plant.trace
  {
    var q := p.(control := StepControl(p.control, step));
    RunCycleBegins(s, q, step.mode, i.cycle);
    var (ran, finished) := RunCycle(s, q, step.mode, i.cycle);
    if finished {
      var after := DrainInto(ran, i.patches);
      RunCycleBegins(s, after.(control := after.control.(updated := false, mode := Recipe)), Reignite, i.reignite);
    }
  }

  lemma {:induction false} RecipeLoopGrows(s: Settings, p: Plant, steps: seq<RecipeStep>, n: nat, ins: seq<StepIn>)
    ensures p.trace <= RecipeLoop(s, p, steps, n, ins).plant.trace
    decreases |ins|
  {
    if n < |steps| && ins != [] {
      RunStepBegins(s, p, steps[n], ins[0]);
      var r := RunStep(s, p, steps[n], ins[0]);
      RecipeLoopGrows(s, r.plant, steps, n, ins[1..]);
      RecipeLoopGrows(s, r.plant, steps, n + 1, ins[1..]);
    }
  }

  lemma RecipeLoopBegins(s: Settings, p: Plant, steps: seq<RecipeStep>, n: nat, ins: seq<StepIn>)
    requires n < |steps| && ins != []
    ensures p.trace + [Began(steps[n].mode)] <= RecipeLoop(s, p, steps, n, ins).plant.trace
  {
    RunStepBegins(s, p, steps[n], ins[0]);
    var r := RunStep(s, p, steps[n], ins[0]);
    RecipeLoopGrows(s, r.plant, steps, n, ins[1..]);
    RecipeLoopGrows(s, r.plant, steps, n + 1, ins[1..]);
  }

  lemma RecipeModeBegins(s: Settings, p: Plant, h: HeadIn)
    requires p.control.mode == Recipe
    ensures p.trace + First(s, p.control, h) <= RecipeMode(s, p, h.file, h.steps).0.trace
  {
    if h.file.Some? {
      var steps, n := h.file.value, p.control.startStep;
      assert RecipeMode(s, p, h.file, h.steps).0.trace == RecipeLoop(s, p, steps, n, h.steps).plant.trace;
      if n < |steps| && h.steps != [] {
        RecipeLoopBegins(s, p, steps, n, h.steps);
      } else {
        RecipeLoopGrows(s, p, steps, n, h.steps);
      }
    }
  }

  lemma FollowedBegins(s: Settings, p: Plant, h: HeadIn)
    requires Followed(p.control.mode) && p.control.mode != Startup
    ensures p.trace + [Began(p.control.mode)] <= Dispatch(s, p, h).plant.trace
  {
    var f := After(s, p.control);
    CycleThenNextBegins(s, p.(control := p.control.(nextMode := f.mode)), p.control.mode, f.mode, f.setpoint, h.first,
                        h.nextPatches);
    CycleThenNextBegins(s, p, p.control.mode, f.mode, f.setpoint, h.first, h.nextPatches);
  }

  lemma DispatchServes(s: Settings, p: Plant, h: HeadIn)
    ensures p.trace + First(s, p.control, h) <= Dispatch(s, p, h).plant.trace
  {
    if p.control.mode == Startup {
      StartupBegins(s, p, h);
    } else if Followed(p.control.mode) {
      FollowedBegins(s, p, h);
    } else if p.control.mode == Recipe {
      RecipeModeBegins(s, p, h);
    }
  }

  // A pass serves the request it finds, and nothing but a request; a units change
  // makes it a stop.
  lemma RequestIsServed(s: Settings, m: Main, h: HeadIn)
    requires m.alive
    ensures var c, t, t' := Found(m, h), HeadControl(m, h).trace, Head(s, m, h).plant.trace;
            && (Granted(c) ==> t + First(s, c, h) <= t')
            && (c.updated && !c.critical && c.unitsChange ==> t' != [] && t'[|t'| - 1] == HandledStop)
            && (!c.updated || c.critical ==> Head(s, m, h).plant == HeadControl(m, h))
  {
    var c := Found(m, h);
    HeadDispatches(s, m, h);
    AcceptedKeeps(HeadControl(m, h));
    if Granted(c) { DispatchServes(s, Accepted(HeadControl(m, h)), h); }
  }

  // No switch, no notification, and no patch that names the mode or the flags.
  predicate Undisturbed(h: HeadIn) {
    && !h.switchOff && (forall i | 0 <= i < |h.patches| :: LeavesOrders(h.patches[i]))
    && forall i | 0 <= i < |h.notices| :: h.notices[i] == ControlRecord.Quiet
  }

  lemma {:induction false} QuietNotices(c: Control, notices: seq<Notice>)
    requires forall i | 0 <= i < |notices| :: notices[i] == ControlRecord.Quiet
    ensures Notified(c, notices) == c
    decreases |notices|
  {
    if notices != [] { QuietNotices(c, notices[1..]); }
  }

  lemma UndisturbedFinds(m: Main, h: HeadIn)
    requires Undisturbed(h)
    ensures HeadControl(m, h) == m.plant.(control := Drained(m.plant.control, h.patches))
    ensures var c, c' := m.plant.control, Found(m, h);
            c'.mode == c.mode && c'.updated == c.updated && c'.critical == c.critical && c'.unitsChange == c.unitsChange
  {
    DrainedOrders(m.plant.control, h.patches);
    QuietNotices(Drained(m.plant.control, h.patches), h.notices);
  }

  // An undisturbed pass serves the request it was left with: for a mode that runs a
  // cycle, that mode's cycle begins next.
  lemma WaitingRequestIsServed(s: Settings, m: Main, h: HeadIn)
    requires m.alive && Granted(m.plant.control) && Undisturbed(h)
    ensures m.plant.trace + First(s, Found(m, h), h) <= Head(s, m, h).plant.trace
    ensures Followed(m.plant.control.mode) && m.plant.control.mode != Startup ==>
              m.plant.trace + [Began(m.plant.control.mode)] <= Head(s, m, h).plant.trace
  {
    UndisturbedFinds(m, h);
    RequestIsServed(s, m, h);
  }

  // Without a request an undisturbed pass moves nothing.
  lemma IdlePassMovesNothing(s: Settings, m: Main, h: HeadIn)
    requires m.alive && !m.plant.control.updated && Undisturbed(h)
    ensures Head(s, m, h).plant == m.plant.(control := Drained(m.plant.control, h.patches))
  {
    UndisturbedFinds(m, h);
    RequestIsServed(s, m, h);
  }

  // Two passes: the mode that follows begins.
  lemma NextModeBegins(s: Settings, m: Main, h: HeadIn, h': HeadIn)
    requires m.alive && Granted(Found(m, h)) && Followed(Found(m, h).mode) && Undisturbed(h')
    requires Found(m, h).mode == Startup ==> !s.primeOnStartup
    requires var (ran, finished) := Served(s, Accepted(HeadControl(m, h)), h);
             var drained := Drained(ran.control, h.nextPatches);
             finished && !drained.updated && !drained.critical && !drained.unitsChange
    ensures var next, m', m'' := After(s, Found(m, h)), Head(s, m, h), Head(s, Head(s, m, h), h');
            && m'.plant.control.mode == next.mode
            && m'.plant.control.setpoint == (if next.mode == Hold then next.setpoint else 0.0)
            && m'.plant.trace + First(s, Found(m', h'), h') <= m''.plant.trace
  {
    FinishedModeIsFollowed(s, m, h);
    WaitingRequestIsServed(s, Head(s, m, h), h');
  }

  // A Hold cycle whose flame went out left a request for a reignite, to go back to
  // Hold. If nothing else is asked for before that is over, Hold runs again at the
  // set point it had.
  lemma FlameOutResumes(s: Settings, m: Main, h: HeadIn, h': HeadIn)
    requires m.alive && Granted(m.plant.control) && m.plant.control.mode == Reignite
    requires m.plant.control.safety.lastState == Hold
    requires Undisturbed(h) && h.patches == [] && Undisturbed(h')
    requires var (ran, finished) := Served(s, Accepted(HeadControl(m, h)), h);
             var drained := Drained(ran.control, h.nextPatches);
             finished && !drained.updated && !drained.critical && !drained.unitsChange
    ensures var m', m'' := Head(s, m, h), Head(s, Head(s, m, h), h');
            && m.plant.trace + [Began(Reignite)] <= m'.plant.trace
            && m'.plant.control.mode == Hold && m'.plant.control.setpoint == m.plant.control.setpoint
            && m'.plant.trace + [Began(Hold)] <= m''.plant.trace
  {
    UndisturbedFinds(m, h);
    WaitingRequestIsServed(s, m, h);
    FinishedModeIsFollowed(s, m, h);
    WaitingRequestIsServed(s, Head(s, m, h), h');
  }

  // The handler leaves everything off and the record at its defaults, asking for nothing.
  lemma StopClears(s: Settings, m: Main, h: HeadIn)
    requires m.alive && Found(m, h).updated && !Found(m, h).critical
    requires Found(m, h).mode == Stop || Found(m, h).unitsChange
    ensures var m' := Head(s, m, h);
            && m'.plant.out == ALL_OFF && m'.plant.control == DefaultControl(s).(updated := false)
            && m'.local == m'.plant.control && m'.alive && m'.plant.usage == m.plant.usage
  {
    HeadDispatches(s, m, h);
    AcceptedKeeps(HeadControl(m, h));
  }

  // A recipe that ended by itself, or that another mode did not replace, stops the grill.
  lemma FinishedRecipeStops(s: Settings, m: Main, h: HeadIn)
    requires m.alive && Granted(Found(m, h)) && Found(m, h).mode == Recipe && h.file.Some?
    ensures var p, steps := Accepted(HeadControl(m, h)), h.file.value;
            var e, after := RecipeLoop(s, p, steps, p.control.startStep, h.steps), Head(s, m, h).plant;
            && (e.done && (e.step == |steps| || !e.plant.control.updated) ==>
                  after.control.mode == Stop && after.control.updated)
            && (e.done && e.step != |steps| && e.plant.control.updated ==>
                  after.control == e.plant.control.(triggered := false, pause := false))
  {
    HeadDispatches(s, m, h);
    AcceptedKeeps(HeadControl(m, h));
  }

  // ----- An error and the power relay -----

  predicate LeavesStatus(patches: seq<Patch>) { forall i | 0 <= i < |patches| :: patches[i].status.None? }

  lemma {:induction false} DrainedStatus(c: Control, patches: seq<Patch>)
    requires LeavesStatus(patches)
    ensures Drained(c, patches).status == c.status
    decreases |patches|
  {
    if patches != [] { DrainedStatus(ApplyPatch(c, patches[0]), patches[1..]); }
  }

  lemma EndKeepsStatus(s: Settings, c: Cycle, now: real)
    ensures EndStep(s, c, now).control.status == c.control.status
    ensures c.Running() ==> !EndStep(s, c, now).exit.SwitchedOff?
  {
  }

  lemma CookKeepsStatus(s: Settings, c: Cycle, t: Tick)
    ensures CookStep(s, c, t).control.status == c.control.status
    ensures c.Running() ==> !CookStep(s, c, t).exit.SwitchedOff?
  {
    if c.ptemp >= c.control.safety.startupTemp as real {
      LidStepCourse(s, c, t);
      EndKeepsStatus(s, FanStep(LidStep(s, c, t), t.fan), t.now);
    }
  }

  lemma SensorKeepsStatus(s: Settings, c: Cycle, t: Tick)
    ensures SensorStep(s, c, t).control.status == c.control.status
    ensures c.Running() ==> !SensorStep(s, c, t).exit.SwitchedOff?
  {
    var read := ReadStep(c, t);
    NotifiedKeeps(c.control, t.notices);
    EndKeepsStatus(s, read, t.now);
    EndKeepsStatus(s, Warmed(read), t.now);
    CookKeepsStatus(s, read, t);
  }

  lemma PassKeepsStatus(s: Settings, c: Cycle, t: Tick)
    requires c.Running() && LeavesStatus(t.patches)
    ensures Pass(s, c, t).exit.SwitchedOff? || Pass(s, c, t).control.status == c.control.status
  {
    DrainedStatus(c.control, t.patches);
    var drained := c.(control := Drained(c.control, t.patches));
    AugerStepCourse(s, drained, c.out.auger, t);
    SensorKeepsStatus(s, AugerStep(s, ManualStep(s, drained, t.now), c.out.auger, t), t);
  }

  lemma {:induction false} LoopKeepsStatus(s: Settings, c: Cycle, ticks: seq<Tick>)
    requires forall i | 0 <= i < |ticks| :: LeavesStatus(ticks[i].patches)
    ensures Loop(s, c, ticks).exit.SwitchedOff? || Loop(s, c, ticks).control.status == c.control.status
    decreases |ticks|
  {
    if c.Running() && ticks != [] {
      PassKeepsStatus(s, c, ticks[0]);
      LoopKeepsStatus(s, Pass(s, c, ticks[0]), ticks[1..]);
    }
  }

  // The cycle raised an error.
  predicate Raises(s: Settings, p: Plant, mode: Mode, ci: CycleIn) {
    Loop(s, Open(s, p.control, mode, ci.opening), ci.ticks).exit.Failed?
  }

  lemma ErrorKeepsStatus(s: Settings, p: Plant, mode: Mode, ci: CycleIn)
    requires Raises(s, p, mode, ci) && forall i | 0 <= i < |ci.ticks| :: LeavesStatus(ci.ticks[i].patches)
    ensures var (ran, finished) := RunCycle(s, p, mode, ci);
            && finished && Faulted(ran.control) && ran.control.status == p.control.status
  {
    var begin := Open(s, p.control, mode, ci.opening);
    LoopKeepsStatus(s, begin, ci.ticks);
    var c := RunCycleHonest(s, p, mode, ci, false);
  }

  // An error that waits is handled by the next undisturbed pass, which leaves the
  // power on if and only if the record's status is that of Monitor mode.
  lemma ErrorIsHandled(s: Settings, m: Main, h: HeadIn)
    requires m.alive && Faulted(m.plant.control) && !m.plant.control.critical && !m.plant.control.unitsChange
    requires Undisturbed(h) && LeavesStatus(h.patches)
    ensures Head(s, m, h).plant.trace == m.plant.trace + [HandledError]
    ensures Head(s, m, h).plant.out == ALL_OFF.(power := m.plant.control.status == Monitoring)
    ensures Head(s, m, h).plant.control
            == DefaultControl(s).(mode := Error, updated := false, status := Inactive)
  {
    UndisturbedFinds(m, h);
    DrainedStatus(m.plant.control, h.patches);
    PendingFaultIsHandled(s, m, h);
  }

  // Monitor and Manual run their cycle and schedule nothing after it.
  lemma UnfollowedModeJustRuns(s: Settings, m: Main, h: HeadIn)
    requires m.alive && Granted(Found(m, h)) && Found(m, h).mode in {Monitor, Manual}
    ensures var p := Accepted(HeadControl(m, h));
            var q := if p.control.mode == Monitor then p.(control := p.control.(status := Monitoring)) else p;
            && (Head(s, m, h).plant, Head(s, m, h).alive) == RunCycle(s, q, p.control.mode, h.first)
  {
    HeadDispatches(s, m, h);
    AcceptedKeeps(HeadControl(m, h));
  }

  // The controller that Monitor mode watches keeps its power through an error.
  lemma MonitorErrorKeepsPower(s: Settings, m: Main, h: HeadIn, h': HeadIn)
    requires m.alive && Granted(Found(m, h)) && Found(m, h).mode == Monitor
    requires var p := Accepted(HeadControl(m, h));
             Raises(s, p.(control := p.control.(status := Monitoring)), Monitor, h.first)
    requires forall i | 0 <= i < |h.first.ticks| :: LeavesStatus(h.first.ticks[i].patches)
    requires Undisturbed(h') && LeavesStatus(h'.patches)
    requires !Head(s, m, h).plant.control.critical && !Head(s, m, h).plant.control.unitsChange
    ensures Head(s, Head(s, m, h), h').plant.out == ALL_OFF.(power := true)
  {
    UnfollowedModeJustRuns(s, m, h);
    AcceptedKeeps(HeadControl(m, h));
    var p := Accepted(HeadControl(m, h));
    ErrorKeepsStatus(s, p.(control := p.control.(status := Monitoring)), Monitor, h.first);
    ErrorIsHandled(s, Head(s, m, h), h');
  }

  // An error in any followed mode cuts it, unless the record had the status of
  // Monitor mode when the request was accepted.
  lemma ErrorCutsPower(s: Settings, m: Main, h: HeadIn, h': HeadIn)
    requires m.alive && Granted(Found(m, h)) && Followed(Found(m, h).mode)
    requires Found(m, h).mode == Startup ==> !s.primeOnStartup
    requires var p, ci := Accepted(HeadControl(m, h)), if Found(m, h).mode == Startup then h.second else h.first;
             && Raises(s, p.(control := p.control.(nextMode := After(s, p.control).mode)), p.control.mode, ci)
             && forall i | 0 <= i < |ci.ticks| :: LeavesStatus(ci.ticks[i].patches)
    requires h.nextPatches == [] && Undisturbed(h') && LeavesStatus(h'.patches)
    requires !Head(s, m, h).plant.control.critical && !Head(s, m, h).plant.control.unitsChange
    ensures Head(s, Head(s, m, h), h').plant.out == ALL_OFF.(power := Found(m, h).status == Monitoring)
  {
    FinishedModeIsFollowed(s, m, h);
    AcceptedKeeps(HeadControl(m, h));
    var p := Accepted(HeadControl(m, h));
    ErrorKeepsStatus(s, p.(control := p.control.(nextMode := After(s, p.control).mode)), p.control.mode,
                     if p.control.mode == Startup then h.second else h.first);
    ErrorIsHandled(s, Head(s, m, h), h');
  }
}
