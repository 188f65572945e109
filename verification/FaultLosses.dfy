/** How often a run of the control process redirects an error, and that it otherwise handles every one. */
module FaultLosses {
  import opened ControlRecord
  import opened WorkCycle
  import opened ControlLoop
  import opened FaultHandling

  function Redirections(trace: seq<Event>): nat
    decreases |trace|
  {
    if trace == [] then 0
    else Redirections(trace[..|trace| - 1]) + (if trace[|trace| - 1].Redirected? then 1 else 0)
  }

  lemma RedirectionsLast(trace: seq<Event>, e: Event)
    ensures Redirections(trace + [e]) == Redirections(trace) + (if e.Redirected? then 1 else 0)
  {
    assert (trace + [e])[..|trace|] == trace;
  }

  lemma LeaveRedirects(s: Settings, p: Plant, c: Cycle)
    ensures Redirections(Leave(s, p, c).0.trace) == Redirections(p.trace)
  {
    var closed := p.trace + [Closed(c.timers.metric)];
    RedirectionsLast(p.trace, Closed(c.timers.metric));
    RedirectionsLast(closed, Fault);
    RedirectionsLast(closed, Reignited);
    assert closed + [] == closed;
  }

  lemma RunCycleRedirects(s: Settings, p: Plant, mode: Mode, ci: CycleIn)
    ensures Redirections(RunCycle(s, p, mode, ci).0.trace) == Redirections(p.trace)
  {
    RedirectionsLast(p.trace, Began(mode));
    LeaveRedirects(s, p.(trace := p.trace + [Began(mode)]), Loop(s, Open(s, p.control, mode, ci.opening), ci.ticks));
  }

  // One, where a record with a pending error is replaced by one without.
  function Loss(before: Control, after: Control): nat { if Faulted(before) && !Faulted(after) then 1 else 0 }

  lemma RedirectCounts(p: Plant, c: Control)
    ensures Redirections(Redirect(p, c).trace) == Redirections(p.trace) + Loss(p.control, c)
  {
    RedirectionsLast(p.trace, Redirected);
  }

  // The pending errors that the queue drained after a cycle takes away.
  function CycleLosses(s: Settings, p: Plant, mode: Mode, ci: CycleIn, patches: seq<Patch>): nat {
    var (ran, finished) := RunCycle(s, p, mode, ci);
    if finished then Loss(ran.control, Drained(ran.control, patches)) else 0
  }

  lemma CycleThenNextCounts(s: Settings, p: Plant, mode: Mode, next: Mode, setpoint: real, ci: CycleIn,
                            patches: seq<Patch>)
    ensures Redirections(CycleThenNext(s, p, mode, next, setpoint, ci, patches).plant.trace)
            == Redirections(p.trace) + CycleLosses(s, p, mode, ci, patches)
  {
    RunCycleRedirects(s, p, mode, ci);
    var ran := RunCycle(s, p, mode, ci).0;
    RedirectCounts(ran, Drained(ran.control, patches));
  }

  function StepLosses(s: Settings, p: Plant, step: RecipeStep, i: StepIn): nat {
    CycleLosses(s, p.(control := StepControl(p.control, step)), step.mode, i.cycle, i.patches)
  }

  lemma RelightCounts(s: Settings, p: Plant, ci: CycleIn)
    ensures Redirections(Relight(s, p, ci).plant.trace) == Redirections(p.trace)
  {
    RunCycleRedirects(s, p.(control := p.control.(updated := false, mode := Recipe)), Reignite, ci);
  }

  lemma RunStepCounts(s: Settings, p: Plant, step: RecipeStep, i: StepIn)
    ensures Redirections(RunStep(s, p, step, i).plant.trace) == Redirections(p.trace) + StepLosses(s, p, step, i)
  {
    var q := p.(control := StepControl(p.control, step));
    RunCycleRedirects(s, q, step.mode, i.cycle);
    var (ran, finished) := RunCycle(s, q, step.mode, i.cycle);
    if finished {
      RedirectCounts(ran, Drained(ran.control, i.patches));
      RelightCounts(s, DrainInto(ran, i.patches), i.reignite);
    }
  }

  function RecipeLosses(s: Settings, p: Plant, steps: seq<RecipeStep>, n: nat, ins: seq<StepIn>): nat
    decreases |ins|
  {
    if n >= |steps| || ins == [] then 0
    else
      var r, lost := RunStep(s, p, steps[n], ins[0]), StepLosses(s, p, steps[n], ins[0]);
      if r.verdict.Rerun? then lost + RecipeLosses(s, r.plant, steps, n, ins[1..])
      else if r.verdict.Next? then lost + RecipeLosses(s, r.plant, steps, n + 1, ins[1..])
      else lost
  }

  lemma {:induction false} RecipeLoopCounts(s: Settings, p: Plant, steps: seq<RecipeStep>, n: nat, ins: seq<StepIn>)
    ensures Redirections(RecipeLoop(s, p, steps, n, ins).plant.trace)
            == Redirections(p.trace) + RecipeLosses(s, p, steps, n, ins)
    decreases |ins|
  {
    if n < |steps| && ins != [] {
      RunStepCounts(s, p, steps[n], ins[0]);
      var r := RunStep(s, p, steps[n], ins[0]);
      if r.verdict.Rerun? {
        RecipeLoopCounts(s, r.plant, steps, n, ins[1..]);
        assert RecipeLoop(s, p, steps, n, ins).plant == RecipeLoop(s, r.plant, steps, n, ins[1..]).plant;
      } else if r.verdict.Next? {
        RecipeLoopCounts(s, r.plant, steps, n + 1, ins[1..]);
        assert RecipeLoop(s, p, steps, n, ins).plant == RecipeLoop(s, r.plant, steps, n + 1, ins[1..]).plant;
      } else {
        assert RecipeLoop(s, p, steps, n, ins).plant == r.plant;
      }
    }
  }

  function IgniteLosses(s: Settings, p: Plant, h: HeadIn): nat {
    CycleLosses(s, p.(control := p.control.(nextMode := s.afterStartup)), Startup, h.second, h.nextPatches)
  }

  function StartupLosses(s: Settings, p: Plant, h: HeadIn): nat {
    if !s.primeOnStartup then IgniteLosses(s, p, h)
    else
      var (primed, finished) := RunCycle(s, p.(control := p.control.(mode := Prime)), Prime, h.first);
      if !finished || primed.control.mode !in {Prime, Startup} then 0
      else IgniteLosses(s, primed.(control := primed.control.(updated := false, mode := Startup)), h)
  }

  lemma StartupCounts(s: Settings, p: Plant, h: HeadIn)
    ensures Redirections(RunStartup(s, p, h).plant.trace) == Redirections(p.trace) + StartupLosses(s, p, h)
  {
    var q := p.(control := p.control.(mode := Prime));
    RunCycleRedirects(s, q, Prime, h.first);
    var primed := RunCycle(s, q, Prime, h.first).0;
    var ready := if s.primeOnStartup then primed.(control := primed.control.(updated := false, mode := Startup)) else p;
    CycleThenNextCounts(s, ready.(control := ready.control.(nextMode := s.afterStartup)), Startup, s.afterStartup,
                        s.startSetpoint, h.second, h.nextPatches);
  }

  // The pending errors that the queues drained during a mode take away.
  function ModeLosses(s: Settings, p: Plant, h: HeadIn): nat {
    var c := p.control;
    match c.mode
    case Prime => CycleLosses(s, p, Prime, h.first, h.nextPatches)
    case Startup => StartupLosses(s, p, h)
    case Smoke => CycleLosses(s, p, Smoke, h.first, h.nextPatches)
    case Hold => CycleLosses(s, p, Hold, h.first, h.nextPatches)
    case Shutdown => CycleLosses(s, p.(control := c.(nextMode := Stop)), Shutdown, h.first, h.nextPatches)
    case Recipe => if h.file.None? then 0 else RecipeLosses(s, p, h.file.value, c.startStep, h.steps)
    case Reignite =>
      CycleLosses(s, p.(control := c.(nextMode := c.safety.lastState)), Reignite, h.first, h.nextPatches)
    case _ => 0
  }

  lemma DispatchCounts(s: Settings, p: Plant, h: HeadIn)
    ensures Redirections(Dispatch(s, p, h).plant.trace) == Redirections(p.trace) + ModeLosses(s, p, h)
  {
    var c := p.control;
    match c.mode
    case Stop => RedirectionsLast(p.trace, HandledStop);
    case Error => RedirectionsLast(p.trace, HandledError);
    case Prime => CycleThenNextCounts(s, p, Prime, c.nextMode, s.startSetpoint, h.first, h.nextPatches);
    case Startup => StartupCounts(s, p, h);
    case Smoke => CycleThenNextCounts(s, p, Smoke, c.nextMode, 0.0, h.first, h.nextPatches);
    case Hold => CycleThenNextCounts(s, p, Hold, c.nextMode, 0.0, h.first, h.nextPatches);
    case Shutdown =>
      CycleThenNextCounts(s, p.(control := c.(nextMode := Stop)), Shutdown, Stop, 0.0, h.first, h.nextPatches);
    case Monitor => RunCycleRedirects(s, p.(control := c.(status := Monitoring)), Monitor, h.first);
    case Manual => RunCycleRedirects(s, p, Manual, h.first);
    case Recipe => if h.file.Some? { RecipeLoopCounts(s, p, h.file.value, c.startStep, h.steps); }
    case Reignite =>
      CycleThenNextCounts(s, p.(control := c.(nextMode := c.safety.lastState)), Reignite, c.safety.lastState,
                          c.setpoint, h.first, h.nextPatches);
    case Unknown(_) =>
  }

  // The pending errors that the switch and the queue take away at a head.
  function QueueLosses(m: Main, h: HeadIn): nat {
    var switched := Switched(m, h).control;
    Loss(m.plant.control, switched) + Loss(switched, Drained(switched, h.patches))
  }

  lemma HeadControlCounts(m: Main, h: HeadIn)
    ensures Redirections(HeadControl(m, h).trace) == Redirections(m.plant.trace) + QueueLosses(m, h)
  {
    RedirectCounts(m.plant, m.local.(updated := true, mode := Stop));
    var switched := Switched(m, h);
    RedirectCounts(switched, Drained(switched.control, h.patches));
    var drained := DrainInto(switched, h.patches);
    RedirectCounts(drained, Notified(drained.control, h.notices));
    NotifiedKeeps(drained.control, h.notices);
  }

  // And those that a units change, and then the mode, take away.
  function HeadLosses(s: Settings, m: Main, h: HeadIn): nat {
    var p := HeadControl(m, h);
    if !m.alive then 0
    else if !p.control.updated || p.control.critical then QueueLosses(m, h)
    else
      QueueLosses(m, h) + (if Faulted(p.control) && p.control.unitsChange then 1 else 0) + ModeLosses(s, Accepted(p), h)
  }

  lemma HeadCounts(s: Settings, m: Main, h: HeadIn)
    ensures Redirections(Head(s, m, h).plant.trace) == Redirections(m.plant.trace) + HeadLosses(s, m, h)
  {
    if m.alive {
      HeadControlCounts(m, h);
      var p := HeadControl(m, h);
      if p.control.updated && !p.control.critical {
        RedirectionsLast(p.trace, Redirected);
        DispatchCounts(s, Accepted(p), h);
      }
    }
  }

  function RunLosses(s: Settings, m: Main, hs: seq<HeadIn>): nat
    decreases |hs|
  {
    if hs == [] then 0 else HeadLosses(s, m, hs[0]) + RunLosses(s, Head(s, m, hs[0]), hs[1..])
  }

  // The redirections a run puts on record are exactly the pending errors that its
  // switch, its queues and its units changes take away.
  lemma {:induction false} RedirectionsAreLosses(s: Settings, m: Main, hs: seq<HeadIn>)
    ensures Redirections(Heads(s, m, hs).plant.trace) == Redirections(m.plant.trace) + RunLosses(s, m, hs)
    decreases |hs|
  {
    if hs != [] {
      HeadCounts(s, m, hs[0]);
      RedirectionsAreLosses(s, Head(s, m, hs[0]), hs[1..]);
    }
  }

  lemma {:induction false} HeadsGrow(s: Settings, m: Main, hs: seq<HeadIn>)
    ensures m.plant.trace <= Heads(s, m, hs).plant.trace
    decreases |hs|
  {
    if hs != [] {
      if m.alive { HeadGrows(s, m, hs[0]); }
      HeadsGrow(s, Head(s, m, hs[0]), hs[1..]);
    }
  }

  // A trace that grew without another redirection has none behind the old part.
  lemma {:induction false} NoneBehind(prior: seq<Event>, trace: seq<Event>)
    requires prior <= trace
    ensures Redirections(prior) <= Redirections(trace)
    ensures Redirections(trace) == Redirections(prior) <==> forall i | |prior| <= i < |trace| :: trace[i] != Redirected
    decreases |trace|
  {
    if prior != trace {
      var init := trace[..|trace| - 1];
      assert init + [trace[|trace| - 1]] == trace;
      NoneBehind(prior, init);
      assert forall i | |prior| <= i < |init| :: trace[i] == init[i];
    }
  }

  // A run redirects no error if and only if it takes no pending error away; whatever
  // follows an error is then its handling.
  lemma FaultsAreHandled(s: Settings, m: Main, hs: seq<HeadIn>)
    requires Orderly(m.plant)
    ensures var trace := Heads(s, m, hs).plant.trace;
            && m.plant.trace <= trace
            && (RunLosses(s, m, hs) == 0 <==> forall i | |m.plant.trace| <= i < |trace| :: trace[i] != Redirected)
            && (RunLosses(s, m, hs) == 0 ==>
                  forall i | |m.plant.trace| <= i + 1 < |trace| && 0 <= i && trace[i] == Fault ::
                    trace[i + 1] == HandledError)
  {
    FaultsAreNotLost(s, m, hs);
    RedirectionsAreLosses(s, m, hs);
    HeadsGrow(s, m, hs);
    NoneBehind(m.plant.trace, Heads(s, m, hs).plant.trace);
  }
}
