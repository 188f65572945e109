/** Flame-outs relight the grill as often as configured, and no more. */
module ReigniteBudget {
  import opened Wrappers
  import opened ControlRecord
  import opened WorkCycle
  import opened ControlLoop
  import opened CycleFacts
  import opened FaultHandling
  import opened RunLaws

  // Reignites granted by flame-outs since the Stop/Error handler last ran.
  function Granted(trace: seq<Event>): nat
    decreases |trace|
  {
    if trace == [] then 0
    else
      var init, last := trace[..|trace| - 1], trace[|trace| - 1];
      if last.HandledStop? || last.HandledError? then 0
      else Granted(init) + (if last.Reignited? then 1 else 0)
  }

  lemma GrantedLast(trace: seq<Event>, e: Event)
    ensures Granted(trace + [e]) ==
      if e.HandledStop? || e.HandledError? then 0 else Granted(trace) + (if e.Reignited? then 1 else 0)
  {
    assert (trace + [e])[..|trace|] == trace;
  }

  // What was granted and what is left make up the total.
  predicate Balanced(total: int, p: Plant) {
    p.control.safety.retries >= 0 && Granted(p.trace) + p.control.safety.retries == total
  }

  lemma ClosingGrants(trace: seq<Event>, metric: real, e: Exit)
    ensures Granted(trace + [Closed(metric)] + ExitEvents(e)) == Granted(trace) + (if e.Flamed? then 1 else 0)
  {
    var closed := trace + [Closed(metric)];
    GrantedLast(trace, Closed(metric));
    GrantedLast(closed, Fault);
    GrantedLast(closed, Reignited);
    assert closed + [] == closed;
  }

  lemma RunCycleBalanced(s: Settings, total: int, p: Plant, mode: Mode, ci: CycleIn)
    requires Balanced(total, p) && CycleLeavesRetries(ci)
    ensures Balanced(total, RunCycle(s, p, mode, ci).0)
  {
    var c := RunCycleHonest(s, p, mode, ci, true);
    GrantedLast(p.trace, Began(mode));
    ClosingGrants(p.trace + [Began(mode)], c.timers.metric, c.exit);
  }

  lemma RedirectBalanced(total: int, p: Plant, c: Control)
    requires Balanced(total, p) && c.safety.retries == p.control.safety.retries
    ensures Balanced(total, Redirect(p, c))
  {
    GrantedLast(p.trace, Redirected);
  }

  lemma DrainBalanced(total: int, p: Plant, patches: seq<Patch>)
    requires Balanced(total, p) && LeavesRetries(patches)
    ensures Balanced(total, DrainInto(p, patches))
  {
    DrainedRetries(p.control, patches);
    RedirectBalanced(total, p, Drained(p.control, patches));
  }

  function BudgetLaw(total: int): Law {
    Law(p => Balanced(total, p), p => Balanced(total, p), ci => CycleLeavesRetries(ci), ps => LeavesRetries(ps), true)
  }

  lemma BudgetLawObeyed(s: Settings, total: int)
    ensures Obeyed(s, BudgetLaw(total))
  {
    forall p, mode, ci | Balanced(total, p) && CycleLeavesRetries(ci)
      ensures Balanced(total, RunCycle(s, p, mode, ci).0)
    {
      RunCycleBalanced(s, total, p, mode, ci);
    }
    forall p, patches | Balanced(total, p) && LeavesRetries(patches) ensures Balanced(total, DrainInto(p, patches)) {
      DrainBalanced(total, p, patches);
    }
  }

  predicate StepLeavesRetries(i: StepIn) {
    CycleLeavesRetries(i.cycle) && LeavesRetries(i.patches) && CycleLeavesRetries(i.reignite)
  }

  // No patch of the pass touches the retry counter.
  predicate HeadLeavesRetries(h: HeadIn) {
    && LeavesRetries(h.patches) && CycleLeavesRetries(h.first) && CycleLeavesRetries(h.second)
    && LeavesRetries(h.nextPatches) && forall i | 0 <= i < |h.steps| :: StepLeavesRetries(h.steps[i])
  }

  // The Stop/Error handler restores the configured number; every other mode keeps
  // whatever the total was.
  lemma DispatchBalanced(s: Settings, total: int, p: Plant, h: HeadIn)
    requires s.retries >= 0 && Balanced(total, p) && HeadLeavesRetries(h)
    ensures Balanced(if p.control.mode in {Stop, Error} then s.retries else total, Dispatch(s, p, h).plant)
  {
    if p.control.mode in {Stop, Error} {
      GrantedLast(p.trace, HandledStop);
      GrantedLast(p.trace, HandledError);
    } else {
      BudgetLawObeyed(s, total);
      DispatchKeeps(s, BudgetLaw(total), p, h);
    }
  }

  // Retries that come back, or get lost, with the older copy.
  function WrittenBack(m: Main, h: HeadIn): int {
    if h.switchOff then m.local.safety.retries - m.plant.control.safety.retries else 0
  }

  // The total that the head of the loop leaves: the switch, turned off, writes the
  // loop's own copy of the counter back.
  lemma HeadControlBalanced(total: int, m: Main, h: HeadIn)
    requires Balanced(total, m.plant) && m.local.safety.retries >= 0 && LeavesRetries(h.patches)
    ensures Balanced(total + WrittenBack(m, h), HeadControl(m, h))
  {
    var switched := Switched(m, h);
    GrantedLast(m.plant.trace, Redirected);
    DrainedRetries(switched.control, h.patches);
    var drained := DrainInto(switched, h.patches);
    GrantedLast(switched.trace, Redirected);
    NotifiedKeeps(drained.control, h.notices);
    GrantedLast(drained.trace, Redirected);
  }

  // The pass goes through the Stop/Error handler.
  predicate Stops(m: Main, h: HeadIn) {
    var p := HeadControl(m, h);
    p.control.updated && !p.control.critical && Accepted(p).control.mode in {Stop, Error}
  }

  lemma AcceptedBalanced(total: int, p: Plant)
    requires Balanced(total, p)
    ensures Balanced(total, Accepted(p))
  {
    GrantedLast(p.trace, Redirected);
  }

  // A pass of the main loop keeps the budget exactly when the copy written back was
  // up to date, or the handler runs at once, as it does unless a patch redirects it.
  lemma HeadBalanced(s: Settings, m: Main, h: HeadIn)
    requires s.retries >= 0 && m.alive && Balanced(s.retries, m.plant) && m.local.safety.retries >= 0
    requires HeadLeavesRetries(h)
    ensures Balanced(s.retries, Head(s, m, h).plant) <==> WrittenBack(m, h) == 0 || Stops(m, h)
  {
    HeadControlBalanced(s.retries, m, h);
    var p, total := HeadControl(m, h), s.retries + WrittenBack(m, h);
    AcceptedBalanced(total, p);
    if p.control.updated && !p.control.critical {
      DispatchBalanced(s, total, Accepted(p), h);
    }
  }

  lemma DispatchKeepsLocal(s: Settings, total: int, p: Plant, h: HeadIn)
    requires s.retries >= 0 && Balanced(total, p) && HeadLeavesRetries(h)
    ensures Dispatch(s, p, h).local.safety.retries >= 0
  {
    if p.control.mode == Startup && s.primeOnStartup {
      RunCycleBalanced(s, total, p.(control := p.control.(mode := Prime)), Prime, h.first);
    }
  }

  // The loop's own copy never holds a negative counter.
  lemma HeadKeepsLocal(s: Settings, total: int, m: Main, h: HeadIn)
    requires s.retries >= 0 && m.alive && Balanced(total, m.plant) && m.local.safety.retries >= 0
    requires HeadLeavesRetries(h)
    ensures Head(s, m, h).local.safety.retries >= 0
  {
    HeadControlBalanced(total, m, h);
    var p := HeadControl(m, h);
    AcceptedBalanced(total + WrittenBack(m, h), p);
    if p.control.updated && !p.control.critical {
      DispatchKeepsLocal(s, total + WrittenBack(m, h), Accepted(p), h);
    }
  }

  // Through the run, no patch touches the counter, and the switch is turned off at
  // a head only where the copy it writes back is current or the handler runs.
  predicate Undisturbed(s: Settings, m: Main, hs: seq<HeadIn>)
    decreases |hs|
  {
    hs == [] ||
    (&& HeadLeavesRetries(hs[0])
     && (m.alive ==> WrittenBack(m, hs[0]) == 0 || Stops(m, hs[0]))
     && Undisturbed(s, Head(s, m, hs[0]), hs[1..]))
  }

  // The reignite budget, over every undisturbed run: reignites granted since the
  // last pass through the handler and retries left are together the configured
  // number, and the counter is never negative.
  lemma {:induction false} ReigniteBudgetHolds(s: Settings, m: Main, hs: seq<HeadIn>)
    requires s.retries >= 0 && Balanced(s.retries, m.plant) && m.local.safety.retries >= 0 && Undisturbed(s, m, hs)
    ensures Balanced(s.retries, Heads(s, m, hs).plant)
    decreases |hs|
  {
    if hs != [] {
      if m.alive {
        HeadBalanced(s, m, hs[0]);
        HeadKeepsLocal(s, s.retries, m, hs[0]);
      }
      ReigniteBudgetHolds(s, Head(s, m, hs[0]), hs[1..]);
    }
  }

  // Without a patch that names the mode or the flags, the switch leads to the handler.
  lemma SwitchStops(m: Main, h: HeadIn)
    requires h.switchOff && !m.local.critical && forall i | 0 <= i < |h.patches| :: LeavesOrders(h.patches[i])
    ensures Stops(m, h)
  {
    DrainedOrders(Switched(m, h).control, h.patches);
    var drained := DrainInto(Switched(m, h), h.patches).control;
    NotifiedKeeps(drained, h.notices);
    StopIsNotNotified(drained, h.notices);
  }

  // ----- A run that breaks the budget -----

  // The main loop with a Smoke request waiting that will open cold.
  predicate ColdSmoke(s: Settings, m: Main) {
    var c := m.plant.control;
    && m.alive && Balanced(s.retries, m.plant) && c.mode == Smoke && c.updated && !c.critical && !c.unitsChange
    && ColdStart(c, Smoke) && c.safety.retries > 0
  }

  // A pass without a patch, a notification or the switch.
  predicate Plain(h: HeadIn) { !h.switchOff && h.patches == [] && h.notices == [] && h.nextPatches == [] }

  // The flame-out of the opening spends a retry that the loop's own copy still has.
  // It leaves a request for the reignite, and the fan on.
  lemma ColdSmokeLeavesStaleCopy(s: Settings, m: Main, h: HeadIn)
    requires ColdSmoke(s, m) && Plain(h)
    ensures var m' := Head(s, m, h);
            && m'.alive && m'.local.safety.retries == m'.plant.control.safety.retries + 1
            && m'.plant.control.mode == Reignite && m'.plant.control.updated && m'.plant.out.fan
            && !m'.local.critical && !m'.local.unitsChange && Balanced(s.retries, m'.plant)
  {
    var p := Accepted(HeadControl(m, h));
    assert p.control.mode == Smoke && p.control.safety == m.plant.control.safety;
    var begin := Open(s, p.control, Smoke, h.first.opening);
    assert begin.exit.Flamed? && Loop(s, begin, h.first.ticks) == begin;
    GrantedLast(p.trace, Began(Smoke));
    ClosingGrants(p.trace + [Began(Smoke)], begin.timers.metric, Flamed);
  }

  lemma SmokePatchAtSwitch(m: Main, h: HeadIn)
    requires h.switchOff && h.patches == [NO_PATCH.(mode := Some(Smoke))] && h.notices == []
    ensures HeadControl(m, h).control == m.local.(updated := true, mode := Smoke)
  {
    var c := Switched(m, h).control;
    assert h.patches[1..] == [];
    assert Drained(c, h.patches) == Drained(ApplyPatch(c, h.patches[0]), []) == c.(mode := Smoke);
  }

  // The switch, turned off next, writes it back; a patch that names Smoke at the
  // same head keeps the handler from running, and one retry too many is left.
  lemma StaleCopyBreaksBudget(s: Settings, m: Main, h: HeadIn, h': HeadIn)
    requires s.retries >= 0 && ColdSmoke(s, m) && Plain(h)
    requires h'.switchOff && h'.patches == [NO_PATCH.(mode := Some(Smoke))] && h'.notices == []
    requires HeadLeavesRetries(h')
    ensures !Balanced(s.retries, Heads(s, m, [h, h']).plant)
  {
    ColdSmokeLeavesStaleCopy(s, m, h);
    var m' := Head(s, m, h);
    SmokePatchAtSwitch(m', h');
    HeadBalanced(s, m', h');
    assert [h, h'][1..] == [h'] && [h'][1..] == [];
    assert Heads(s, m, [h, h']) == Heads(s, m', [h']) == Head(s, m', h');
  }

  ghost predicate SpendsOrFails(mode: Mode, found: Safety, ptemp: real, after: Cycle) {
    var cold := ptemp < found.startupTemp as real;
    && (after.exit.Flamed? <==> cold && found.retries != 0)
    && (after.exit.Flamed? ==>
          && after.control.mode == Reignite && after.control.updated
          && after.control.safety == found.(retries := found.retries - 1, lastState := mode))
    && (cold && found.retries == 0 ==> after.exit.Failed? && Faulted(after.control))
  }

  lemma NoFlameAtEnd(s: Settings, c: Cycle, now: real)
    requires c.Running()
    ensures !EndStep(s, c, now).exit.Flamed?
  {
  }

  lemma CookFlameOut(s: Settings, c: Cycle, t: Tick)
    requires c.Running()
    ensures SpendsOrFails(c.mode, c.control.safety, c.ptemp, CookStep(s, c, t))
  {
    if c.ptemp >= c.control.safety.startupTemp as real {
      LidStepCourse(s, c, t);
      NoFlameAtEnd(s, FanStep(LidStep(s, c, t), t.fan), t.now);
    }
  }

  // In Smoke and Hold, a pass that is not asked to leave sees a flame-out exactly
  // when the pit is below the start-up temperature. It then asks for a reignite and
  // spends a retry, or with none left raises the error.
  lemma FlameOutSpendsOrFails(s: Settings, c: Cycle, t: Tick)
    requires c.Running() && Cooks(c.mode) && !Drained(c.control, t.patches).updated && !t.switchOff
    ensures SpendsOrFails(c.mode, Drained(c.control, t.patches).safety, t.ptemp, Pass(s, c, t))
  {
    var drained := c.(control := Drained(c.control, t.patches));
    AugerStepCourse(s, drained, c.out.auger, t);
    var augered := AugerStep(s, ManualStep(s, drained, t.now), c.out.auger, t);
    NotifiedKeeps(augered.control, t.notices);
    CookFlameOut(s, ReadStep(augered, t), t);
  }
}
