/** An error raised in a work cycle is handled before any other mode runs. */
module FaultHandling {
  import opened Wrappers
  import opened ControlRecord
  import opened WorkCycle
  import opened ControlLoop
  import opened CycleFacts
  import opened RunLaws

  // The latest event is an error nothing has answered yet.
  predicate Pending(trace: seq<Event>) { trace != [] && trace[|trace| - 1] == Fault }

  // Every error is followed by its handling, or by the request that replaced it.
  predicate Answered(trace: seq<Event>) {
    forall i | 0 <= i < |trace| - 1 && trace[i] == Fault :: trace[i + 1] in {HandledError, Redirected}
  }

  predicate Orderly(p: Plant) {
    Answered(p.trace) && (Pending(p.trace) ==> Faulted(p.control))
  }

  predicate Quiet(p: Plant) { Answered(p.trace) && !Pending(p.trace) }

  // Events that end in the only error among them, if in any.
  lemma ClosingAnswered(trace: seq<Event>, mode: Mode, closing: seq<Event>)
    requires Answered(trace) && !Pending(trace)
    requires forall i | 0 <= i < |closing| - 1 :: closing[i] != Fault
    ensures Answered(trace + [Began(mode)] + closing)
    ensures Pending(trace + [Began(mode)] + closing) ==> closing != [] && closing[|closing| - 1] == Fault
  {
    var all := trace + [Began(mode)] + closing;
    forall i | 0 <= i < |all| - 1 && all[i] == Fault ensures all[i + 1] in {HandledError, Redirected} {
      if i < |trace| {
        assert trace[i] == Fault;
      }
    }
  }

  lemma RunCycleOrderly(s: Settings, p: Plant, mode: Mode, ci: CycleIn)
    requires Quiet(p)
    ensures Orderly(RunCycle(s, p, mode, ci).0)
  {
    var c := RunCycleHonest(s, p, mode, ci, false);
    ClosingAnswered(p.trace, mode, if c.Running() then [] else [Closed(c.timers.metric)] + ExitEvents(c.exit));
  }

  lemma RedirectOrderly(p: Plant, c: Control)
    requires Orderly(p)
    ensures Orderly(Redirect(p, c))
    ensures Pending(Redirect(p, c).trace) ==> Faulted(c)
  {
  }

  const FAULT_LAW := Law(p => Orderly(p), p => Quiet(p), _ => true, _ => true, true)

  lemma FaultLawObeyed(s: Settings)
    ensures Obeyed(s, FAULT_LAW)
  {
    forall p, mode, ci | Quiet(p) ensures Orderly(RunCycle(s, p, mode, ci).0) {
      RunCycleOrderly(s, p, mode, ci);
    }
    forall p, patches | Orderly(p) ensures Orderly(DrainInto(p, patches)) {
      RedirectOrderly(p, Drained(p.control, patches));
    }
  }

  lemma NextModeOrderly(s: Settings, p: Plant, next: Mode, setpoint: real, patches: seq<Patch>)
    requires Orderly(p)
    ensures Orderly(NextMode(p, next, setpoint, patches))
  {
    FaultLawObeyed(s);
    NextModeKeeps(s, FAULT_LAW, p, next, setpoint, patches);
  }

  // The clean-up of a recipe included.
  lemma RecipeModeOrderly(s: Settings, p: Plant, file: Option<seq<RecipeStep>>, ins: seq<StepIn>)
    requires Quiet(p)
    ensures Orderly(RecipeMode(s, p, file, ins).0)
  {
    FaultLawObeyed(s);
    RecipeModeKeeps(s, FAULT_LAW, p, file, ins);
  }

  lemma HandleStopOrderly(s: Settings, p: Plant)
    requires Answered(p.trace) && (Pending(p.trace) ==> p.control.mode == Error)
    ensures Orderly(HandleStop(s, p))
  {
  }

  lemma DispatchOrderly(s: Settings, p: Plant, h: HeadIn)
    requires Answered(p.trace) && (Pending(p.trace) ==> p.control.mode == Error)
    ensures Orderly(Dispatch(s, p, h).plant)
  {
    if p.control.mode in {Stop, Error} {
      HandleStopOrderly(s, p);
    } else {
      FaultLawObeyed(s);
      DispatchKeeps(s, FAULT_LAW, p, h);
    }
  }

  lemma HeadOrderly(s: Settings, m: Main, h: HeadIn)
    requires Orderly(m.plant)
    ensures Orderly(Head(s, m, h).plant)
  {
    if m.alive {
      var p := HeadControl(m, h);
      RedirectOrderly(m.plant, m.local.(updated := true, mode := Stop));
      var switched := Switched(m, h);
      RedirectOrderly(switched, Drained(switched.control, h.patches));
      var drained := DrainInto(switched, h.patches);
      RedirectOrderly(drained, Notified(drained.control, h.notices));
      if p.control.updated && !p.control.critical {
        DispatchOrderly(s, Accepted(p), h);
      }
    }
  }

  // Faults are not lost, in any run of the main loop: between an error raised in
  // any work cycle and the next thing that happens there is nothing but its
  // handling, or a request from outside that replaces it.
  lemma {:induction false} FaultsAreNotLost(s: Settings, m: Main, hs: seq<HeadIn>)
    requires Orderly(m.plant)
    ensures Orderly(Heads(s, m, hs).plant)
    decreases |hs|
  {
    if hs != [] {
      HeadOrderly(s, m, hs[0]);
      FaultsAreNotLost(s, Head(s, m, hs[0]), hs[1..]);
    }
  }

  // ----- When a pending error is handled -----

  predicate LeavesOrders(p: Patch) {
    p.mode.None? && p.updated.None? && p.critical.None? && p.unitsChange.None?
  }

  predicate KeepsFaults(patches: seq<Patch>) {
    forall i | 0 <= i < |patches| :: patches[i].mode.None? && patches[i].updated.None?
  }

  // Only a patch that names the mode or its flag can replace a pending error.
  lemma {:induction false} RedirectionIsExplicit(c: Control, patches: seq<Patch>)
    requires Faulted(c) && KeepsFaults(patches)
    ensures Faulted(Drained(c, patches))
    decreases |patches|
  {
    if patches != [] {
      RedirectionIsExplicit(ApplyPatch(c, patches[0]), patches[1..]);
    }
  }

  lemma {:induction false} DrainedOrders(c: Control, patches: seq<Patch>)
    requires forall i | 0 <= i < |patches| :: LeavesOrders(patches[i])
    ensures SameOrders(Drained(c, patches).(safety := c.safety), c)
    decreases |patches|
  {
    if patches != [] {
      DrainedOrders(ApplyPatch(c, patches[0]), patches[1..]);
    }
  }

  function GrowthLaw(base: seq<Event>): Law {
    Law((p: Plant) => base <= p.trace, (p: Plant) => base <= p.trace, _ => true, _ => true, true)
  }

  lemma RunCycleGrows(s: Settings, p: Plant, mode: Mode, ci: CycleIn)
    ensures p.trace <= RunCycle(s, p, mode, ci).0.trace
  {
  }

  lemma GrowthLawObeyed(s: Settings, base: seq<Event>)
    ensures Obeyed(s, GrowthLaw(base))
  {
    forall p: Plant, mode, ci | base <= p.trace ensures base <= RunCycle(s, p, mode, ci).0.trace {
      RunCycleGrows(s, p, mode, ci);
    }
  }

  lemma DispatchGrows(s: Settings, p: Plant, h: HeadIn)
    ensures p.trace <= Dispatch(s, p, h).plant.trace
  {
    if p.control.mode !in {Stop, Error} {
      GrowthLawObeyed(s, p.trace);
      DispatchKeeps(s, GrowthLaw(p.trace), p, h);
    }
  }

  lemma HeadGrows(s: Settings, m: Main, h: HeadIn)
    requires m.alive
    ensures HeadControl(m, h).trace <= Head(s, m, h).plant.trace
    ensures var p := HeadControl(m, h);
            p.control.updated && !p.control.critical ==> Accepted(p).trace <= Head(s, m, h).plant.trace
  {
    var p := HeadControl(m, h);
    if p.control.updated && !p.control.critical {
      DispatchGrows(s, Accepted(p), h);
    }
  }

  lemma NotThenHandled(t: seq<Event>, trace: seq<Event>)
    requires t + [Redirected] <= trace
    ensures trace != t + [HandledError]
  {
    assert trace[|t|] == Redirected;
  }

  // The next pass of the main loop handles a pending error if and only if the
  // switch is not turned off there, the queue leaves the error pending, and neither
  // the critical flag nor a units change is up. Then the relays are off, the retries
  // restored, and the error mode kept without a request.
  lemma PendingFaultIsHandled(s: Settings, m: Main, h: HeadIn)
    requires m.alive && Faulted(m.plant.control)
    ensures var m', found := Head(s, m, h), Drained(m.plant.control, h.patches);
            && (m'.plant.trace == m.plant.trace + [HandledError]
                <==> !h.switchOff && Faulted(found) && !found.critical && !found.unitsChange)
            && (m'.plant.trace == m.plant.trace + [HandledError] ==>
                  && m'.alive && m'.plant.out == ALL_OFF.(power := found.status == Monitoring)
                  && m'.plant.control.mode == Error && !m'.plant.control.updated
                  && m'.plant.control.safety.retries == s.retries)
  {
    var t, found, p := m.plant.trace, Drained(m.plant.control, h.patches), HeadControl(m, h);
    HeadGrows(s, m, h);
    if h.switchOff || !Faulted(found) {
      assert t + [Redirected] <= p.trace;
      NotThenHandled(t, Head(s, m, h).plant.trace);
    } else {
      NotifiedKeeps(found, h.notices);
      assert p == m.plant.(control := found);
      if !found.critical && found.unitsChange {
        NotThenHandled(t, Head(s, m, h).plant.trace);
      }
    }
  }

  lemma {:induction false} StopIsNotNotified(c: Control, notices: seq<Notice>)
    ensures c.mode == Stop ==> Notified(c, notices) == c
    decreases |notices|
  {
    if c.mode == Stop && notices != [] { StopIsNotNotified(c, notices[1..]); }
  }

  // With a queue that leaves the mode and the flags alone, these are all the ways a
  // pass can go: a stop by the switch, waiting while the critical flag is up, a stop
  // by a units change, or the handling of the error.
  lemma PendingFaultOutcome(s: Settings, m: Main, h: HeadIn)
    requires m.alive && Faulted(m.plant.control) && forall i | 0 <= i < |h.patches| :: LeavesOrders(h.patches[i])
    ensures var t, c, m' := m.plant.trace, m.plant.control, Head(s, m, h);
            if h.switchOff then m'.plant.trace == t + [Redirected] + (if m.local.critical then [] else [HandledStop])
            else if c.critical then m'.plant.trace == t && Faulted(m'.plant.control)
            else if c.unitsChange then m'.plant.trace == t + [Redirected, HandledStop]
            else m'.plant.trace == t + [HandledError]
  {
    var c := Switched(m, h).control;
    DrainedOrders(c, h.patches);
    NotifiedKeeps(Drained(c, h.patches), h.notices);
    StopIsNotNotified(Drained(c, h.patches), h.notices);
  }
}
