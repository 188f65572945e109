/** Between work cycles the auger and the igniter are off, and idle means the fan too. */
module IdleSafety {
  import opened Wrappers
  import opened ControlRecord
  import opened WorkCycle
  import opened ControlLoop
  import opened CycleFacts
  import opened RunLaws

  predicate Cold(o: Outputs) { !o.auger && !o.igniter }

  // The fan is on only while a request waits for the main loop.
  predicate Ventilated(p: Plant) { p.out.fan ==> p.control.updated }

  lemma RunCycleCold(s: Settings, p: Plant, mode: Mode, ci: CycleIn)
    requires RunCycle(s, p, mode, ci).1
    ensures Cold(RunCycle(s, p, mode, ci).0.out)
    ensures mode in {Shutdown, Monitor, Manual, Prime} ==>
              !RunCycle(s, p, mode, ci).0.out.fan && !RunCycle(s, p, mode, ci).0.out.power
  {
    var c := RunCycleHonest(s, p, mode, ci, false);
    assert RunCycle(s, p, mode, ci).0.out == ClosingOutputs(mode, c.out);
  }

  const COLD_LAW := Law((p: Plant) => Cold(p.out), (p: Plant) => Cold(p.out), _ => true, _ => true, false)

  lemma ColdLawObeyed(s: Settings)
    ensures Obeyed(s, COLD_LAW)
  {
    forall p, mode, ci | RunCycle(s, p, mode, ci).1 ensures Cold(RunCycle(s, p, mode, ci).0.out) {
      RunCycleCold(s, p, mode, ci);
    }
  }

  // A request the dispatcher does nothing for: a mode it does not know, or a recipe
  // whose file does not load.
  predicate Ignored(mode: Mode, h: HeadIn) { mode.Unknown? || (mode == Recipe && h.file.None?) }

  // A cycle and its scheduling end in a request, and so does a recipe; the modes
  // without a schedule turn the fan off.
  lemma DispatchVentilated(s: Settings, p: Plant, h: HeadIn)
    requires Dispatch(s, p, h).alive && !Ignored(p.control.mode, h)
    ensures Ventilated(Dispatch(s, p, h).plant)
  {
    match p.control.mode
    case Startup => if s.primeOnStartup { RunCycleCold(s, p.(control := p.control.(mode := Prime)), Prime, h.first); }
    case Monitor => RunCycleCold(s, p.(control := p.control.(status := Monitoring)), Monitor, h.first);
    case Manual => RunCycleCold(s, p, Manual, h.first);
    case _ =>
  }

  lemma DispatchCold(s: Settings, p: Plant, h: HeadIn)
    requires Cold(p.out) && Dispatch(s, p, h).alive
    ensures Cold(Dispatch(s, p, h).plant.out)
    ensures if Ignored(p.control.mode, h) then Dispatch(s, p, h).plant == p else Ventilated(Dispatch(s, p, h).plant)
  {
    if p.control.mode !in {Stop, Error} {
      ColdLawObeyed(s);
      DispatchKeeps(s, COLD_LAW, p, h);
    }
    if !Ignored(p.control.mode, h) { DispatchVentilated(s, p, h); }
  }

  // The pass leaves the fan as it is without a request to answer: a patch cleared
  // the request, or the dispatcher ignores it.
  predicate Strands(m: Main, h: HeadIn) {
    var c := HeadControl(m, h).control;
    !c.updated || (!c.critical && Ignored(Accepted(HeadControl(m, h)).control.mode, h))
  }

  // One pass of the main loop, from a safe head to the next: the auger and the
  // igniter are off, and the fan is left on without a request exactly when it was
  // on and the pass strands it.
  lemma HeadIsSafe(s: Settings, m: Main, h: HeadIn)
    requires m.alive && Cold(m.plant.out) && Ventilated(m.plant) && Head(s, m, h).alive
    ensures Cold(Head(s, m, h).plant.out)
    ensures !Ventilated(Head(s, m, h).plant) <==> m.plant.out.fan && Strands(m, h)
  {
    var p := HeadControl(m, h);
    assert p.out == m.plant.out;
    if p.control.updated && !p.control.critical {
      var accepted := Accepted(p);
      assert accepted.out == m.plant.out && !accepted.control.updated;
      DispatchCold(s, accepted, h);
    }
  }

  // A single patch that withdraws the request strands the fan that a Smoke or Hold
  // cycle left on.
  lemma WithdrawnRequestStrandsFan(s: Settings, m: Main, h: HeadIn)
    requires m.alive && Cold(m.plant.out) && m.plant.out.fan && m.plant.control.updated
    requires !h.switchOff && h.patches == [NO_PATCH.(updated := Some(false))] && h.notices == []
    ensures Ventilated(m.plant) && !Ventilated(Head(s, m, h).plant)
  {
    assert Drained(m.plant.control, h.patches) == m.plant.control.(updated := false);
    HeadIsSafe(s, m, h);
  }

  predicate KeepsRequests(patches: seq<Patch>) {
    forall i | 0 <= i < |patches| :: patches[i].updated != Some(false)
  }

  lemma {:induction false} DrainedKeepsRequest(c: Control, patches: seq<Patch>)
    requires c.updated && KeepsRequests(patches)
    ensures Drained(c, patches).updated
    decreases |patches|
  {
    if patches != [] {
      DrainedKeepsRequest(ApplyPatch(c, patches[0]), patches[1..]);
    }
  }

  // Through the run, no patch drained by the main loop withdraws a request, and
  // the requests it accepts are for modes it knows and recipes that load.
  predicate Answerable(s: Settings, m: Main, hs: seq<HeadIn>)
    decreases |hs|
  {
    hs == [] ||
    (&& KeepsRequests(hs[0].patches)
     && !Ignored(Accepted(HeadControl(m, hs[0])).control.mode, hs[0])
     && Answerable(s, Head(s, m, hs[0]), hs[1..]))
  }

  lemma {:induction false} AliveBefore(s: Settings, m: Main, hs: seq<HeadIn>)
    requires Heads(s, m, hs).alive
    ensures m.alive
    decreases |hs|
  {
    if hs != [] {
      AliveBefore(s, Head(s, m, hs[0]), hs[1..]);
    }
  }

  // At every head the auger and the igniter are off, whatever modes ran, however
  // their cycles ended and whatever was queued.
  lemma {:induction false} IdleIsCold(s: Settings, m: Main, hs: seq<HeadIn>)
    requires Cold(m.plant.out) && Heads(s, m, hs).alive
    ensures Cold(Heads(s, m, hs).plant.out)
    decreases |hs|
  {
    if hs != [] {
      AliveBefore(s, Head(s, m, hs[0]), hs[1..]);
      AliveBefore(s, m, hs);
      var p := HeadControl(m, hs[0]);
      if p.control.updated && !p.control.critical {
        DispatchCold(s, Accepted(p), hs[0]);
      }
      IdleIsCold(s, Head(s, m, hs[0]), hs[1..]);
    }
  }

  lemma RequestSurvives(m: Main, h: HeadIn)
    requires m.plant.control.updated && KeepsRequests(h.patches)
    ensures HeadControl(m, h).control.updated
  {
    DrainedKeepsRequest(Switched(m, h).control, h.patches);
    NotifiedKeeps(DrainInto(Switched(m, h), h.patches).control, h.notices);
  }

  lemma AnswerableHeadIsSafe(s: Settings, m: Main, h: HeadIn)
    requires m.alive && Cold(m.plant.out) && Ventilated(m.plant) && Head(s, m, h).alive
    requires KeepsRequests(h.patches) && !Ignored(Accepted(HeadControl(m, h)).control.mode, h)
    ensures Cold(Head(s, m, h).plant.out) && Ventilated(Head(s, m, h).plant)
  {
    assert m.plant.out.fan ==> !Strands(m, h) by {
      if m.plant.out.fan { RequestSurvives(m, h); }
    }
    HeadIsSafe(s, m, h);
  }

  // And in an answerable run the fan is off whenever no request is waiting.
  lemma {:induction false} IdleIsSafe(s: Settings, m: Main, hs: seq<HeadIn>)
    requires Cold(m.plant.out) && Ventilated(m.plant) && Heads(s, m, hs).alive && Answerable(s, m, hs)
    ensures Cold(Heads(s, m, hs).plant.out) && Ventilated(Heads(s, m, hs).plant)
    decreases |hs|
  {
    if hs != [] {
      AliveBefore(s, Head(s, m, hs[0]), hs[1..]);
      AliveBefore(s, m, hs);
      AnswerableHeadIsSafe(s, m, hs[0]);
      IdleIsSafe(s, Head(s, m, hs[0]), hs[1..]);
    }
  }
}
