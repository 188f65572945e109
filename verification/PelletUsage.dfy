/** The pellets the control process reports as used, over whole runs. */
module PelletUsage {
  import opened Wrappers
  import opened ControlRecord
  import opened WorkCycle
  import opened ControlLoop
  import opened RunLaws
  import opened AugerTime

  // The auger time the cycles of a trace reported.
  function Reported(trace: seq<Event>): real
    decreases |trace|
  {
    if trace == [] then 0.0
    else
      var last := trace[|trace| - 1];
      Reported(trace[..|trace| - 1]) + (if last.Closed? then last.metric else 0.0)
  }

  lemma ReportedLast(trace: seq<Event>, e: Event)
    ensures Reported(trace + [e]) == Reported(trace) + (if e.Closed? then e.metric else 0.0)
  {
    assert (trace + [e])[..|trace|] == trace;
  }

  lemma ReportedClosing(trace: seq<Event>, metric: real, e: Exit)
    ensures Reported(trace + [Closed(metric)] + ExitEvents(e)) == Reported(trace) + metric
  {
    var closed := trace + [Closed(metric)];
    ReportedLast(trace, Closed(metric));
    ReportedLast(closed, Fault);
    ReportedLast(closed, Reignited);
    assert closed + [] == closed;
  }

  // What is on the books beyond `base` is the auger rate times the time reported.
  predicate Booked(s: Settings, base: real, p: Plant) {
    p.usage == base + Times(Reported(p.trace), s.augerRate)
  }

  lemma Commute(x: real, y: real)
    ensures Times(x, y) == Times(y, x)
  {
  }

  lemma LeaveBooked(s: Settings, base: real, p: Plant, c: Cycle)
    requires Booked(s, base, p)
    ensures Booked(s, base, Leave(s, p, c).0)
  {
    ReportedClosing(p.trace, c.timers.metric, c.exit);
    Distribute(s.augerRate, Reported(p.trace), c.timers.metric);
    Commute(s.augerRate, Reported(p.trace));
    Commute(s.augerRate, c.timers.metric);
    Commute(s.augerRate, Reported(p.trace) + c.timers.metric);
  }

  lemma RunCycleBooked(s: Settings, base: real, p: Plant, mode: Mode, ci: CycleIn)
    requires Booked(s, base, p)
    ensures Booked(s, base, RunCycle(s, p, mode, ci).0)
  {
    var c := Loop(s, Open(s, p.control, mode, ci.opening), ci.ticks);
    ReportedLast(p.trace, Began(mode));
    LeaveBooked(s, base, p.(trace := p.trace + [Began(mode)]), c);
  }

  lemma RedirectBooked(s: Settings, base: real, p: Plant, c: Control)
    requires Booked(s, base, p)
    ensures Booked(s, base, Redirect(p, c))
  {
    ReportedLast(p.trace, Redirected);
  }

  function BookLaw(s: Settings, base: real): Law {
    Law(p => Booked(s, base, p), p => Booked(s, base, p), _ => true, _ => true, true)
  }

  lemma BookLawObeyed(s: Settings, base: real)
    ensures Obeyed(s, BookLaw(s, base))
  {
    forall p, mode, ci | Booked(s, base, p) ensures Booked(s, base, RunCycle(s, p, mode, ci).0) {
      RunCycleBooked(s, base, p, mode, ci);
    }
    forall p, patches | Booked(s, base, p) ensures Booked(s, base, DrainInto(p, patches)) {
      RedirectBooked(s, base, p, Drained(p.control, patches));
    }
  }

  lemma DispatchBooked(s: Settings, base: real, p: Plant, h: HeadIn)
    requires Booked(s, base, p)
    ensures Booked(s, base, Dispatch(s, p, h).plant)
  {
    if p.control.mode in {Stop, Error} {
      ReportedLast(p.trace, HandledStop);
      ReportedLast(p.trace, HandledError);
    } else {
      BookLawObeyed(s, base);
      DispatchKeeps(s, BookLaw(s, base), p, h);
    }
  }

  lemma HeadBooked(s: Settings, base: real, m: Main, h: HeadIn)
    requires Booked(s, base, m.plant)
    ensures Booked(s, base, Head(s, m, h).plant)
  {
    RedirectBooked(s, base, m.plant, m.local.(updated := true, mode := Stop));
    var switched := Switched(m, h);
    RedirectBooked(s, base, switched, Drained(switched.control, h.patches));
    var drained := DrainInto(switched, h.patches);
    RedirectBooked(s, base, drained, Notified(drained.control, h.notices));
    var p := HeadControl(m, h);
    ReportedLast(p.trace, Redirected);
    DispatchBooked(s, base, Accepted(p), h);
  }

  // Over every run, the usage grows by the auger rate times the auger time that
  // the cycles reported: each cycle is booked once, whatever its mode and exit.
  lemma {:induction false} UsageIsBooked(s: Settings, base: real, m: Main, hs: seq<HeadIn>)
    requires Booked(s, base, m.plant)
    ensures Booked(s, base, Heads(s, m, hs).plant)
    decreases |hs|
  {
    if hs != [] {
      HeadBooked(s, base, m, hs[0]);
      UsageIsBooked(s, base, Head(s, m, hs[0]), hs[1..]);
    }
  }

  lemma OpeningUnmanned(s: Settings, c: Control, mode: Mode, o: Opening)
    requires Unmanned(s, c)
    ensures Unmanned(s, Open(s, c, mode, o).control)
  {
  }

  // What one cycle books is the length of the intervals its cycle events closed:
  // the time its auger was truly on, less what a lid event or its exit cut short.
  lemma CycleBooksClosedIntervals(s: Settings, p: Plant, mode: Mode, ci: CycleIn)
    requires Feeds(mode) && Unmanned(s, p.control) && RunCycle(s, p, mode, ci).1
    requires forall i | 0 <= i < |ci.ticks| :: LeaveManual(s, ci.ticks[i])
    ensures var o := ci.opening;
            var end := WatchLoop(s, Metered(Open(s, p.control, mode, o), NewMeter(o.start)), ci.ticks);
            var left := if end.cycle.out.auger then end.meter.last - end.meter.since else 0.0;
            RunCycle(s, p, mode, ci).0.usage == p.usage + Times(end.meter.on - end.meter.cut - left, s.augerRate)
  {
    var begin := Metered(Open(s, p.control, mode, ci.opening), NewMeter(ci.opening.start));
    OpeningIsAccounted(s, p.control, mode, ci.opening);
    OpeningUnmanned(s, p.control, mode, ci.opening);
    AugerTimeIsAccounted(s, begin, ci.ticks);
    WatchingChangesNothing(s, begin, ci.ticks);
  }

  lemma PassBooksNothing(s: Settings, c: Cycle, t: Tick)
    requires !Feeds(c.mode)
    ensures Pass(s, c, t).timers.metric == c.timers.metric && Pass(s, c, t).mode == c.mode
  {
    var drained := c.(control := Drained(c.control, t.patches));
    SensorShape(s, ManualStep(s, drained, t.now), t);
  }

  // A mode that does not feed books nothing.
  lemma {:induction false} IdleModesBookNothing(s: Settings, c: Cycle, ticks: seq<Tick>)
    requires !Feeds(c.mode)
    ensures Loop(s, c, ticks).timers.metric == c.timers.metric
    decreases |ticks|
  {
    if c.Running() && ticks != [] {
      PassBooksNothing(s, c, ticks[0]);
      IdleModesBookNothing(s, Pass(s, c, ticks[0]), ticks[1..]);
    }
  }
}
