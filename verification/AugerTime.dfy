/** How long the auger runs in a work cycle: what is reported, and how much at most. */
module AugerTime {
  import opened Wrappers
  import opened ControlRecord
  import opened WorkCycle

  // An observer's record of the auger relay: the time it has been on, the clock of
  // the last pass, when it last went on, and the lengths of the intervals that a
  // cycle event closed and that something else cut short.
  datatype Meter = Meter(on: real, last: real, since: real, closed: real, cut: real)

  function NewMeter(start: real): Meter { Meter(0.0, start, start, 0.0, 0.0) }

  // One pass as the observer sees it: the relay stays as it was until `now`; then
  // the cycle events may switch it, and after them the rest of the pass.
  function Observe(m: Meter, now: real, before: bool, between: bool, after: bool): Meter {
    var since := if !before && between then now else m.since;
    Meter(
      if before then m.on + (now - m.last) else m.on,
      now, since,
      if before && !between then m.closed + (now - since) else m.closed,
      if between && !after then m.cut + (now - since) else m.cut)
  }

  // The relay after the cycle events of a pass.
  function Between(s: Settings, c: Cycle, t: Tick): bool {
    var drained := c.(control := Drained(c.control, t.patches));
    if drained.control.updated || t.switchOff then c.out.auger
    else AugerStep(s, ManualStep(s, drained, t.now), c.out.auger, t).out.auger
  }

  datatype Metered = Metered(cycle: Cycle, meter: Meter)

  function Watch(s: Settings, w: Metered, t: Tick): Metered {
    var after := Pass(s, w.cycle, t);
    Metered(after, Observe(w.meter, t.now, w.cycle.out.auger, Between(s, w.cycle, t), after.out.auger))
  }

  function WatchLoop(s: Settings, w: Metered, ticks: seq<Tick>): Metered
    decreases |ticks|, 1
  {
    if !w.cycle.Running() || ticks == [] then w else WatchAndLoop(s, w, ticks)
  }

  function WatchAndLoop(s: Settings, w: Metered, ticks: seq<Tick>): Metered
    requires ticks != []
    decreases |ticks|, 0
  {
    WatchLoop(s, Watch(s, w, ticks[0]), ticks[1..])
  }

  lemma {:induction false} WatchingChangesNothing(s: Settings, w: Metered, ticks: seq<Tick>)
    ensures WatchLoop(s, w, ticks).cycle == Loop(s, w.cycle, ticks)
    decreases |ticks|
  {
    if w.cycle.Running() && ticks != [] {
      WatchingChangesNothing(s, Watch(s, w, ticks[0]), ticks[1..]);
    }
  }

  // No manual change reaches the relays.
  predicate Unmanned(s: Settings, c: Control) { !s.allowManual || c.manual.None? }

  // Patches that ask for no manual change; they may clear one.
  predicate NoOverrides(patches: seq<Patch>) {
    forall i | 0 <= i < |patches| :: patches[i].manual.None? || patches[i].manual.value.None?
  }

  predicate LeaveManual(s: Settings, t: Tick) {
    !s.allowManual || NoOverrides(t.patches)
  }

  lemma {:induction false} DrainedUnmanned(s: Settings, c: Control, patches: seq<Patch>)
    requires Unmanned(s, c)
    requires !s.allowManual || NoOverrides(patches)
    ensures Unmanned(s, Drained(c, patches))
    decreases |patches|
  {
    if patches != [] {
      DrainedUnmanned(s, ApplyPatch(c, patches[0]), patches[1..]);
    }
  }

  // The auger's timing is as it was or, after a lid event, the auger is stopped
  // and its timing restarted.
  ghost predicate KeptOrCut(c: Cycle, c': Cycle, now: real) {
    && c'.mode == c.mode && c'.opening == c.opening && c'.control.manual == c.control.manual
    && c'.timers.cycleTime == c.timers.cycleTime && c'.timers.ratio == c.timers.ratio
    && c'.timers.metric == c.timers.metric && c'.timers.override == c.timers.override
    && (|| (c'.out.auger == c.out.auger && c'.timers.toggle == c.timers.toggle)
        || (!c'.out.auger && c'.timers.toggle == now))
  }

  lemma DetectLidShape(s: Settings, c: Cycle, now: real)
    ensures KeptOrCut(c, DetectLid(s, NoteTarget(c), now), now)
  {
  }

  lemma SettleLidShape(s: Settings, c: Cycle, t: Tick)
    ensures KeptOrCut(c, SettleLid(s, c, t), t.now)
  {
  }

  lemma LidStepShape(s: Settings, c: Cycle, t: Tick)
    ensures KeptOrCut(c, LidStep(s, c, t), t.now)
  {
    DetectLidShape(s, c, t.now);
    SettleLidShape(s, DetectLid(s, NoteTarget(c), t.now), t);
  }

  lemma EndStepShape(s: Settings, c: Cycle, now: real)
    ensures KeptOrCut(c, EndStep(s, c, now), now)
  {
  }

  lemma CookStepShape(s: Settings, c: Cycle, t: Tick)
    ensures KeptOrCut(c, CookStep(s, c, t), t.now)
  {
    LidStepShape(s, c, t);
    var lid := LidStep(s, c, t);
    var fanned := FanStep(lid, t.fan);
    assert KeptOrCut(c, fanned, t.now);
    EndStepShape(s, fanned, t.now);
  }

  lemma SensorShape(s: Settings, c: Cycle, t: Tick)
    ensures KeptOrCut(c, SensorStep(s, c, t), t.now)
  {
    var read := ReadStep(c, t);
    NotifiedKeeps(c.control, t.notices);
    assert KeptOrCut(c, read, t.now) && KeptOrCut(c, Warmed(read), t.now);
    EndStepShape(s, read, t.now);
    EndStepShape(s, Warmed(read), t.now);
    CookStepShape(s, read, t);
  }

  // ----- Accounting -----

  // What the cycle reports is what cycle events closed; the rest of the time the
  // auger was on was cut, or is still open.
  ghost predicate Accounted(w: Metered) {
    && w.cycle.timers.metric == w.meter.closed
    && (w.cycle.out.auger ==> w.cycle.timers.toggle == w.meter.since)
    && w.meter.on == w.meter.closed + w.meter.cut + (if w.cycle.out.auger then w.meter.last - w.meter.since else 0.0)
  }

  // What the cycle events do: nothing, or one switch of the relay.
  ghost predicate KeptOrToggled(c: Cycle, c': Cycle, now: real) {
    && c'.mode == c.mode && c'.opening == c.opening
    && (|| (c'.out.auger == c.out.auger && c'.timers.toggle == c.timers.toggle && c'.timers.metric == c.timers.metric)
        || (!c.out.auger && c'.out.auger && c'.timers.toggle == now && c'.timers.metric == c.timers.metric)
        || (c.out.auger && !c'.out.auger && c'.timers.toggle == now
            && c'.timers.metric == c.timers.metric + (now - c.timers.toggle)))
  }

  lemma AugerStepShape(s: Settings, c: Cycle, t: Tick)
    ensures KeptOrToggled(c, AugerStep(s, c, c.out.auger, t), t.now)
  {
  }

  lemma ObserveAccounts(w: Metered, between: Cycle, after: Cycle, now: real)
    requires Accounted(w) && KeptOrToggled(w.cycle, between, now) && KeptOrCut(between, after, now)
    ensures Accounted(Metered(after, Observe(w.meter, now, w.cycle.out.auger, between.out.auger, after.out.auger)))
  {
  }

  predicate Holds(s: Settings) {
    s.holdCycle > 0.0 && 0.0 < s.uMin <= s.uMax < 1.0
  }

  function OffBound(s: Settings): real { Times(s.holdCycle, 1.0 - s.uMax) }

  // The longest the auger stays on and the least it stays off, with passes `gap` apart.
  function OnBound(s: Settings, gap: real): real { Times(s.holdCycle, s.uMax) + gap }

  //   C (1 - uMax) A  <=  (C uMax + gap) (T - A + C (1 - uMax))
  // for the auger on for A out of a time T.
  predicate WithinDuty(s: Settings, gap: real, T: real, A: real) {
    Times(OffBound(s), A) <= Times(OnBound(s, gap), T - A + OffBound(s))
  }

  ghost predicate Steady(s: Settings, c: Cycle) {
    && c.mode == Hold && c.timers.cycleTime == s.holdCycle && s.uMin <= c.timers.ratio <= s.uMax
    && c.timers.override == 0.0
  }

  lemma WholeCycle(cycle: real, ratio: real)
    ensures Times(cycle, ratio) + Times(cycle, 1.0 - ratio) == cycle
  {
  }

  // In Hold the relay goes on only after the least off time, and stays on at the
  // end of a pass only within the longest on time.
  lemma HoldAugerStep(s: Settings, c: Cycle, t: Tick)
    requires Holds(s) && Steady(s, c) && t.now > 0.0
    ensures var c' := AugerStep(s, c, c.out.auger, t); var spent := t.now - c.timers.toggle;
            && Steady(s, c')
            && (!c.out.auger && c'.out.auger ==> spent > OffBound(s))
            && (c.out.auger && c'.out.auger ==> spent <= Times(s.holdCycle, s.uMax))
  {
    var tm := PidStep(s, c.mode, c.timers, t.now, t.pid);
    assert s.uMin <= tm.ratio <= s.uMax && tm.cycleTime == s.holdCycle && tm.toggle == c.timers.toggle;
    WholeCycle(s.holdCycle, tm.ratio);
    TimesMonotone(tm.ratio, s.uMax, s.holdCycle);
    TimesMonotone(1.0 - s.uMax, 1.0 - tm.ratio, s.holdCycle);
    assert Times(s.holdCycle, tm.ratio) == Times(tm.ratio, s.holdCycle);
    assert Times(s.holdCycle, s.uMax) == Times(s.uMax, s.holdCycle);
    assert Times(s.holdCycle, 1.0 - s.uMax) == Times(1.0 - s.uMax, s.holdCycle);
    assert Times(s.holdCycle, 1.0 - tm.ratio) == Times(1.0 - tm.ratio, s.holdCycle);
  }

  // A whole pass without manual changes: the cycle events, then the rest.
  lemma PassShape(s: Settings, c: Cycle, t: Tick) returns (between: Cycle, after: Cycle)
    requires Feeds(c.mode) && Unmanned(s, c.control) && LeaveManual(s, t)
    ensures after == Pass(s, c, t) && between.out.auger == Between(s, c, t)
    ensures KeptOrToggled(c, between, t.now) && KeptOrCut(between, after, t.now) && Unmanned(s, after.control)
    ensures Holds(s) && Steady(s, c) && t.now > 0.0 ==>
      var spent := t.now - c.timers.toggle;
      && Steady(s, between)
      && (!c.out.auger && between.out.auger ==> spent > OffBound(s))
      && (after.Running() && c.out.auger && between.out.auger ==> spent <= Times(s.holdCycle, s.uMax))
  {
    DrainedUnmanned(s, c.control, t.patches);
    var drained := c.(control := Drained(c.control, t.patches));
    between, after := drained, Pass(s, c, t);
    if !drained.control.updated && !t.switchOff {
      assert ManualStep(s, drained, t.now) == drained;
      between := AugerStep(s, drained, c.out.auger, t);
      AugerStepShape(s, drained, t);
      SensorShape(s, between, t);
      if Holds(s) && Steady(s, c) && t.now > 0.0 {
        HoldAugerStep(s, drained, t);
      }
    }
  }

  lemma PassAccounts(s: Settings, w: Metered, t: Tick)
    requires Feeds(w.cycle.mode) && Accounted(w)
    requires Unmanned(s, w.cycle.control) && LeaveManual(s, t)
    ensures Accounted(Watch(s, w, t)) && Unmanned(s, Pass(s, w.cycle, t).control)
    ensures Pass(s, w.cycle, t).mode == w.cycle.mode
  {
    var between, after := PassShape(s, w.cycle, t);
    ObserveAccounts(w, between, after, t.now);
  }

  // Over any number of passes of a feeding mode without manual changes.
  lemma {:induction false} AugerTimeIsAccounted(s: Settings, w: Metered, ticks: seq<Tick>)
    requires Feeds(w.cycle.mode) && Accounted(w) && Unmanned(s, w.cycle.control)
    requires forall i | 0 <= i < |ticks| :: LeaveManual(s, ticks[i])
    ensures Accounted(WatchLoop(s, w, ticks))
    decreases |ticks|
  {
    if w.cycle.Running() && ticks != [] {
      PassAccounts(s, w, ticks[0]);
      AugerTimeIsAccounted(s, Watch(s, w, ticks[0]), ticks[1..]);
    }
  }

  lemma OpeningIsAccounted(s: Settings, c: Control, mode: Mode, o: Opening)
    ensures Accounted(Metered(Open(s, c, mode, o), NewMeter(o.start)))
  {
  }

  // ----- The duty bound -----

  // Off time weighed by `on` less on time weighed by `off`.
  function Credit(on: real, off: real, offTime: real, onTime: real): real {
    Times(on, offTime) - Times(off, onTime)
  }

  // The bookkeeping of the duty bound: the relay's state, the time since its timing
  // was last restarted, and the credit so far.
  ghost predicate Covered(on: real, off: real, relay: bool, spent: real, offTime: real, onTime: real) {
    && 0.0 <= spent
    && (relay ==> spent <= on && Credit(on, off, offTime, onTime) + Times(off, spent) >= 0.0)
    && (!relay ==> Credit(on, off, offTime, onTime) + Times(on, off) >= Times(on, spent))
  }

  lemma Distribute(x: real, y: real, z: real)
    ensures Times(x, y + z) == Times(x, y) + Times(x, z)
  {
  }

  lemma TimePasses(on: real, off: real, relay: bool, spent: real, offTime: real, onTime: real, dt: real)
    requires Covered(on, off, relay, spent, offTime, onTime) && 0.0 <= dt
    requires relay ==> spent + dt <= on
    ensures Covered(on, off, relay, spent + dt,
                    if relay then offTime else offTime + dt, if relay then onTime + dt else onTime)
  {
    Distribute(off, spent, dt);
    Distribute(on, spent, dt);
    Distribute(off, onTime, dt);
    Distribute(on, offTime, dt);
  }

  lemma RelaySwitches(on: real, off: real, relay: bool, spent: real, offTime: real, onTime: real, relay': bool)
    requires 0.0 <= on && 0.0 <= off && Covered(on, off, relay, spent, offTime, onTime)
    requires !relay && relay' ==> spent >= off
    requires relay ==> !relay'
    ensures Covered(on, off, relay', 0.0, offTime, onTime)
  {
    assert Times(off, 0.0) == 0.0 && Times(on, 0.0) == 0.0;
    if relay {
      TimesMonotone(spent, on, off);
      assert Times(spent, off) == Times(off, spent) && Times(on, off) == Times(off, on);
    } else if relay' {
      TimesMonotone(off, spent, on);
      assert Times(spent, on) == Times(on, spent) && Times(off, on) == Times(on, off);
    } else {
      TimesMonotone(0.0, spent, on);
      assert Times(spent, on) == Times(on, spent) && Times(0.0, on) == 0.0;
    }
  }

  lemma CoveredBounds(on: real, off: real, relay: bool, spent: real, offTime: real, onTime: real)
    requires 0.0 <= on && 0.0 <= off && Covered(on, off, relay, spent, offTime, onTime)
    ensures Times(off, onTime) <= Times(on, offTime + off)
  {
    Distribute(on, offTime, off);
    if relay { TimesMonotone(spent, on, off); }
    TimesMonotone(0.0, spent, on);
    assert Times(spent, off) == Times(off, spent) && Times(on, off) == Times(off, on);
    assert Times(spent, on) == Times(on, spent) && Times(0.0, on) == 0.0;
  }

  ghost predicate Dutiful(s: Settings, gap: real, w: Metered, start: real) {
    var spent := w.meter.last - w.cycle.timers.toggle;
    && Steady(s, w.cycle)
    && (w.cycle.Running() && w.cycle.out.auger ==> spent <= Times(s.holdCycle, s.uMax))
    && Covered(OnBound(s, gap), OffBound(s), w.cycle.out.auger, spent, w.meter.last - start - w.meter.on, w.meter.on)
  }

  // The cycle events of a pass and then the rest of it, on the bookkeeping.
  lemma PassCovered(on: real, off: real, c: Cycle, between: Cycle, after: Cycle, now: real, offTime: real, onTime: real)
    requires 0.0 <= on && 0.0 <= off
    requires Covered(on, off, c.out.auger, now - c.timers.toggle, offTime, onTime)
    requires KeptOrToggled(c, between, now) && KeptOrCut(between, after, now)
    requires !c.out.auger && between.out.auger ==> now - c.timers.toggle >= off
    ensures Covered(on, off, after.out.auger, now - after.timers.toggle, offTime, onTime)
  {
    if between.timers.toggle != c.timers.toggle || between.out.auger != c.out.auger {
      RelaySwitches(on, off, c.out.auger, now - c.timers.toggle, offTime, onTime, between.out.auger);
    }
    if after.timers.toggle != between.timers.toggle || after.out.auger != between.out.auger {
      RelaySwitches(on, off, between.out.auger, now - between.timers.toggle, offTime, onTime, false);
    }
  }

  lemma BoundsNonNegative(s: Settings, gap: real)
    requires Holds(s) && 0.0 <= gap
    ensures 0.0 <= OnBound(s, gap) && 0.0 <= OffBound(s)
  {
    TimesMonotone(0.0, s.uMax, s.holdCycle);
    TimesMonotone(0.0, 1.0 - s.uMax, s.holdCycle);
    assert Times(0.0, s.holdCycle) == 0.0;
  }

  lemma ObserveDutiful(s: Settings, gap: real, w: Metered, start: real, between: Cycle, after: Cycle, now: real)
    requires Holds(s) && 0.0 <= gap && w.cycle.Running() && Dutiful(s, gap, w, start)
    requires w.meter.last <= now <= w.meter.last + gap
    requires KeptOrToggled(w.cycle, between, now) && KeptOrCut(between, after, now) && Steady(s, between)
    requires !w.cycle.out.auger && between.out.auger ==> now - w.cycle.timers.toggle >= OffBound(s)
    requires after.Running() && w.cycle.out.auger && between.out.auger ==>
               now - w.cycle.timers.toggle <= Times(s.holdCycle, s.uMax)
    ensures Dutiful(s, gap,
      Metered(after, Observe(w.meter, now, w.cycle.out.auger, between.out.auger, after.out.auger)), start)
  {
    var on, off, c := OnBound(s, gap), OffBound(s), w.cycle;
    BoundsNonNegative(s, gap);
    var onTime := if c.out.auger then w.meter.on + (now - w.meter.last) else w.meter.on;
    TimePasses(on, off, c.out.auger, w.meter.last - c.timers.toggle, w.meter.last - start - w.meter.on, w.meter.on,
               now - w.meter.last);
    PassCovered(on, off, c, between, after, now, now - start - onTime, onTime);
    TimesMonotone(0.0, s.uMax, s.holdCycle);
    assert Times(s.uMax, s.holdCycle) == Times(s.holdCycle, s.uMax) && Times(0.0, s.holdCycle) == 0.0;
  }

  // One pass within `gap` of the last one.
  lemma PassDutiful(s: Settings, gap: real, w: Metered, start: real, t: Tick)
    requires Holds(s) && 0.0 <= gap && w.cycle.Running() && Dutiful(s, gap, w, start)
    requires w.meter.last <= t.now <= w.meter.last + gap && t.now > 0.0
    requires Unmanned(s, w.cycle.control) && LeaveManual(s, t)
    ensures Dutiful(s, gap, Watch(s, w, t), start) && Unmanned(s, Pass(s, w.cycle, t).control)
  {
    var between, after := PassShape(s, w.cycle, t);
    ObserveDutiful(s, gap, w, start, between, after, t.now);
  }

  // The clock of each pass is within `gap` of the one before.
  predicate Paced(last: real, gap: real, ticks: seq<Tick>)
    decreases |ticks|
  {
    ticks == [] || (last <= ticks[0].now <= last + gap && ticks[0].now > 0.0 && Paced(ticks[0].now, gap, ticks[1..]))
  }

  lemma {:induction false} LoopDutiful(s: Settings, gap: real, w: Metered, start: real, ticks: seq<Tick>)
    requires Holds(s) && 0.0 <= gap && Dutiful(s, gap, w, start)
    requires Paced(w.meter.last, gap, ticks)
    requires Unmanned(s, w.cycle.control) && forall i | 0 <= i < |ticks| :: LeaveManual(s, ticks[i])
    ensures Dutiful(s, gap, WatchLoop(s, w, ticks), start)
    decreases |ticks|
  {
    if w.cycle.Running() && ticks != [] {
      PassDutiful(s, gap, w, start, ticks[0]);
      LoopDutiful(s, gap, Watch(s, w, ticks[0]), start, ticks[1..]);
    }
  }

  lemma HoldOpens(s: Settings, c: Control, o: Opening)
    requires Holds(s) && Unmanned(s, c)
    ensures var begin := Open(s, c, Hold, o);
            && Steady(s, begin) && begin.out.auger && begin.timers.toggle == o.start && Unmanned(s, begin.control)
  {
  }

  lemma OpeningDutiful(s: Settings, gap: real, w: Metered, start: real)
    requires Holds(s) && 0.0 <= gap && Steady(s, w.cycle)
    requires w.meter == NewMeter(start) && w.cycle.timers.toggle == start && w.cycle.out.auger
    ensures Dutiful(s, gap, w, start)
  {
    BoundsNonNegative(s, 0.0);
    assert Times(OffBound(s), 0.0) == 0.0 && Times(OnBound(s, gap), 0.0) == 0.0;
  }

  lemma DutifulBound(s: Settings, gap: real, w: Metered, start: real)
    requires Holds(s) && 0.0 <= gap && Dutiful(s, gap, w, start)
    ensures WithinDuty(s, gap, w.meter.last - start, w.meter.on)
  {
    BoundsNonNegative(s, gap);
    CoveredBounds(OnBound(s, gap), OffBound(s), w.cycle.out.auger, w.meter.last - w.cycle.timers.toggle,
                  w.meter.last - start - w.meter.on, w.meter.on);
  }

  lemma DutyBoundFrom(s: Settings, gap: real, w: Metered, start: real, ticks: seq<Tick>)
    requires Holds(s) && 0.0 <= gap && Dutiful(s, gap, w, start)
    requires Paced(w.meter.last, gap, ticks)
    requires Unmanned(s, w.cycle.control) && forall i | 0 <= i < |ticks| :: LeaveManual(s, ticks[i])
    ensures var end := WatchLoop(s, w, ticks);
            end.cycle == Loop(s, w.cycle, ticks) && WithinDuty(s, gap, end.meter.last - start, end.meter.on)
  {
    LoopDutiful(s, gap, w, start, ticks);
    WatchingChangesNothing(s, w, ticks);
    DutifulBound(s, gap, WatchLoop(s, w, ticks), start);
  }

  lemma HoldDuty(s: Settings, gap: real, begin: Cycle, start: real, ticks: seq<Tick>)
    requires Holds(s) && 0.0 <= gap && Paced(start, gap, ticks)
    requires Steady(s, begin) && begin.out.auger && begin.timers.toggle == start && Unmanned(s, begin.control)
    requires forall i | 0 <= i < |ticks| :: LeaveManual(s, ticks[i])
    ensures var end := WatchLoop(s, Metered(begin, NewMeter(start)), ticks);
            end.cycle == Loop(s, begin, ticks) && WithinDuty(s, gap, end.meter.last - start, end.meter.on)
  {
    OpeningDutiful(s, gap, Metered(begin, NewMeter(start)), start);
    DutyBoundFrom(s, gap, Metered(begin, NewMeter(start)), start, ticks);
  }

  // The duty bound of a Hold cycle: with T the time from the start of the cycle to
  // its latest pass and A the part of it the auger was on, they are within duty
  // whatever the controller answers, the probe reads and the lid does.
  lemma AugerDutyBound(s: Settings, gap: real, c: Control, o: Opening, ticks: seq<Tick>)
    requires Holds(s) && 0.0 <= gap
    requires Paced(o.start, gap, ticks)
    requires Unmanned(s, c) && forall i | 0 <= i < |ticks| :: LeaveManual(s, ticks[i])
    ensures var end := WatchLoop(s, Metered(Open(s, c, Hold, o), NewMeter(o.start)), ticks);
            && end.cycle == Loop(s, Open(s, c, Hold, o), ticks)
            && WithinDuty(s, gap, end.meter.last - o.start, end.meter.on)
  {
    HoldOpens(s, c, o);
    HoldDuty(s, gap, Open(s, c, Hold, o), o.start, ticks);
  }
}
