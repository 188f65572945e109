/** The auger's timing: the controller's ratio, both switches of the relay, and the least it feeds. */
module AugerCycling {
  import opened Wrappers
  import opened ControlRecord
  import opened WorkCycle
  import opened CycleLimits
  import opened AugerTime

  // ----- The ratio -----

  // Since the last time the ratio was set a whole auger cycle has gone by.
  predicate RatioDue(c: Cycle, t: Tick) { c.mode == Hold && t.now - c.timers.pidStart > c.timers.cycleTime }

  lemma LidKeepsPidStart(s: Settings, c: Cycle, t: Tick)
    ensures DetectLid(s, NoteTarget(c), t.now).timers.pidStart == c.timers.pidStart
    ensures SettleLid(s, c, t).timers.pidStart == c.timers.pidStart
  {
  }

  lemma EndKeepsTiming(s: Settings, c: Cycle, now: real)
    ensures EndStep(s, c, now).timers == c.timers && EndStep(s, c, now).out == c.out
  {
  }

  lemma CookKeepsPidStart(s: Settings, c: Cycle, t: Tick)
    ensures CookStep(s, c, t).timers.pidStart == c.timers.pidStart
  {
    LidKeepsPidStart(s, c, t);
    LidKeepsPidStart(s, DetectLid(s, NoteTarget(c), t.now), t);
    EndKeepsTiming(s, FanStep(LidStep(s, c, t), t.fan), t.now);
  }

  lemma SensorKeepsPidStart(s: Settings, c: Cycle, t: Tick)
    ensures SensorStep(s, c, t).timers.pidStart == c.timers.pidStart
  {
    var read := ReadStep(c, t);
    CookKeepsPidStart(s, read, t);
    EndKeepsTiming(s, read, t.now);
    EndKeepsTiming(s, Warmed(read), t.now);
  }

  // What SensorStep keeps of the timers.
  lemma SensorKeepsRatio(s: Settings, c: Cycle, t: Tick)
    ensures var c' := SensorStep(s, c, t);
            c'.timers.ratio == c.timers.ratio && c'.timers.pidStart == c.timers.pidStart
            && c'.timers.cycleTime == c.timers.cycleTime
  {
    SensorKeepsPidStart(s, c, t);
    SensorShape(s, c, t);
  }

  lemma AugerStepRatio(s: Settings, c: Cycle, was: bool, t: Tick)
    ensures var tm, tm' := c.timers, AugerStep(s, c, was, t).timers;
            && (c.mode != Hold ==> tm'.cycleTime == tm.cycleTime)
            && (!RatioDue(c, t) ==> tm'.ratio == tm.ratio && tm'.pidStart == tm.pidStart)
            && (RatioDue(c, t) ==>
                  && tm'.pidStart == t.now
                  && tm'.ratio == Clamp(s, if tm.lidOpen then s.uMin else t.pid))
  {
  }

  // In Hold the ratio is the controller's answer wherever that is within the limits,
  // and the nearer limit elsewhere; the least ratio while the lid is open. It is set
  // once an auger cycle has gone by, never before, and in no other mode.
  lemma RatioFollowsController(s: Settings, c: Cycle, t: Tick)
    requires Proceeds(c, t) && s.uMin <= s.uMax
    ensures var tm, tm' := c.timers, Pass(s, c, t).timers;
            && (!RatioDue(c, t) ==> tm'.ratio == tm.ratio && tm'.pidStart == tm.pidStart)
            && (RatioDue(c, t) ==>
                  && tm'.pidStart == t.now
                  && (tm.lidOpen ==> tm'.ratio == s.uMin)
                  && (!tm.lidOpen && s.uMin <= t.pid <= s.uMax ==> tm'.ratio == t.pid)
                  && (!tm.lidOpen && t.pid < s.uMin ==> tm'.ratio == s.uMin)
                  && (!tm.lidOpen && s.uMax < t.pid ==> tm'.ratio == s.uMax))
  {
    var drained := c.(control := Drained(c.control, t.patches));
    AugerStepRatio(s, ManualStep(s, drained, t.now), c.out.auger, t);
    SensorKeepsRatio(s, AugerStep(s, ManualStep(s, drained, t.now), c.out.auger, t), t);
  }

  // ----- The switches of the relay -----

  // A pass that may cycle the auger: nothing asks it to leave, and no manual change,
  // pending or still in force, holds the relay.
  predicate Cycles(s: Settings, c: Cycle, t: Tick) {
    Feeds(c.mode) && Proceeds(c, t) && Unmanned(s, c.control) && LeaveManual(s, t) && c.timers.override < t.now
  }

  // After the cycle events the relay is on if and only if it was off with its off
  // time over, or on with its on time not over; a switch restarts the time.
  lemma AugerFollowsCycle(s: Settings, c: Cycle, t: Tick)
    requires Cycles(s, c, t)
    ensures var elapsed, ratio, cycle := t.now - c.timers.toggle, Pass(s, c, t).timers.ratio, c.timers.cycleTime;
            && (!c.out.auger ==> (Between(s, c, t) <==> elapsed > Times(cycle, 1.0 - ratio)))
            && (c.out.auger ==> (Between(s, c, t) <==> elapsed <= Times(cycle, ratio)))
  {
    DrainedUnmanned(s, c.control, t.patches);
    var drained := c.(control := Drained(c.control, t.patches));
    assert ManualStep(s, drained, t.now) == drained;
    SensorKeepsRatio(s, AugerStep(s, drained, c.out.auger, t), t);
  }

  // Outside Smoke and Hold nothing after the cycle events moves the relay.
  lemma AugerStaysAfterEvents(s: Settings, c: Cycle, t: Tick)
    requires !Cooks(c.mode)
    ensures Pass(s, c, t).out.auger == Between(s, c, t)
  {
  }

  // ----- The cycle of a mode without a controller -----

  // The two times a cycle opens with: the auger's on time and its off time.
  function OnTime(mode: Mode, o: Opening): real {
    if mode == Prime then o.primeDuration as real else o.profile.onTime
  }

  function OffTime(mode: Mode, o: Opening): real { if mode == Prime then 1.0 else o.profile.offTime }

  lemma OpeningTimes(s: Settings, c: Control, mode: Mode, o: Opening)
    requires mode != Hold
    ensures var tm := Open(s, c, mode, o).timers;
            && Times(tm.cycleTime, tm.ratio) == OnTime(mode, o)
            && Times(tm.cycleTime, 1.0 - tm.ratio) == OffTime(mode, o)
            && tm.toggle == o.start && tm.override == 0.0
  {
    var on, off := OnTime(mode, o), OffTime(mode, o);
    OverTimes(on, on + off);
    assert Times(on + off, Over(on, on + off)) == on;
    Distribute(on + off, Over(on, on + off), 1.0 - Over(on, on + off));
    assert Times(on + off, 1.0) == on + off;
  }

  lemma PassKeepsCycle(s: Settings, c: Cycle, t: Tick)
    requires c.mode != Hold
    ensures var c' := Pass(s, c, t);
            c'.mode == c.mode && c'.timers.ratio == c.timers.ratio && c'.timers.cycleTime == c.timers.cycleTime
  {
    PassKeepsOpening(s, c, t);
    var drained := c.(control := Drained(c.control, t.patches));
    AugerStepRatio(s, ManualStep(s, drained, t.now), c.out.auger, t);
    SensorKeepsRatio(s, AugerStep(s, ManualStep(s, drained, t.now), c.out.auger, t), t);
  }

  lemma {:induction false} LoopKeepsCycle(s: Settings, c: Cycle, ticks: seq<Tick>)
    requires c.mode != Hold
    ensures var c' := Loop(s, c, ticks);
            c'.mode == c.mode && c'.timers.ratio == c.timers.ratio && c'.timers.cycleTime == c.timers.cycleTime
    decreases |ticks|
  {
    if c.Running() && ticks != [] {
      PassKeepsCycle(s, c, ticks[0]);
      LoopKeepsCycle(s, Pass(s, c, ticks[0]), ticks[1..]);
    }
  }

  // At every pass of a start-up, a Smoke cycle or a prime the relay goes on exactly
  // when the off time it opened with is over, and off exactly when the on time is.
  lemma FixedCycle(s: Settings, control: Control, mode: Mode, o: Opening, ticks: seq<Tick>, t: Tick)
    requires mode != Hold && Cycles(s, Loop(s, Open(s, control, mode, o), ticks), t)
    ensures var c := Loop(s, Open(s, control, mode, o), ticks);
            var elapsed := t.now - c.timers.toggle;
            && (!c.out.auger ==> (Between(s, c, t) <==> elapsed > OffTime(mode, o)))
            && (c.out.auger ==> (Between(s, c, t) <==> elapsed <= OnTime(mode, o)))
  {
    var c := Loop(s, Open(s, control, mode, o), ticks);
    OpeningTimes(s, control, mode, o);
    LoopKeepsCycle(s, Open(s, control, mode, o), ticks);
    PassKeepsCycle(s, c, t);
    AugerFollowsCycle(s, c, t);
  }

  // ----- The least a Hold cycle feeds -----

  // The record and the reading that the lid detection sees.
  function Seen(c: Cycle, t: Tick): Control { Notified(Drained(c.control, t.patches), t.notices) }

  // The reading has fallen below the threshold after the target was reached.
  predicate LidDrops(s: Settings, c: Cycle, t: Tick) {
    && s.lidDetect && (c.timers.achieved || (c.mode == Hold && t.ptemp >= Seen(c, t).setpoint))
    && t.ptemp < Seen(c, t).setpoint * ((100.0 - s.lidThreshold) / 100.0)
  }

  predicate LidAlone(s: Settings, c: Cycle, t: Tick) { !LidDrops(s, c, t) && !Seen(c, t).lidToggle }

  lemma SettleLeavesAuger(s: Settings, c: Cycle, t: Tick)
    requires !c.control.lidToggle
    ensures var c' := SettleLid(s, c, t); c'.out.auger == c.out.auger && c'.timers.toggle == c.timers.toggle
  {
  }

  lemma SensorLeavesAuger(s: Settings, c: Cycle, t: Tick)
    requires var seen := Notified(c.control, t.notices);
             && !(s.lidDetect && (c.timers.achieved || (c.mode == Hold && t.ptemp >= seen.setpoint))
                  && t.ptemp < seen.setpoint * ((100.0 - s.lidThreshold) / 100.0))
             && !seen.lidToggle
    ensures var c' := SensorStep(s, c, t); c'.out.auger == c.out.auger && c'.timers.toggle == c.timers.toggle
  {
    var read := ReadStep(c, t);
    if Cooks(c.mode) {
      assert DetectLid(s, NoteTarget(read), t.now) == NoteTarget(read);
      SettleLeavesAuger(s, NoteTarget(read), t);
      EndKeepsTiming(s, FanStep(LidStep(s, read, t), t.fan), t.now);
    } else {
      EndKeepsTiming(s, read, t.now);
      EndKeepsTiming(s, Warmed(read), t.now);
    }
  }

  lemma LidAloneKeepsAuger(s: Settings, c: Cycle, t: Tick)
    requires Feeds(c.mode) && Unmanned(s, c.control) && LeaveManual(s, t) && LidAlone(s, c, t)
    ensures Pass(s, c, t).out.auger == Between(s, c, t)
    ensures Proceeds(c, t) ==>
              Pass(s, c, t).timers.toggle
              == AugerStep(s, c.(control := Drained(c.control, t.patches)), c.out.auger, t).timers.toggle
    ensures !Proceeds(c, t) ==> Pass(s, c, t).timers.toggle == c.timers.toggle
  {
    DrainedUnmanned(s, c.control, t.patches);
    var drained := c.(control := Drained(c.control, t.patches));
    if Proceeds(c, t) {
      assert ManualStep(s, drained, t.now) == drained;
      var augered := AugerStep(s, drained, c.out.auger, t);
      assert augered.control == drained.control && augered.timers.achieved == c.timers.achieved;
      SensorLeavesAuger(s, augered, t);
    }
  }

  // The shortest the auger stays on and the longest it stays off, with passes `gap` apart.
  function LeastOn(s: Settings): real { Times(s.holdCycle, s.uMin) }

  function MostOff(s: Settings, gap: real): real { Times(s.holdCycle, 1.0 - s.uMin) + gap }

  //   C uMin (T - A)  <=  (C (1 - uMin) + gap) A
  // for the auger on for A out of a time T.
  predicate Feeding(s: Settings, gap: real, T: real, A: real) { Times(LeastOn(s), T - A) <= Times(MostOff(s, gap), A) }

  // The bookkeeping of AugerDutyBound with the two states of the relay exchanged, and
  // one shortest on time in advance, because a cycle opens with the auger on.
  ghost predicate Generous(s: Settings, gap: real, w: Metered, start: real) {
    var spent := w.meter.last - w.cycle.timers.toggle;
    && Steady(s, w.cycle)
    && (w.cycle.Running() && !w.cycle.out.auger ==> spent <= Times(s.holdCycle, 1.0 - s.uMin))
    && Covered(MostOff(s, gap), LeastOn(s), !w.cycle.out.auger, spent, w.meter.on - LeastOn(s),
               w.meter.last - start - w.meter.on)
  }

  lemma LeastNonNegative(s: Settings, gap: real)
    requires Holds(s) && 0.0 <= gap
    ensures 0.0 <= LeastOn(s) && 0.0 <= MostOff(s, gap)
  {
    TimesMonotone(0.0, s.uMin, s.holdCycle);
    TimesMonotone(0.0, 1.0 - s.uMin, s.holdCycle);
    assert Times(0.0, s.holdCycle) == 0.0;
  }

  lemma Commuted(cycle: real, ratio: real)
    ensures Times(cycle, ratio) == Times(ratio, cycle) && Times(cycle, 1.0 - ratio) == Times(1.0 - ratio, cycle)
  {
  }

  // In Hold the relay goes off only after the shortest on time, and stays off at the
  // end of a pass only within the longest off time.
  lemma HoldAugerDual(s: Settings, c: Cycle, t: Tick)
    requires Holds(s) && Steady(s, c) && t.now > 0.0
    ensures var c', spent := AugerStep(s, c, c.out.auger, t), t.now - c.timers.toggle;
            && Steady(s, c')
            && (c.out.auger && !c'.out.auger ==> spent > LeastOn(s))
            && (!c.out.auger && !c'.out.auger ==> spent <= Times(s.holdCycle, 1.0 - s.uMin))
  {
    var tm := PidStep(s, c.mode, c.timers, t.now, t.pid);
    assert s.uMin <= tm.ratio <= s.uMax && tm.cycleTime == s.holdCycle && tm.toggle == c.timers.toggle;
    WholeCycle(s.holdCycle, tm.ratio);
    TimesMonotone(s.uMin, tm.ratio, s.holdCycle);
    TimesMonotone(1.0 - tm.ratio, 1.0 - s.uMin, s.holdCycle);
    Commuted(s.holdCycle, tm.ratio);
    Commuted(s.holdCycle, s.uMin);
  }

  // A pass without a lid event: the cycle events are all that moves the relay.
  lemma PassDual(s: Settings, c: Cycle, t: Tick) returns (between: Cycle, after: Cycle)
    requires Holds(s) && Steady(s, c) && t.now > 0.0
    requires Unmanned(s, c.control) && LeaveManual(s, t) && LidAlone(s, c, t)
    ensures after == Pass(s, c, t) && between.out.auger == Between(s, c, t) && Steady(s, after)
    ensures KeptOrToggled(c, between, t.now) && Unmanned(s, after.control)
    ensures after.out.auger == between.out.auger && after.timers.toggle == between.timers.toggle
    ensures var spent := t.now - c.timers.toggle;
            && (c.out.auger && !between.out.auger ==> spent > LeastOn(s))
            && (after.Running() && !c.out.auger && !between.out.auger ==> spent <= Times(s.holdCycle, 1.0 - s.uMin))
  {
    var b, a := PassShape(s, c, t);
    LidAloneKeepsAuger(s, c, t);
    DrainedUnmanned(s, c.control, t.patches);
    var drained := c.(control := Drained(c.control, t.patches));
    between, after := drained, a;
    if Proceeds(c, t) {
      between := AugerStep(s, drained, c.out.auger, t);
      AugerStepShape(s, drained, t);
      HoldAugerDual(s, drained, t);
      assert ManualStep(s, drained, t.now) == drained;
      SensorShape(s, between, t);
    }
  }

  lemma ObserveGenerous(s: Settings, gap: real, w: Metered, start: real, between: Cycle, after: Cycle, now: real)
    requires Holds(s) && 0.0 <= gap && w.cycle.Running() && Generous(s, gap, w, start)
    requires w.meter.last <= now <= w.meter.last + gap
    requires KeptOrToggled(w.cycle, between, now) && Steady(s, after)
    requires after.out.auger == between.out.auger && after.timers.toggle == between.timers.toggle
    requires w.cycle.out.auger && !between.out.auger ==> now - w.cycle.timers.toggle > LeastOn(s)
    requires after.Running() && !w.cycle.out.auger && !between.out.auger ==>
               now - w.cycle.timers.toggle <= Times(s.holdCycle, 1.0 - s.uMin)
    ensures Generous(s, gap,
      Metered(after, Observe(w.meter, now, w.cycle.out.auger, between.out.auger, after.out.auger)), start)
  {
    var off, on, c := MostOff(s, gap), LeastOn(s), w.cycle;
    LeastNonNegative(s, gap);
    var onTime := if c.out.auger then w.meter.on + (now - w.meter.last) else w.meter.on;
    TimePasses(off, on, !c.out.auger, w.meter.last - c.timers.toggle, w.meter.on - on,
               w.meter.last - start - w.meter.on, now - w.meter.last);
    if between.timers.toggle != c.timers.toggle || between.out.auger != c.out.auger {
      RelaySwitches(off, on, !c.out.auger, now - c.timers.toggle, onTime - on, now - start - onTime,
                    !between.out.auger);
    }
    TimesMonotone(0.0, 1.0 - s.uMin, s.holdCycle);
    Commuted(s.holdCycle, s.uMin);
    assert Times(0.0, s.holdCycle) == 0.0;
  }

  // No lid event happens in the whole loop.
  predicate LidLeftAlone(s: Settings, c: Cycle, ticks: seq<Tick>)
    decreases |ticks|
  {
    ticks == [] || !c.Running() || (LidAlone(s, c, ticks[0]) && LidLeftAlone(s, Pass(s, c, ticks[0]), ticks[1..]))
  }

  lemma {:induction false} LoopGenerous(s: Settings, gap: real, w: Metered, start: real, ticks: seq<Tick>)
    requires Holds(s) && 0.0 <= gap && Generous(s, gap, w, start)
    requires Paced(w.meter.last, gap, ticks) && Unmanned(s, w.cycle.control)
    requires LidLeftAlone(s, w.cycle, ticks) && forall i | 0 <= i < |ticks| :: LeaveManual(s, ticks[i])
    ensures Generous(s, gap, WatchLoop(s, w, ticks), start)
    decreases |ticks|
  {
    if w.cycle.Running() && ticks != [] {
      var t := ticks[0];
      var between, after := PassDual(s, w.cycle, t);
      ObserveGenerous(s, gap, w, start, between, after, t.now);
      LoopGenerous(s, gap, Watch(s, w, t), start, ticks[1..]);
    }
  }

  lemma OpeningGenerous(s: Settings, gap: real, w: Metered, start: real)
    requires Holds(s) && 0.0 <= gap && Steady(s, w.cycle)
    requires w.meter == NewMeter(start) && w.cycle.timers.toggle == start && w.cycle.out.auger
    ensures Generous(s, gap, w, start)
  {
    LeastNonNegative(s, gap);
    var off, on := MostOff(s, gap), LeastOn(s);
    assert Times(off, 0.0) == 0.0 && Times(on, 0.0) == 0.0;
    Distribute(off, on, -on);
    assert Times(off, 0.0 - on) + Times(off, on) == Times(off, 0.0);
  }

  lemma GenerousFeeds(s: Settings, gap: real, w: Metered, start: real)
    requires Holds(s) && 0.0 <= gap && Generous(s, gap, w, start)
    ensures Feeding(s, gap, w.meter.last - start, w.meter.on)
  {
    LeastNonNegative(s, gap);
    CoveredBounds(MostOff(s, gap), LeastOn(s), !w.cycle.out.auger, w.meter.last - w.cycle.timers.toggle,
                  w.meter.on - LeastOn(s), w.meter.last - start - w.meter.on);
  }

  // The dual of the duty bound: a paced Hold cycle without lid events or manual
  // changes feeds at least this much, whatever the controller answers.
  lemma LeastFeed(s: Settings, gap: real, c: Control, o: Opening, ticks: seq<Tick>)
    requires Holds(s) && 0.0 <= gap
    requires Paced(o.start, gap, ticks) && LidLeftAlone(s, Open(s, c, Hold, o), ticks)
    requires Unmanned(s, c) && forall i | 0 <= i < |ticks| :: LeaveManual(s, ticks[i])
    ensures var end := WatchLoop(s, Metered(Open(s, c, Hold, o), NewMeter(o.start)), ticks);
            Feeding(s, gap, end.meter.last - o.start, end.meter.on)
  {
    HoldOpens(s, c, o);
    var begin := Metered(Open(s, c, Hold, o), NewMeter(o.start));
    OpeningGenerous(s, gap, begin, o.start);
    LoopGenerous(s, gap, begin, o.start, ticks);
    GenerousFeeds(s, gap, WatchLoop(s, begin, ticks), o.start);
  }
}
