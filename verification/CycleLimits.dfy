/** The limits a work cycle stays within for as long as it runs. */
module CycleLimits {
  import opened Wrappers
  import opened ControlRecord
  import opened WorkCycle
  import opened CycleFacts

  // The pass gets past the drained queue and the switch.
  predicate Proceeds(c: Cycle, t: Tick) { !Drained(c.control, t.patches).updated && !t.switchOff }

  // Below the temperature at which Smoke and Hold see a flame-out.
  predicate FlamedOut(c: Cycle, t: Tick) {
    Cooks(c.mode) && t.ptemp < Drained(c.control, t.patches).safety.startupTemp as real
  }

  // The cycle has run its time or reached its exit temperature, with this reading.
  predicate Done(s: Settings, c: Cycle, t: Tick) { TimeUp(s, c, t.now) || HotEnough(c.(ptemp := t.ptemp)) }

  // The end of a pass decides on the reading and the time, the recipe trigger apart.
  ghost predicate Ends(s: Settings, c: Cycle, now: real, after: Cycle) {
    var done := TimeUp(s, c, now) || HotEnough(c);
    && (after.exit.Failed? <==> !done && c.ptemp > s.maxTemp)
    && (after.exit.Failed? ==> after.control.mode == Error && after.control.updated)
    && (after.exit.Going? ==> !done && c.ptemp <= s.maxTemp)
    && !after.exit.Flamed? && after.ptemp == c.ptemp
    && after.control.safety.startupTemp == c.control.safety.startupTemp
  }

  lemma EndStepEnds(s: Settings, c: Cycle, now: real)
    requires c.Running()
    ensures Ends(s, c, now, EndStep(s, c, now))
  {
  }

  // How a pass ends that proceeds, from its reading alone.
  ghost predicate EndsByReading(s: Settings, c: Cycle, t: Tick, after: Cycle) {
    var retries := Drained(c.control, t.patches).safety.retries;
    && (after.exit.Flamed? <==> FlamedOut(c, t) && retries != 0)
    && (after.exit.Failed? <==>
          (FlamedOut(c, t) && retries == 0) || (!FlamedOut(c, t) && !Done(s, c, t) && t.ptemp > s.maxTemp))
    && (after.exit.Failed? ==> after.control.mode == Error && after.control.updated)
    && (after.exit.Going? ==> !FlamedOut(c, t) && !Done(s, c, t) && t.ptemp <= s.maxTemp)
    && after.ptemp == t.ptemp
    && after.control.safety.startupTemp == Drained(c.control, t.patches).safety.startupTemp
  }

  lemma CookStepEnds(s: Settings, c: Cycle, t: Tick)
    requires c.Running()
    ensures var after, cold := CookStep(s, c, t), c.ptemp < c.control.safety.startupTemp as real;
            if cold then after.exit == FlameExit(c.control) && after.control == FlameOut(c.control, c.mode)
                         && after.ptemp == c.ptemp
            else Ends(s, c, t.now, after)
  {
    if c.ptemp >= c.control.safety.startupTemp as real {
      LidStepCourse(s, c, t);
      EndStepEnds(s, FanStep(LidStep(s, c, t), t.fan), t.now);
    }
  }

  // An over-temperature raises the error if and only if neither a flame-out nor the
  // cycle's own end comes first: a start-up that overshoots its exit temperature
  // ends as a success, whatever it reads.
  lemma PassEndsByReading(s: Settings, c: Cycle, t: Tick)
    requires c.Running() && Proceeds(c, t)
    ensures EndsByReading(s, c, t, Pass(s, c, t))
  {
    var drained := c.(control := Drained(c.control, t.patches));
    AugerStepCourse(s, drained, c.out.auger, t);
    var augered := AugerStep(s, ManualStep(s, drained, t.now), c.out.auger, t);
    NotifiedKeeps(augered.control, t.notices);
    var read := ReadStep(augered, t);
    if Starts(c.mode) {
      EndStepEnds(s, Warmed(read), t.now);
    } else if Cooks(c.mode) {
      CookStepEnds(s, read, t);
    } else {
      EndStepEnds(s, read, t.now);
    }
  }

  // An over-temperature without an error: the pass of a start-up that opened below
  // its exit temperature and reads above it.
  lemma HotStartupIsNoError(s: Settings, c: Cycle, t: Tick)
    requires c.Running() && Proceeds(c, t) && c.mode == Startup && c.opening.profile.exitTemp > 0.0
    requires c.opening.ptemp < c.opening.profile.exitTemp <= t.ptemp && t.ptemp > s.maxTemp
    ensures Pass(s, c, t).exit.Finished?
  {
    PassEndsByReading(s, c, t);
    AugerStepCourse(s, c.(control := Drained(c.control, t.patches)), c.out.auger, t);
  }

  lemma SensorStepKeepsOpening(s: Settings, c: Cycle, t: Tick)
    ensures SensorStep(s, c, t).mode == c.mode && SensorStep(s, c, t).opening == c.opening
  {
    LidStepCourse(s, ReadStep(c, t), t);
  }

  lemma PassKeepsOpening(s: Settings, c: Cycle, t: Tick)
    ensures Pass(s, c, t).mode == c.mode && Pass(s, c, t).opening == c.opening
  {
    var drained := c.(control := Drained(c.control, t.patches));
    AugerStepCourse(s, drained, c.out.auger, t);
    SensorStepKeepsOpening(s, AugerStep(s, ManualStep(s, drained, t.now), c.out.auger, t), t);
  }

  // A cycle that still runs after its latest pass read a temperature within the
  // limits: not above the maximum, in Smoke and Hold not below the start-up
  // temperature, and with its time not up.
  lemma {:induction false} RunningIsWithinLimits(s: Settings, c: Cycle, ticks: seq<Tick>)
    requires ticks != [] && Loop(s, c, ticks).Running()
    ensures var c', t := Loop(s, c, ticks), ticks[|ticks| - 1];
            && c'.ptemp == t.ptemp <= s.maxTemp && c'.mode == c.mode && c'.opening == c.opening
            && (Cooks(c.mode) ==> t.ptemp >= c'.control.safety.startupTemp as real)
            && !Done(s, c, t)
    decreases |ticks|
  {
    var next := Pass(s, c, ticks[0]);
    assert c.Running() && Loop(s, c, ticks) == PassAndLoop(s, c, ticks) == Loop(s, next, ticks[1..]);
    PassKeepsOpening(s, c, ticks[0]);
    if |ticks| == 1 {
      assert ticks[1..] == [];
      assert Loop(s, c, ticks) == Loop(s, next, []) == next;
      PassEndsByReading(s, c, ticks[0]);
    } else {
      assert ticks[1..][|ticks| - 2] == ticks[|ticks| - 1];
      RunningIsWithinLimits(s, next, ticks[1..]);
    }
  }

  lemma TruncateMonotone(x: real, y: real)
    ensures x <= y ==> Truncate(x) <= Truncate(y)
  {
  }

  // Whatever the reading and the limits, the start-up temperature lies between the
  // limits, cut to whole numbers, where these are in order; and it rises with the
  // reading. Within the limits it is nine tenths of the reading, cut likewise.
  lemma StartupTempInLimits(s: Settings, ptemp: real, higher: real)
    ensures Truncate(Min(Truncate(s.minStartupTemp) as real, s.maxStartupTemp)) <= StartupTemp(s, ptemp)
    ensures StartupTemp(s, ptemp) <= Truncate(s.maxStartupTemp)
    ensures ptemp <= higher ==> StartupTemp(s, ptemp) <= StartupTemp(s, higher)
    ensures 0.0 <= s.minStartupTemp <= ptemp * 0.9 <= s.maxStartupTemp ==>
              StartupTemp(s, ptemp) == Truncate(ptemp * 0.9)
  {
    TruncateMonotone(s.minStartupTemp, Max(ptemp * 0.9, s.minStartupTemp));
    TruncateMonotone(Max(ptemp * 0.9, s.minStartupTemp), Max(higher * 0.9, s.minStartupTemp));
    var raw, raw' := Truncate(Max(ptemp * 0.9, s.minStartupTemp)), Truncate(Max(higher * 0.9, s.minStartupTemp));
    TruncateMonotone(Min(Truncate(s.minStartupTemp) as real, s.maxStartupTemp), Min(raw as real, s.maxStartupTemp));
    TruncateMonotone(Min(raw as real, s.maxStartupTemp), s.maxStartupTemp);
    TruncateMonotone(Min(raw as real, s.maxStartupTemp), Min(raw' as real, s.maxStartupTemp));
  }
}
