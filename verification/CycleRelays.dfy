/** What the relays may do while a work cycle runs. */
module CycleRelays {
  import opened ControlRecord
  import opened WorkCycle
  import opened AugerTime

  // Power and igniter stay as they are, only a feeding mode may turn the auger on,
  // and only a cooking one moves the fan.
  ghost predicate Bounded(c: Cycle, c': Cycle) {
    && c'.mode == c.mode && c'.out.power == c.out.power && c'.out.igniter == c.out.igniter
    && (c'.out.auger ==> c.out.auger || Feeds(c.mode))
    && (!Cooks(c.mode) ==> c'.out.fan == c.out.fan)
  }

  lemma DetectLidBounded(s: Settings, c: Cycle, now: real)
    requires Cooks(c.mode)
    ensures Bounded(c, DetectLid(s, NoteTarget(c), now))
  {
  }

  lemma SettleLidBounded(s: Settings, c: Cycle, t: Tick)
    requires Cooks(c.mode)
    ensures Bounded(c, SettleLid(s, c, t))
  {
  }

  lemma EndStepBounded(s: Settings, c: Cycle, now: real)
    ensures EndStep(s, c, now).out == c.out && EndStep(s, c, now).mode == c.mode
  {
  }

  lemma CookStepBounded(s: Settings, c: Cycle, t: Tick)
    requires Cooks(c.mode)
    ensures Bounded(c, CookStep(s, c, t))
  {
    var detected := DetectLid(s, NoteTarget(c), t.now);
    DetectLidBounded(s, c, t.now);
    SettleLidBounded(s, detected, t);
    var fanned := FanStep(SettleLid(s, detected, t), t.fan);
    assert Bounded(c, fanned);
    EndStepBounded(s, fanned, t.now);
  }

  lemma SensorStepBounded(s: Settings, c: Cycle, t: Tick)
    ensures Bounded(c, SensorStep(s, c, t))
  {
    var read := ReadStep(c, t);
    assert read.out == c.out && read.mode == c.mode;
    if Starts(c.mode) {
      EndStepBounded(s, Warmed(read), t.now);
    } else if Cooks(c.mode) {
      CookStepBounded(s, read, t);
    } else {
      EndStepBounded(s, read, t.now);
    }
  }

  lemma AugerStepBounded(s: Settings, c: Cycle, t: Tick)
    ensures Bounded(c, AugerStep(s, c, c.out.auger, t)) && AugerStep(s, c, c.out.auger, t).control == c.control
  {
  }

  lemma PassBounded(s: Settings, c: Cycle, t: Tick)
    requires Unmanned(s, c.control) && LeaveManual(s, t) && c.mode != Manual
    ensures Bounded(c, Pass(s, c, t)) && Unmanned(s, Pass(s, c, t).control)
  {
    DrainedUnmanned(s, c.control, t.patches);
    var drained := c.(control := Drained(c.control, t.patches));
    if !drained.control.updated && !t.switchOff {
      assert ManualStep(s, drained, t.now) == drained;
      var augered := AugerStep(s, drained, c.out.auger, t);
      AugerStepBounded(s, drained, t);
      SensorStepBounded(s, augered, t);
      SensorShape(s, augered, t);
    }
  }

  lemma {:induction false} LoopBounded(s: Settings, c: Cycle, ticks: seq<Tick>)
    requires Unmanned(s, c.control) && c.mode != Manual && forall i | 0 <= i < |ticks| :: LeaveManual(s, ticks[i])
    ensures Bounded(c, Loop(s, c, ticks))
    decreases |ticks|
  {
    if c.Running() && ticks != [] {
      PassBounded(s, c, ticks[0]);
      LoopBounded(s, Pass(s, c, ticks[0]), ticks[1..]);
    }
  }

  lemma OpeningBounded(s: Settings, c: Control, mode: Mode, o: Opening)
    requires Unmanned(s, c)
    ensures Unmanned(s, Open(s, c, mode, o).control) && Open(s, c, mode, o).mode == mode
    ensures Open(s, c, mode, o).out == OpeningOutputs(s, c, mode)
  {
  }

  // At every moment of every cycle without manual changes: the auger runs only
  // under power and only in a mode that feeds, the igniter is on throughout a
  // start-up or reignite and in no other mode but a prime that asks for it, and
  // outside the modes that cook the fan stays as the cycle opened it.
  lemma RelaysThroughCycle(s: Settings, c: Control, mode: Mode, o: Opening, ticks: seq<Tick>)
    requires Unmanned(s, c) && mode != Manual && forall i | 0 <= i < |ticks| :: LeaveManual(s, ticks[i])
    ensures var out := Loop(s, Open(s, c, mode, o), ticks).out;
            && (out.auger ==> out.power && Feeds(mode))
            && (out.power <==> Feeds(mode) || mode == Shutdown)
            && (Starts(mode) ==> out.igniter)
            && (out.igniter ==> Starts(mode) || (mode == Prime && s.primeIgnition && c.nextMode == Startup))
            && (!Cooks(mode) ==> (out.fan <==> Starts(mode) || mode == Shutdown))
  {
    OpeningBounded(s, c, mode, o);
    LoopBounded(s, Open(s, c, mode, o), ticks);
  }
}
