/** What one work cycle does to the control record and the outputs. */
module CycleFacts {
  import opened Wrappers
  import opened ControlRecord
  import opened WorkCycle
  import opened ControlLoop

  // ----- The record after the steps of a pass -----

  // The record but for the fields no safety property reads.
  ghost predicate SameOrders(a: Control, b: Control) {
    && a.mode == b.mode && a.updated == b.updated && a.safety.retries == b.safety.retries
    && a.critical == b.critical && a.unitsChange == b.unitsChange
  }

  // A step that leaves the course of the cycle alone: all of the record but the lid
  // toggle and a pending manual change, and no exit.
  ghost predicate SameCourse(c: Cycle, c': Cycle) {
    && c'.mode == c.mode && c'.opening == c.opening && c'.ptemp == c.ptemp && c'.exit == c.exit
    && c'.control.(manual := c.control.manual, lidToggle := c.control.lidToggle) == c.control
  }

  lemma DetectLidCourse(s: Settings, c: Cycle, now: real)
    ensures SameCourse(c, DetectLid(s, NoteTarget(c), now))
  {
  }

  lemma SettleLidCourse(s: Settings, c: Cycle, t: Tick)
    ensures SameCourse(c, SettleLid(s, c, t))
  {
  }

  lemma LidStepCourse(s: Settings, c: Cycle, t: Tick)
    ensures SameCourse(c, LidStep(s, c, t))
  {
    DetectLidCourse(s, c, t.now);
    SettleLidCourse(s, DetectLid(s, NoteTarget(c), t.now), t);
  }

  lemma AugerStepCourse(s: Settings, c: Cycle, was: bool, t: Tick)
    ensures SameCourse(c, AugerStep(s, ManualStep(s, c, t.now), was, t))
  {
  }

  // A cycle that raised an error or a reignite left the request in the record, and
  // retries are spent one per reignite, never below zero; the count holds only
  // where no patch touches it.
  ghost predicate Honest(c: Cycle, counted: bool, retries: int) {
    && (c.exit.Failed? ==> Faulted(c.control))
    && (c.exit.Flamed? ==> c.control.mode == Reignite && c.control.updated)
    && (c.exit.Flamed? ==> Cooks(c.mode))
    && (counted ==>
          && c.control.safety.retries == retries - (if c.exit.Flamed? then 1 else 0)
          && (retries >= 0 ==> c.control.safety.retries >= 0))
  }

  lemma EndStepHonest(s: Settings, c: Cycle, now: real, counted: bool, retries: int)
    requires c.Running() && Honest(c, counted, retries)
    ensures Honest(EndStep(s, c, now), counted, retries) && EndStep(s, c, now).mode == c.mode
  {
  }

  lemma CookStepHonest(s: Settings, c: Cycle, t: Tick, counted: bool, retries: int)
    requires c.Running() && Honest(c, counted, retries) && Cooks(c.mode)
    ensures Honest(CookStep(s, c, t), counted, retries) && CookStep(s, c, t).mode == c.mode
  {
    if c.ptemp >= c.control.safety.startupTemp as real {
      LidStepCourse(s, c, t);
      var fanned := FanStep(LidStep(s, c, t), t.fan);
      assert Honest(fanned, counted, retries);
      EndStepHonest(s, fanned, t.now, counted, retries);
    }
  }

  lemma SensorStepHonest(s: Settings, c: Cycle, t: Tick, counted: bool, retries: int)
    requires c.Running() && Honest(c, counted, retries)
    ensures Honest(SensorStep(s, c, t), counted, retries) && SensorStep(s, c, t).mode == c.mode
  {
    NotifiedKeeps(c.control, t.notices);
    var read := ReadStep(c, t);
    assert Honest(read, counted, retries) && Honest(Warmed(read), counted, retries);
    if Starts(c.mode) {
      EndStepHonest(s, Warmed(read), t.now, counted, retries);
    } else if Cooks(c.mode) {
      CookStepHonest(s, read, t, counted, retries);
    } else {
      EndStepHonest(s, read, t.now, counted, retries);
    }
  }

  predicate LeavesRetries(patches: seq<Patch>) {
    forall i | 0 <= i < |patches| :: patches[i].retries.None?
  }

  lemma {:induction false} DrainedRetries(c: Control, patches: seq<Patch>)
    requires LeavesRetries(patches)
    ensures Drained(c, patches).safety.retries == c.safety.retries
    decreases |patches|
  {
    if patches != [] {
      DrainedRetries(ApplyPatch(c, patches[0]), patches[1..]);
    }
  }

  lemma PassHonest(s: Settings, c: Cycle, t: Tick, counted: bool, retries: int)
    requires c.Running() && Honest(c, counted, retries) && (counted ==> LeavesRetries(t.patches))
    ensures Honest(Pass(s, c, t), counted, retries) && Pass(s, c, t).mode == c.mode
  {
    if counted { DrainedRetries(c.control, t.patches); }
    var drained := c.(control := Drained(c.control, t.patches));
    if !drained.control.updated && !t.switchOff {
      AugerStepCourse(s, drained, c.out.auger, t);
      var auger := AugerStep(s, ManualStep(s, drained, t.now), c.out.auger, t);
      SensorStepHonest(s, auger, t, counted, retries);
    }
  }

  lemma {:induction false} LoopHonest(s: Settings, c: Cycle, ticks: seq<Tick>, counted: bool, retries: int)
    requires Honest(c, counted, retries) && (counted ==> forall i | 0 <= i < |ticks| :: LeavesRetries(ticks[i].patches))
    ensures Honest(Loop(s, c, ticks), counted, retries) && Loop(s, c, ticks).mode == c.mode
    decreases |ticks|
  {
    if c.Running() && ticks != [] {
      PassHonest(s, c, ticks[0], counted, retries);
      LoopHonest(s, Pass(s, c, ticks[0]), ticks[1..], counted, retries);
    }
  }

  lemma OpenHonest(s: Settings, c: Control, mode: Mode, o: Opening, counted: bool)
    ensures Honest(Open(s, c, mode, o), counted, c.safety.retries) && Open(s, c, mode, o).mode == mode
  {
  }

  predicate CycleLeavesRetries(ci: CycleIn) {
    forall i | 0 <= i < |ci.ticks| :: LeavesRetries(ci.ticks[i].patches)
  }

  // A whole cycle, and what it puts on record.
  lemma RunCycleHonest(s: Settings, p: Plant, mode: Mode, ci: CycleIn, counted: bool) returns (c: Cycle)
    requires counted ==> CycleLeavesRetries(ci)
    ensures Honest(c, counted, p.control.safety.retries) && c.mode == mode
    ensures c == Loop(s, Open(s, p.control, mode, ci.opening), ci.ticks)
    ensures var (after, finished) := RunCycle(s, p, mode, ci);
            && SameOrders(after.control, c.control) && finished == !c.Running()
            && after.trace == p.trace + [Began(mode)]
                 + (if finished then [Closed(c.timers.metric)] + ExitEvents(c.exit) else [])
  {
    var begin := Open(s, p.control, mode, ci.opening);
    OpenHonest(s, p.control, mode, ci.opening, counted);
    LoopHonest(s, begin, ci.ticks, counted, p.control.safety.retries);
    c := Loop(s, begin, ci.ticks);
  }
}
