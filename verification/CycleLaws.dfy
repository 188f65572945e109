/** What a pass does about lid events, manual changes and the end of its cycle, and what one cycle hands to the next. */
module CycleLaws {
  import opened Wrappers
  import opened ControlRecord
  import opened WorkCycle
  import opened ControlLoop
  import opened CycleFacts
  import opened CycleLimits
  import opened AugerTime
  import opened CycleRelays
  import opened AugerCycling

  // ----- The parts of a pass -----

  function Manned(s: Settings, c: Cycle, t: Tick): Cycle {
    ManualStep(s, c.(control := Drained(c.control, t.patches)), t.now)
  }

  function Augered(s: Settings, c: Cycle, t: Tick): Cycle { AugerStep(s, Manned(s, c, t), c.out.auger, t) }

  // The record that the checks at the end of a pass see.
  lemma PassParts(s: Settings, c: Cycle, t: Tick)
    requires Proceeds(c, t)
    ensures Pass(s, c, t) == SensorStep(s, Augered(s, c, t), t)
    ensures SameCourse(c.(control := Drained(c.control, t.patches)), Augered(s, c, t))
    ensures Augered(s, c, t).control.lidToggle == Drained(c.control, t.patches).lidToggle
  {
    AugerStepCourse(s, c.(control := Drained(c.control, t.patches)), c.out.auger, t);
  }

  // The same record but for a manual change.
  ghost predicate Alike(c: Control, c': Control) {
    && c'.mode == c.mode && c'.updated == c.updated && c'.setpoint == c.setpoint && c'.safety == c.safety
    && c'.triggered == c.triggered && c'.pause == c.pause && c'.lidToggle == c.lidToggle
  }

  lemma NoticeIgnoresManual(c: Control, c': Control, n: Notice)
    requires Alike(c, c')
    ensures Alike(Notify(c, n), Notify(c', n))
  {
    match n
    case WantShutdown =>
    case WantKeepWarm(_) =>
    case WantReignite =>
    case _ =>
  }

  // Notifications act alike on such records.
  lemma {:induction false} NoticesIgnoreManual(c: Control, c': Control, notices: seq<Notice>)
    requires Alike(c, c')
    ensures Alike(Notified(c, notices), Notified(c', notices))
    decreases |notices|
  {
    if notices != [] {
      NoticeIgnoresManual(c, c', notices[0]);
      NoticesIgnoreManual(Notify(c, notices[0]), Notify(c', notices[0]), notices[1..]);
    }
  }

  lemma AugeredKeepsLid(s: Settings, c: Cycle, t: Tick)
    ensures var tm := Augered(s, c, t).timers;
            && tm.lidOpen == c.timers.lidOpen && tm.lidExpires == c.timers.lidExpires
            && tm.achieved == c.timers.achieved
  {
  }

  lemma AugeredReads(s: Settings, c: Cycle, t: Tick)
    requires Proceeds(c, t)
    ensures var read := ReadStep(Augered(s, c, t), t);
            && read.ptemp == t.ptemp && read.mode == c.mode && read.opening == c.opening && read.exit == c.exit
            && Alike(Seen(c, t), read.control)
            && read.out == Augered(s, c, t).out && read.timers == Augered(s, c, t).timers
            && read.timers.lidOpen == c.timers.lidOpen && read.timers.lidExpires == c.timers.lidExpires
            && read.timers.achieved == c.timers.achieved
  {
    PassParts(s, c, t);
    AugeredKeepsLid(s, c, t);
    NoticesIgnoreManual(Drained(c.control, t.patches), Augered(s, c, t).control, t.notices);
  }

  // ----- Lid events -----

  // The lid is taken for open: the auger and the fan are off, the auger's timing
  // starts again, and the pause is counted from this pass.
  predicate LidOpened(s: Settings, now: real, c: Cycle) {
    && c.timers.lidOpen && !c.out.auger && !c.out.fan
    && c.timers.toggle == now && c.timers.lidExpires == now + s.lidPause
  }

  // What a Hold pass does about the lid, from the open lid it found, the target reached
  // by now, a drop of the reading after it, the time, and a toggle asked for.
  ghost predicate FollowsLid(
    s: Settings, t: Tick, out: Outputs, tm: Timers, reached: bool, drops: bool, toggled: bool, after: Cycle)
  {
    var expired := t.later > tm.lidExpires;
    && (after.timers.achieved <==> !drops && reached)
    && (drops && !toggled ==> LidOpened(s, t.now, after))
    && (drops && toggled ==> !after.timers.lidOpen && !after.out.auger && (t.fan.None? ==> !after.out.fan))
    && (!drops && tm.lidOpen && !expired && !toggled ==>
          && after.timers.lidOpen && after.timers.lidExpires == tm.lidExpires
          && after.out.fan == out.fan && after.out.auger == out.auger && after.timers.toggle == tm.toggle)
    && (!drops && tm.lidOpen && expired && !toggled ==>
          && !after.timers.lidOpen && (t.fan.None? ==> after.out.fan)
          && after.out.auger == out.auger && after.timers.toggle == tm.toggle)
    && (!drops && (tm.lidOpen ==> expired) && toggled ==> LidOpened(s, t.now, after))
    && (!drops && tm.lidOpen && !expired && toggled ==>
          && !after.timers.lidOpen && (t.fan.None? ==> after.out.fan == out.fan)
          && after.out.auger == out.auger && after.timers.toggle == tm.toggle)
    && (!drops && !tm.lidOpen && !toggled ==>
          && !after.timers.lidOpen && (t.fan.None? ==> after.out.fan == out.fan)
          && after.out.auger == out.auger && after.timers.toggle == tm.toggle)
    && (!after.timers.lidOpen && t.fan.Some? ==> after.out.fan == t.fan.value)
    && !after.control.lidToggle
  }

  predicate Reached(c: Cycle) { c.timers.achieved || c.ptemp >= c.control.setpoint }

  predicate Drops(s: Settings, c: Cycle) {
    && s.lidDetect && Reached(c)
    && c.ptemp < c.control.setpoint * ((100.0 - s.lidThreshold) / 100.0)
  }

  lemma LidDetected(s: Settings, c: Cycle, now: real)
    requires c.mode == Hold
    ensures var after := DetectLid(s, NoteTarget(c), now);
            && after.mode == c.mode && after.control == c.control
            && if Drops(s, c) then LidOpened(s, now, after) && !after.timers.achieved
               else after == NoteTarget(c)
  {
  }

  lemma LidSettles(s: Settings, c: Cycle, t: Tick)
    requires c.mode == Hold
    ensures FollowsLid(s, t, c.out, c.timers, c.timers.achieved, false, c.control.lidToggle,
                       FanStep(SettleLid(s, c, t), t.fan))
    ensures SettleLid(s, c, t).timers.achieved == c.timers.achieved
  {
  }

  lemma LidFollowed(s: Settings, c: Cycle, t: Tick)
    requires c.mode == Hold && t.later <= t.now + s.lidPause
    ensures FollowsLid(s, t, c.out, c.timers, Reached(c), Drops(s, c), c.control.lidToggle,
                       FanStep(LidStep(s, c, t), t.fan))
  {
    var detected := DetectLid(s, NoteTarget(c), t.now);
    LidDetected(s, c, t.now);
    LidSettles(s, detected, t);
  }

  lemma CookFollowsLid(s: Settings, c: Cycle, t: Tick)
    requires c.mode == Hold && t.later <= t.now + s.lidPause && c.ptemp >= c.control.safety.startupTemp as real
    ensures FollowsLid(s, t, c.out, c.timers, Reached(c), Drops(s, c), c.control.lidToggle, CookStep(s, c, t))
  {
    LidFollowed(s, c, t);
    EndKeepsTiming(s, FanStep(LidStep(s, c, t), t.fan), t.now);
  }

  // A pass of Smoke or Hold ends in the checks of cooking, on what it read.
  lemma PassCooks(s: Settings, c: Cycle, t: Tick)
    requires Cooks(c.mode) && Proceeds(c, t)
    ensures Pass(s, c, t) == CookStep(s, ReadStep(Augered(s, c, t), t), t)
  {
    PassParts(s, c, t);
  }

  lemma DropsAsRead(s: Settings, c: Cycle, t: Tick)
    requires c.mode == Hold && Proceeds(c, t)
    ensures var read := ReadStep(Augered(s, c, t), t);
            && (Drops(s, read) <==> LidDrops(s, c, t))
            && (Reached(read) <==> c.timers.achieved || t.ptemp >= Seen(c, t).setpoint)
            && read.control.lidToggle == Seen(c, t).lidToggle
            && (FlamedOut(c, t) <==> read.ptemp < read.control.safety.startupTemp as real)
  {
    AugeredReads(s, c, t);
    NotifiedKeeps(Drained(c.control, t.patches), t.notices);
  }

  // The lid law of a Hold pass that sees no flame-out.
  lemma LidIsFollowed(s: Settings, c: Cycle, t: Tick)
    requires c.mode == Hold && Proceeds(c, t) && !FlamedOut(c, t) && t.later <= t.now + s.lidPause
    ensures var augered := Augered(s, c, t);
            var reached := c.timers.achieved || t.ptemp >= Seen(c, t).setpoint;
            FollowsLid(s, t, augered.out, augered.timers, reached, LidDrops(s, c, t), Seen(c, t).lidToggle,
                       Pass(s, c, t))
  {
    AugeredReads(s, c, t);
    PassCooks(s, c, t);
    DropsAsRead(s, c, t);
    CookFollowsLid(s, ReadStep(Augered(s, c, t), t), t);
  }

  lemma SmokeCooks(s: Settings, c: Cycle, t: Tick)
    requires c.mode == Smoke && !c.timers.achieved && c.ptemp >= c.control.safety.startupTemp as real
    ensures CookStep(s, c, t) == EndStep(s, FanStep(c, t.fan), t.now)
    ensures CookStep(s, c, t).timers == c.timers && CookStep(s, c, t).out == FanStep(c, t.fan).out
    ensures CookStep(s, c, t).control.lidToggle == c.control.lidToggle
  {
    assert LidStep(s, c, t) == c;
    EndKeepsTiming(s, FanStep(c, t.fan), t.now);
  }

  // A Smoke pass knows no lid: a toggle stays asked for, and only the fan control moves
  // the fan.
  lemma SmokeKnowsNoLid(s: Settings, c: Cycle, t: Tick)
    requires c.mode == Smoke && !c.timers.achieved && !c.timers.lidOpen && Proceeds(c, t) && !FlamedOut(c, t)
    ensures var after, augered := Pass(s, c, t), Augered(s, c, t);
            && !after.timers.achieved && !after.timers.lidOpen && after.timers.toggle == augered.timers.toggle
            && after.control.lidToggle == Seen(c, t).lidToggle && after.out.auger == augered.out.auger
            && after.out.fan == if t.fan.Some? then t.fan.value else augered.out.fan
  {
    AugeredReads(s, c, t);
    PassCooks(s, c, t);
    NotifiedKeeps(Drained(c.control, t.patches), t.notices);
    SmokeCooks(s, ReadStep(Augered(s, c, t), t), t);
  }

  // While the lid counts as open the fan stays off.
  ghost predicate LidQuiet(s: Settings, c: Cycle) {
    c.mode == Hold && Unmanned(s, c.control) && (c.timers.lidOpen ==> !c.out.fan)
  }

  lemma DetectQuiet(s: Settings, c: Cycle, now: real)
    requires LidQuiet(s, c)
    ensures LidQuiet(s, DetectLid(s, NoteTarget(c), now))
  {
  }

  lemma SettleQuiet(s: Settings, c: Cycle, t: Tick)
    requires LidQuiet(s, c)
    ensures LidQuiet(s, SettleLid(s, c, t))
  {
  }

  lemma FlameOutStopsHere(s: Settings, c: Cycle, t: Tick)
    requires c.ptemp < c.control.safety.startupTemp as real
    ensures CookStep(s, c, t).out == c.out && CookStep(s, c, t).timers == c.timers
  {
  }

  lemma FanQuiet(s: Settings, c: Cycle, on: Option<bool>)
    requires LidQuiet(s, c)
    ensures LidQuiet(s, FanStep(c, on))
  {
  }

  lemma CookQuiet(s: Settings, c: Cycle, t: Tick)
    requires LidQuiet(s, c)
    ensures LidQuiet(s, CookStep(s, c, t))
  {
    CookStepShape(s, c, t);
    if c.ptemp < c.control.safety.startupTemp as real {
      FlameOutStopsHere(s, c, t);
    } else {
      DetectQuiet(s, c, t.now);
      SettleQuiet(s, DetectLid(s, NoteTarget(c), t.now), t);
      FanQuiet(s, LidStep(s, c, t), t.fan);
      EndKeepsTiming(s, FanStep(LidStep(s, c, t), t.fan), t.now);
    }
  }

  lemma PassQuiet(s: Settings, c: Cycle, t: Tick)
    requires LidQuiet(s, c) && LeaveManual(s, t)
    ensures LidQuiet(s, Pass(s, c, t))
  {
    DrainedUnmanned(s, c.control, t.patches);
    if Proceeds(c, t) {
      PassCooks(s, c, t);
      AugeredReads(s, c, t);
      NotifiedKeeps(Augered(s, c, t).control, t.notices);
      CookQuiet(s, ReadStep(Augered(s, c, t), t), t);
    }
  }

  lemma {:induction false} LoopQuiet(s: Settings, c: Cycle, ticks: seq<Tick>)
    requires LidQuiet(s, c) && forall i | 0 <= i < |ticks| :: LeaveManual(s, ticks[i])
    ensures LidQuiet(s, Loop(s, c, ticks))
    decreases |ticks|
  {
    if c.Running() && ticks != [] {
      PassQuiet(s, c, ticks[0]);
      LoopQuiet(s, Pass(s, c, ticks[0]), ticks[1..]);
    }
  }

  // At every moment of every Hold cycle without manual changes.
  lemma FanIsOffUnderOpenLid(s: Settings, c: Control, o: Opening, ticks: seq<Tick>)
    requires Unmanned(s, c) && forall i | 0 <= i < |ticks| :: LeaveManual(s, ticks[i])
    ensures var end := Loop(s, Open(s, c, Hold, o), ticks); end.timers.lidOpen ==> !end.out.fan
  {
    LoopQuiet(s, Open(s, c, Hold, o), ticks);
  }

  // ----- Manual changes -----

  function RelayOf(o: Outputs, d: Device): bool {
    match d
    case PowerRelay => o.power
    case IgniterRelay => o.igniter
    case FanRelay => o.fan
    case AugerRelay => o.auger
  }

  // The manual change a pass carries out, if any.
  function Change(s: Settings, c: Cycle, t: Tick): Option<Override> {
    if c.mode == Manual || s.allowManual then Drained(c.control, t.patches).manual else None
  }

  // The relay as the user wants it, or as it was.
  function Wanted(m: Option<Override>, o: Outputs, d: Device): bool {
    if m.Some? && m.value.device == d then m.value.on else RelayOf(o, d)
  }

  lemma MannedMoves(s: Settings, c: Cycle, t: Tick)
    ensures forall d :: RelayOf(Manned(s, c, t).out, d) == Wanted(Change(s, c, t), c.out, d)
    ensures Manned(s, c, t).mode == c.mode
  {
  }

  lemma AugeredMoves(s: Settings, c: Cycle, t: Tick)
    ensures var out := Augered(s, c, t).out;
            forall d :: d != AugerRelay || !Feeds(c.mode) ==> RelayOf(out, d) == Wanted(Change(s, c, t), c.out, d)
  {
    MannedMoves(s, c, t);
  }

  lemma SensorKeepsAuger(s: Settings, c: Cycle, t: Tick)
    ensures !Cooks(c.mode) ==> SensorStep(s, c, t).out == c.out
  {
    EndKeepsTiming(s, ReadStep(c, t), t.now);
    EndKeepsTiming(s, Warmed(ReadStep(c, t)), t.now);
  }

  // A pass that proceeds sets the relay a manual change names and no other, and
  // clears the change; only the modes that move a relay themselves may move it on.
  lemma ManualChangeIsMade(s: Settings, c: Cycle, t: Tick, d: Device)
    requires Proceeds(c, t)
    requires (d == AugerRelay ==> !Feeds(c.mode)) && (d == FanRelay ==> !Cooks(c.mode))
    ensures RelayOf(Pass(s, c, t).out, d) == Wanted(Change(s, c, t), c.out, d)
    ensures Change(s, c, t).Some? ==> Pass(s, c, t).control.manual.None?
    ensures Change(s, c, t).None? ==> Pass(s, c, t).control.manual == Drained(c.control, t.patches).manual
  {
    PassParts(s, c, t);
    AugeredMoves(s, c, t);
    var augered := Augered(s, c, t);
    SensorStepBounded(s, augered, t);
    SensorShape(s, augered, t);
    SensorKeepsAuger(s, augered, t);
  }

  lemma AugeredHolds(s: Settings, c: Cycle, t: Tick)
    requires Proceeds(c, t) && Feeds(c.mode) && 0.0 <= s.overrideTime
    ensures var m, after := Change(s, c, t), Augered(s, c, t);
            if m.Some? && m.value.device == AugerRelay then
              after.out.auger == m.value.on && after.timers.override == t.now + s.overrideTime
            else if t.now <= c.timers.override then
              after.out.auger == c.out.auger && after.timers.override == c.timers.override
            else after.timers.override == 0.0
  {
  }

  // In a feeding mode the auger stays as the user set it until the override time is
  // over, and then follows its cycle again.
  lemma OverrideHoldsAuger(s: Settings, c: Cycle, t: Tick)
    requires Proceeds(c, t) && Feeds(c.mode) && 0.0 <= s.overrideTime
    ensures var m, after := Change(s, c, t), Pass(s, c, t);
            if m.Some? && m.value.device == AugerRelay then
              Between(s, c, t) == m.value.on && after.timers.override == t.now + s.overrideTime
            else if t.now <= c.timers.override then
              Between(s, c, t) == c.out.auger && after.timers.override == c.timers.override
            else after.timers.override == 0.0
  {
    PassParts(s, c, t);
    AugeredHolds(s, c, t);
    SensorShape(s, Augered(s, c, t), t);
  }

  // ----- The end of a cycle -----

  // The time the mode allows has gone by.
  predicate Overran(s: Settings, c: Cycle, t: Tick) {
    match c.mode
    case Startup => t.now > c.opening.start + c.opening.profile.timer
    case Reignite => t.now > c.opening.start + c.opening.profile.timer
    case Shutdown => t.now > c.opening.start + s.shutdownTime
    case Prime => t.now > c.opening.start + c.opening.primeDuration as real
    case _ => false
  }

  // A start-up from below its exit temperature has reached it. An exit temperature
  // of zero is none.
  predicate CameUp(c: Cycle, t: Tick) {
    && c.mode in {Startup, Reignite} && c.opening.profile.exitTemp != 0.0
    && c.opening.ptemp < c.opening.profile.exitTemp <= t.ptemp
  }

  // The recipe's step is over and need not wait for the user.
  predicate StepOver(c: Cycle, t: Tick) {
    Seen(c, t).mode == Recipe && Seen(c, t).triggered && !Seen(c, t).pause
  }

  // Every way a pass ends.
  ghost predicate EndsAs(s: Settings, c: Cycle, t: Tick, after: Cycle) {
    var drained := Drained(c.control, t.patches);
    && (after.exit.Requested? <==> drained.updated)
    && (after.exit.SwitchedOff? <==> !drained.updated && t.switchOff)
    && (after.exit.Finished? <==>
          && Proceeds(c, t) && !FlamedOut(c, t)
          && (Overran(s, c, t) || CameUp(c, t) || (t.ptemp <= s.maxTemp && StepOver(c, t))))
    && (after.exit.Failed? <==>
          && Proceeds(c, t)
          && if FlamedOut(c, t) then drained.safety.retries == 0
             else t.ptemp > s.maxTemp && !Overran(s, c, t) && !CameUp(c, t))
    && (after.exit.Flamed? <==> Proceeds(c, t) && FlamedOut(c, t) && drained.safety.retries != 0)
    && !after.exit.NoController?
  }

  lemma EndDecides(s: Settings, c: Cycle, now: real)
    requires c.Running()
    ensures var after, done := EndStep(s, c, now), TimeUp(s, c, now) || HotEnough(c);
            var over := c.control.mode == Recipe && c.control.triggered && !c.control.pause;
            && (after.exit.Finished? <==> done || (c.ptemp <= s.maxTemp && over))
            && (after.exit.Failed? <==> !done && c.ptemp > s.maxTemp)
            && (after.exit.Going? <==> !done && c.ptemp <= s.maxTemp && !over)
  {
  }

  lemma EndsInTime(s: Settings, c: Cycle, t: Tick)
    ensures TimeUp(s, c, t.now) <==> Overran(s, c, t)
    ensures c.ptemp == t.ptemp ==> (HotEnough(c) <==> CameUp(c, t))
  {
  }

  // What the checks of the end see of the pass.
  ghost predicate SeenAtEnd(c: Cycle, t: Tick, at: Cycle) {
    && at.Running() && at.mode == c.mode && at.opening == c.opening && at.ptemp == t.ptemp
    && at.control.mode == Seen(c, t).mode && at.control.triggered == Seen(c, t).triggered
    && at.control.pause == Seen(c, t).pause
  }

  lemma EndsAsSeen(s: Settings, c: Cycle, t: Tick, at: Cycle)
    requires Proceeds(c, t) && !FlamedOut(c, t) && SeenAtEnd(c, t, at)
    ensures EndsAs(s, c, t, EndStep(s, at, t.now))
  {
    EndDecides(s, at, t.now);
    EndsInTime(s, at, t);
    assert Overran(s, at, t) == Overran(s, c, t) && CameUp(at, t) == CameUp(c, t);
  }

  lemma CookEndsAs(s: Settings, c: Cycle, t: Tick, read: Cycle)
    requires Proceeds(c, t) && !FlamedOut(c, t) && SeenAtEnd(c, t, read) && Cooks(c.mode)
    requires read.ptemp >= read.control.safety.startupTemp as real
    ensures EndsAs(s, c, t, CookStep(s, read, t))
  {
    LidStepCourse(s, read, t);
    var lid := LidStep(s, read, t);
    assert SeenAtEnd(c, t, lid) && SeenAtEnd(c, t, FanStep(lid, t.fan));
    EndsAsSeen(s, c, t, FanStep(lid, t.fan));
  }

  // A running pass ends its cycle in exactly these cases: the record holds a request
  // once the queue is drained, the switch is off, the flame is out, the mode's time
  // is up, its exit temperature reached or its recipe step over, or it is too hot.
  lemma PassEndsAs(s: Settings, c: Cycle, t: Tick)
    requires c.Running()
    ensures EndsAs(s, c, t, Pass(s, c, t))
  {
    if Proceeds(c, t) {
      PassParts(s, c, t);
      AugeredReads(s, c, t);
      NotifiedKeeps(Drained(c.control, t.patches), t.notices);
      var read := ReadStep(Augered(s, c, t), t);
      if FlamedOut(c, t) {
        PassCooks(s, c, t);
      } else if Cooks(c.mode) {
        PassCooks(s, c, t);
        CookEndsAs(s, c, t, read);
      } else {
        EndsAsSeen(s, c, t, read);
        EndsAsSeen(s, c, t, Warmed(read));
      }
    }
  }

  // The switch turned off in a cycle asks for a stop.
  lemma SwitchAsksForStop(s: Settings, c: Cycle, t: Tick)
    requires c.Running() && t.switchOff && !Drained(c.control, t.patches).updated
    ensures var after := Pass(s, c, t);
            && after.control.mode == Stop && after.control.updated && after.control.status == Active
            && after.out == c.out && !after.Running()
  {
  }

  // ----- Openings and hand-overs -----

  predicate Cold(c: Control) { c.safety.afterStartTemp < c.safety.startupTemp as real }

  // A cycle opens running, unless its mode cooks and the last start-up ended colder
  // than its start-up temperature, or it needs a controller that does not load.
  lemma OpensAs(s: Settings, c: Control, mode: Mode, o: Opening)
    ensures var begin := Open(s, c, mode, o);
            && (begin.exit.Flamed? <==> mode in {Smoke, Hold} && Cold(c) && c.safety.retries != 0)
            && (begin.exit.Failed? <==> mode in {Smoke, Hold} && Cold(c) && c.safety.retries == 0)
            && (begin.exit.NoController? <==> mode == Hold && !Cold(c) && !o.controllerLoads)
            && (begin.Running() || !begin.exit.Going?)
            && !begin.exit.Requested? && !begin.exit.SwitchedOff? && !begin.exit.Finished?
            && (begin.out.auger <==> mode in {Startup, Reignite, Smoke, Hold, Prime})
            && (begin.out.fan <==> mode in {Startup, Reignite, Smoke, Hold, Shutdown})
            && !begin.timers.lidOpen && !begin.timers.achieved && begin.timers.pidStart == o.start
            && (mode == Hold ==> begin.timers.cycleTime == s.holdCycle && begin.timers.ratio == s.uMin)
  {
  }

  predicate LeavesSafety(patches: seq<Patch>) {
    forall i | 0 <= i < |patches| ::
      patches[i].startupTemp.None? && patches[i].afterStartTemp.None? && patches[i].retries.None?
  }

  lemma {:induction false} DrainedSafety(c: Control, patches: seq<Patch>)
    requires LeavesSafety(patches)
    ensures Drained(c, patches).safety.(lastState := c.safety.lastState) == c.safety
    decreases |patches|
  {
    if patches != [] {
      DrainedSafety(ApplyPatch(c, patches[0]), patches[1..]);
    }
  }

  // A start-up records the start-up temperature it opened with, and what it last read.
  ghost predicate Recorded(s: Settings, c: Cycle, o: Opening) {
    && Starts(c.mode) && c.opening == o && c.control.safety.startupTemp == StartupTemp(s, o.ptemp)
    && c.control.safety.afterStartTemp == c.ptemp
  }

  lemma PassRecords(s: Settings, c: Cycle, t: Tick, o: Opening)
    requires Recorded(s, c, o) && LeavesSafety(t.patches)
    ensures Recorded(s, Pass(s, c, t), o)
  {
    PassKeepsOpening(s, c, t);
    DrainedSafety(c.control, t.patches);
    if Proceeds(c, t) {
      if c.Running() { PassEndsByReading(s, c, t); }
      PassParts(s, c, t);
      NotifiedKeeps(Augered(s, c, t).control, t.notices);
    }
  }

  lemma {:induction false} LoopRecords(s: Settings, c: Cycle, ticks: seq<Tick>, o: Opening)
    requires Recorded(s, c, o) && forall i | 0 <= i < |ticks| :: LeavesSafety(ticks[i].patches)
    ensures Recorded(s, Loop(s, c, ticks), o)
    decreases |ticks|
  {
    if c.Running() && ticks != [] {
      PassRecords(s, c, ticks[0], o);
      LoopRecords(s, Pass(s, c, ticks[0]), ticks[1..], o);
    }
  }

  lemma {:induction false} LoopKeepsMode(s: Settings, c: Cycle, ticks: seq<Tick>)
    ensures Loop(s, c, ticks).mode == c.mode && Loop(s, c, ticks).opening == c.opening
    decreases |ticks|
  {
    if c.Running() && ticks != [] {
      PassKeepsOpening(s, c, ticks[0]);
      LoopKeepsMode(s, Pass(s, c, ticks[0]), ticks[1..]);
    }
  }

  // A start-up that is over leaves its last reading in the record, whatever the queue
  // held meanwhile.
  lemma StartUpRecordsReading(s: Settings, p: Plant, mode: Mode, ci: CycleIn)
    requires mode in {Startup, Reignite} && RunCycle(s, p, mode, ci).1
    ensures RunCycle(s, p, mode, ci).0.control.safety.afterStartTemp
            == Loop(s, Open(s, p.control, mode, ci.opening), ci.ticks).ptemp
  {
    LoopKeepsMode(s, Open(s, p.control, mode, ci.opening), ci.ticks);
  }

  // A start-up hands over a grill that has power and air, and feeds and lights
  // nothing any more. The Smoke or Hold cycle that follows on its record opens as
  // flamed out or failed exactly when the last reading of the start-up was colder
  // than the start-up temperature of the first.
  lemma StartUpHandsOver(s: Settings, p: Plant, mode: Mode, ci: CycleIn, next: Mode, o: Opening, updated: bool)
    requires mode in {Startup, Reignite} && next in {Smoke, Hold} && Unmanned(s, p.control)
    requires forall i | 0 <= i < |ci.ticks| :: LeavesSafety(ci.ticks[i].patches) && LeaveManual(s, ci.ticks[i])
    requires RunCycle(s, p, mode, ci).1
    ensures var after, c := RunCycle(s, p, mode, ci).0, Loop(s, Open(s, p.control, mode, ci.opening), ci.ticks);
            && after.out == Outputs(true, true, false, false)
            && after.control.safety.startupTemp == StartupTemp(s, ci.opening.ptemp)
            && after.control.safety.afterStartTemp == c.ptemp
            && (Open(s, after.control.(mode := next, updated := updated), next, o).exit.Flamed?
                || Open(s, after.control.(mode := next, updated := updated), next, o).exit.Failed?
                <==> c.ptemp < StartupTemp(s, ci.opening.ptemp) as real)
  {
    var begin := Open(s, p.control, mode, ci.opening);
    LoopRecords(s, begin, ci.ticks, ci.opening);
    RelaysThroughCycle(s, p.control, mode, ci.opening, ci.ticks);
    LoopKeepsMode(s, begin, ci.ticks);
  }

  // A Smoke or Hold cycle hands over power too, and the fan as it left it.
  lemma CookHandsOver(s: Settings, p: Plant, mode: Mode, ci: CycleIn)
    requires mode in {Smoke, Hold} && Unmanned(s, p.control)
    requires forall i | 0 <= i < |ci.ticks| :: LeaveManual(s, ci.ticks[i])
    requires RunCycle(s, p, mode, ci).1
    ensures var last := Loop(s, Open(s, p.control, mode, ci.opening), ci.ticks);
            RunCycle(s, p, mode, ci).0.out == Outputs(true, last.out.fan, false, false)
  {
    RelaysThroughCycle(s, p.control, mode, ci.opening, ci.ticks);
    LoopKeepsMode(s, Open(s, p.control, mode, ci.opening), ci.ticks);
  }

  // The last reading of a cycle: the latest that proceeded, or the one it opened with.
  lemma LastReading(s: Settings, c: Cycle, t: Tick)
    requires c.Running()
    ensures Pass(s, c, t).ptemp == if Proceeds(c, t) then t.ptemp else c.ptemp
  {
    if Proceeds(c, t) { PassEndsByReading(s, c, t); }
  }
}
