/** One work cycle of the control process, from its opening to its clean-up. */
module WorkCycle {
  import opened Wrappers
  import opened ControlRecord

  // ----- The state of a cycle -----

  // Auger timing of a cycle. `metric` is the auger-on time it will report.
  datatype Timers = Timers(
    toggle: real, cycleTime: real, ratio: real, pidStart: real, lidOpen: bool, lidExpires: real, achieved: bool,
    override: real, metric: real)

  // The auger times, duration and exit temperature a start-up uses: the plain
  // settings, or the smart-start profile selected for the first reading.
  datatype RawProfile = RawProfile(onTime: real, offTime: real, timer: real, exitTemp: real)

  type Profile = p: RawProfile | p.onTime + p.offTime > 0.0 witness RawProfile(15.0, 45.0, 240.0, 0.0)

  // What a cycle finds when it opens: the first pit reading, the clock after it,
  // whether the controller module loads, the start-up profile, and the priming time.
  datatype Opening = Opening(ptemp: real, start: real, controllerLoads: bool, profile: Profile, primeDuration: nat)

  // Why a cycle left its loop: a request found in the record, the switch, a
  // flame-out with a retry left, an error it raised, its time or temperature or
  // recipe trigger reached, or a controller that did not load.
  datatype Exit = Going | Requested | SwitchedOff | Flamed | Failed | Finished | NoController

  datatype Cycle = Cycle(
    mode: Mode, opening: Opening, control: Control, out: Outputs, timers: Timers, ptemp: real, exit: Exit) {
    predicate Running() { exit.Going? }
  }

  // One pass of the loop: the clock at its head and at its second reading, the
  // patches then in the queue, a switch just turned off, the pit reading, the
  // controller's answer if asked, what the notifications want, and what the fan
  // control (not modelled further) sets the fan to, if it moves it.
  datatype Tick = Tick(
    now: real, later: real, patches: seq<Patch>, switchOff: bool, ptemp: real, pid: real, notices: seq<Notice>,
    fan: Option<bool>)

  predicate Feeds(mode: Mode) { mode in {Startup, Reignite, Smoke, Hold, Prime} }

  predicate Starts(mode: Mode) { mode in {Startup, Reignite} }

  predicate Cooks(mode: Mode) { mode in {Smoke, Hold} }

  // ----- Opening -----

  function OpeningOutputs(s: Settings, c: Control, mode: Mode): Outputs {
    Outputs(
      mode in {Startup, Reignite, Smoke, Hold, Shutdown, Prime},
      mode in {Startup, Reignite, Smoke, Hold, Shutdown},
      Feeds(mode),
      Starts(mode) || (mode == Prime && s.primeIgnition && c.nextMode == Startup))
  }

  // The auger cycle in seconds and the part of it the auger is on for.
  function OpeningCycle(s: Settings, mode: Mode, o: Opening): (real, real)
  {
    if mode == Hold then (s.holdCycle, s.uMin)
    else
      var onTime, offTime := if mode == Prime then o.primeDuration as real else o.profile.onTime,
                             if mode == Prime then 1.0 else o.profile.offTime;
      (onTime + offTime, Over(onTime, onTime + offTime))
  }

  // A reignite is asked for while retries are left; without any it is an error.
  function FlameOut(c: Control, mode: Mode): Control {
    if c.safety.retries == 0 then c.(mode := Error, updated := true)
    else
      c.(mode := Reignite, updated := true,
         safety := c.safety.(retries := c.safety.retries - 1, lastState := mode))
  }

  function FlameExit(c: Control): Exit { if c.safety.retries == 0 then Failed else Flamed }

  function StartupTemp(s: Settings, ptemp: real): int {
    Truncate(Min(Truncate(Max(ptemp * 0.9, s.minStartupTemp)) as real, s.maxStartupTemp))
  }

  predicate ColdStart(c: Control, mode: Mode) {
    Cooks(mode) && c.safety.afterStartTemp < c.safety.startupTemp as real
  }

  function OpeningControl(s: Settings, c: Control, mode: Mode, ptemp: real): Control {
    if Starts(mode) then
      c.(safety := c.safety.(startupTemp := StartupTemp(s, ptemp), afterStartTemp := ptemp))
    else if ColdStart(c, mode) then FlameOut(c, mode)
    else c
  }

  function OpeningTimers(s: Settings, mode: Mode, o: Opening): Timers {
    var (cycleTime, ratio) := OpeningCycle(s, mode, o);
    Timers(o.start, cycleTime, ratio, o.start, false, 0.0, false, 0.0, 0.0)
  }

  function OpeningExit(c: Control, mode: Mode, o: Opening): Exit {
    if ColdStart(c, mode) then FlameExit(c) else if mode == Hold && !o.controllerLoads then NoController else Going
  }

  function Open(s: Settings, c: Control, mode: Mode, o: Opening): Cycle {
    Cycle(mode, o, OpeningControl(s, c, mode, o.ptemp), OpeningOutputs(s, c, mode), OpeningTimers(s, mode, o), o.ptemp,
          OpeningExit(c, mode, o))
  }

  // ----- One pass of the loop -----

  // A manual change in Manual mode, or in any mode that allows it.
  function ManualOutputs(o: Outputs, m: Override): Outputs {
    match m.device
    case PowerRelay => o.(power := m.on)
    case IgniterRelay => o.(igniter := m.on)
    case FanRelay => o.(fan := m.on)
    case AugerRelay => o.(auger := m.on)
  }

  function ManualStep(s: Settings, c: Cycle, now: real): Cycle {
    if c.control.manual.None? || !(c.mode == Manual || s.allowManual) then c
    else
      var m := c.control.manual.value;
      c.(control := c.control.(manual := None), out := ManualOutputs(c.out, m),
         timers := if m.device != AugerRelay then c.timers
                   else c.timers.(override := if c.mode == Manual then 0.0 else now + s.overrideTime))
  }

  // The controller's answer, between the least and the greatest ratio.
  function Clamp(s: Settings, ratio: real): real {
    Min(Max(ratio, s.uMin), s.uMax)
  }

  function PidStep(s: Settings, mode: Mode, tm: Timers, now: real, pid: real): Timers {
    if mode == Hold && now - tm.pidStart > tm.cycleTime then
      tm.(pidStart := now, ratio := Clamp(s, if tm.lidOpen then s.uMin else pid))
    else tm
  }

  // Toggles the auger once its time is up. `was` is its state at the head of the pass.
  function ToggleStep(s: Settings, mode: Mode, was: bool, auger: bool, tm: Timers, now: real): (bool, Timers) {
    if tm.override >= now then (auger, tm)
    else if !was && now - tm.toggle > Times(tm.cycleTime, 1.0 - tm.ratio) then
      (true, tm.(override := 0.0, toggle := now,
                 cycleTime := if mode == Hold then Times(s.holdCycle, tm.ratio) + Times(s.holdCycle, 1.0 - tm.ratio)
                              else tm.cycleTime))
    else if was && now - tm.toggle > Times(tm.cycleTime, tm.ratio) then
      (false, tm.(override := 0.0, metric := tm.metric + (now - tm.toggle), toggle := now))
    else (auger, tm.(override := 0.0))
  }

  function AugerStep(s: Settings, c: Cycle, was: bool, t: Tick): Cycle {
    if !Feeds(c.mode) then c
    else
      var tm := PidStep(s, c.mode, c.timers, t.now, t.pid);
      var (auger, tm') := ToggleStep(s, c.mode, was, c.out.auger, tm, t.now);
      c.(out := c.out.(auger := auger), timers := tm')
  }

  // A lid event stops the auger and the fan and restarts the auger's timing.
  function LidEvent(s: Settings, c: Cycle, now: real): Cycle {
    c.(out := c.out.(auger := false, fan := false),
       timers := c.timers.(lidOpen := true, toggle := now, lidExpires := now + s.lidPause))
  }

  function NoteTarget(c: Cycle): Cycle {
    if c.mode == Hold && c.ptemp >= c.control.setpoint then c.(timers := c.timers.(achieved := true)) else c
  }

  function DetectLid(s: Settings, c: Cycle, now: real): Cycle {
    if c.timers.achieved && s.lidDetect && c.ptemp < c.control.setpoint * ((100.0 - s.lidThreshold) / 100.0) then
      var paused := LidEvent(s, c, now);
      paused.(timers := paused.timers.(achieved := false))
    else c
  }

  function CloseLid(c: Cycle, later: real): Cycle {
    if c.timers.lidOpen && later > c.timers.lidExpires then
      c.(timers := c.timers.(lidOpen := false), out := c.out.(fan := true))
    else c
  }

  function ToggleLid(s: Settings, c: Cycle, now: real): Cycle {
    if !c.control.lidToggle then c
    else
      var c' := c.(control := c.control.(lidToggle := false));
      if c'.timers.lidOpen then c'.(timers := c'.timers.(lidOpen := false)) else LidEvent(s, c', now)
  }

  // Only Hold closes and toggles.
  function SettleLid(s: Settings, c: Cycle, t: Tick): Cycle {
    if c.mode != Hold then c else ToggleLid(s, CloseLid(c, t.later), t.now)
  }

  function LidStep(s: Settings, c: Cycle, t: Tick): Cycle {
    SettleLid(s, DetectLid(s, NoteTarget(c), t.now), t)
  }

  predicate TimeUp(s: Settings, c: Cycle, now: real) {
    var elapsed := now - c.opening.start;
    || (Starts(c.mode) && elapsed > c.opening.profile.timer)
    || (c.mode == Shutdown && elapsed > s.shutdownTime)
    || (c.mode == Prime && elapsed > c.opening.primeDuration as real)
  }

  // A grill that started hot has no exit temperature.
  predicate HotEnough(c: Cycle) {
    var exitTemp := if c.opening.ptemp >= c.opening.profile.exitTemp then 0.0 else c.opening.profile.exitTemp;
    Starts(c.mode) && exitTemp != 0.0 && c.ptemp >= exitTemp
  }

  // The checks at the end of a pass.
  function EndStep(s: Settings, c: Cycle, now: real): Cycle {
    if TimeUp(s, c, now) || HotEnough(c) then c.(exit := Finished)
    else if c.ptemp > s.maxTemp then c.(control := c.control.(mode := Error, updated := true), exit := Failed)
    else if c.control.mode == Recipe && c.control.triggered && !c.control.pause then c.(exit := Finished)
    else c
  }

  function ReadStep(c: Cycle, t: Tick): Cycle {
    c.(ptemp := t.ptemp, control := Notified(c.control, t.notices))
  }

  function Warmed(c: Cycle): Cycle {
    c.(control := c.control.(safety := c.control.safety.(afterStartTemp := c.ptemp)))
  }

  // While the lid is open the fan control leaves the fan alone.
  function FanStep(c: Cycle, on: Option<bool>): Cycle {
    if c.timers.lidOpen || on.None? then c else c.(out := c.out.(fan := on.value))
  }

  // Smoke and Hold: flame-out first, then the lid and the fan.
  function CookStep(s: Settings, c: Cycle, t: Tick): Cycle {
    if c.ptemp < c.control.safety.startupTemp as real then
      c.(control := FlameOut(c.control, c.mode), exit := FlameExit(c.control))
    else EndStep(s, FanStep(LidStep(s, c, t), t.fan), t.now)
  }

  // From the pit reading to the end of the pass.
  function SensorStep(s: Settings, c: Cycle, t: Tick): Cycle {
    var read := ReadStep(c, t);
    if Starts(c.mode) then EndStep(s, Warmed(read), t.now)
    else if Cooks(c.mode) then CookStep(s, read, t)
    else EndStep(s, read, t.now)
  }

  function Pass(s: Settings, c: Cycle, t: Tick): Cycle {
    var drained := c.(control := Drained(c.control, t.patches));
    if drained.control.updated then drained.(exit := Requested)
    else if t.switchOff then
      drained.(control := drained.control.(updated := true, mode := Stop, status := Active), exit := SwitchedOff)
    else
      SensorStep(s, AugerStep(s, ManualStep(s, drained, t.now), drained.out.auger, t), t)
  }

  function Loop(s: Settings, c: Cycle, ticks: seq<Tick>): Cycle
    decreases |ticks|, 1
  {
    if !c.Running() || ticks == [] then c else PassAndLoop(s, c, ticks)
  }

  function PassAndLoop(s: Settings, c: Cycle, ticks: seq<Tick>): Cycle
    requires ticks != []
    decreases |ticks|, 0
  {
    Loop(s, Pass(s, c, ticks[0]), ticks[1..])
  }

  // ----- Clean-up -----

  function ClosingOutputs(mode: Mode, o: Outputs): Outputs {
    var off := o.(auger := false, igniter := false);
    if mode in {Shutdown, Monitor, Manual, Prime} then off.(fan := false, power := false) else off
  }

  function ClosingControl(c: Cycle): Control {
    if Starts(c.mode) then c.control.(safety := c.control.safety.(afterStartTemp := c.ptemp)) else c.control
  }
}
