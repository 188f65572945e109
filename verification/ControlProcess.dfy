/** The control process: relays, shared record and loop variables, changed step by step. */
module ControlProcess {
  import opened Wrappers
  import opened ControlRecord
  import opened WorkCycle
  import opened ControlLoop
  import Faults = FaultHandling
  import Idle = IdleSafety
  import Usage = PelletUsage

  lemma KeptByRuns(s: Settings, m: Main, hs: seq<HeadIn>)
    ensures var m' := Heads(s, m, hs);
            && (Faults.Orderly(m.plant) ==> Faults.Orderly(m'.plant))
            && (Idle.Cold(m.plant.out) && m'.alive ==> Idle.Cold(m'.plant.out))
            && forall base | Usage.Booked(s, base, m.plant) :: Usage.Booked(s, base, m'.plant)
  {
    if Faults.Orderly(m.plant) { Faults.FaultsAreNotLost(s, m, hs); }
    if Idle.Cold(m.plant.out) && Heads(s, m, hs).alive { Idle.IdleIsCold(s, m, hs); }
    forall base | Usage.Booked(s, base, m.plant) ensures Usage.Booked(s, base, Heads(s, m, hs).plant) {
      Usage.UsageIsBooked(s, base, m, hs);
    }
  }

  ghost predicate SameEnd(e: RecipeEnd, e': RecipeEnd) {
    e.plant == e'.plant && e.step == e'.step && e.done == e'.done
  }

  lemma RecipeContinues(s: Settings, p: Plant, steps: seq<RecipeStep>, n: nat, ins: seq<StepIn>, r: StepRun)
    requires n < |steps| && ins != [] && r == RunStep(s, p, steps[n], ins[0])
    ensures SameEnd(RecipeLoop(s, p, steps, n, ins),
                    match r.verdict
                    case Interrupted => RecipeEnd(r.plant, n, false, [])
                    case Cancelled => RecipeEnd(r.plant, n, true, [])
                    case Rerun => RecipeLoop(s, r.plant, steps, n, ins[1..])
                    case Next => RecipeLoop(s, r.plant, steps, n + 1, ins[1..]))
  {
  }

  lemma {:induction false} DeadStays(s: Settings, m: Main, hs: seq<HeadIn>)
    requires !m.alive
    ensures Heads(s, m, hs) == m
    decreases |hs|
  {
    if hs != [] { DeadStays(s, m, hs[1..]); }
  }

  class Process {
    const settings: Settings

    // The shared record, the relays and the pellets used.
    var control: Control
    var power: bool
    var fan: bool
    var auger: bool
    var igniter: bool
    var usage: real
    ghost var trace: seq<Event>

    // The variables of a work cycle.
    var mode: Mode
    var opening: Opening
    var toggle: real
    var cycleTime: real
    var ratio: real
    var pidStart: real
    var lidOpen: bool
    var lidExpires: real
    var achieved: bool
    var override: real
    var augerOnTime: real
    var ptemp: real
    var exit: Exit

    ghost function Relays(): Outputs
      reads this
    {
      Outputs(power, fan, auger, igniter)
    }

    ghost function Timing(): Timers
      reads this
    {
      Timers(toggle, cycleTime, ratio, pidStart, lidOpen, lidExpires, achieved, override, augerOnTime)
    }

    ghost function State(): Cycle
      reads this
    {
      Cycle(mode, opening, control, Relays(), Timing(), ptemp, exit)
    }

    ghost function Whole(): Plant
      reads this
    {
      Plant(control, Relays(), usage, trace)
    }

    constructor (s: Settings, c: Control)
      ensures settings == s && Whole() == Plant(c, ALL_OFF, 0.0, [])
    {
      settings, control := s, c;
      power, fan, auger, igniter := false, false, false, false;
      usage, trace := 0.0, [];
    }

    method DrainQueue(patches: seq<Patch>)
      modifies this`control
      ensures control == Drained(old(control), patches)
    {
      var queue := patches;
      while queue != []
        invariant Drained(control, queue) == Drained(old(control), patches)
      {
        control := ApplyPatch(control, queue[0]);
        queue := queue[1..];
      }
    }

    method CheckNotify(notices: seq<Notice>)
      modifies this`control
      ensures control == Notified(old(control), notices)
    {
      var left := notices;
      while left != []
        invariant Notified(control, left) == Notified(old(control), notices)
      {
        control := Notify(control, left[0]);
        left := left[1..];
      }
    }

    // ----- A work cycle -----

    method FlameGoesOut(m: Mode)
      modifies this`control, this`exit
      ensures control == FlameOut(old(control), m) && exit == FlameExit(old(control))
    {
      if control.safety.retries == 0 {
        control := control.(mode := Error, updated := true);
        exit := Failed;
      } else {
        var retries := control.safety.retries - 1;
        control := control.(safety := control.safety.(retries := retries, lastState := m));
        control := control.(mode := Reignite, updated := true);
        exit := Flamed;
      }
    }

    method SetRelays(m: Mode)
      modifies this`power, this`fan, this`auger, this`igniter
      ensures Relays() == OpeningOutputs(settings, control, m)
    {
      igniter, auger := false, false;
      if m in {Startup, Reignite, Smoke, Hold, Shutdown} {
        fan, power := true, true;
      } else if m == Prime {
        fan, power := false, true;
      } else {
        fan, power := false, false;
      }
      if m in {Startup, Reignite} { igniter := true; }
      if m in {Startup, Reignite, Smoke, Hold, Prime} { auger := true; }
      if m == Prime && settings.primeIgnition && control.nextMode == Startup { igniter := true; }
    }

    method SetTimers(m: Mode, o: Opening)
      modifies this`toggle, this`cycleTime, this`ratio, this`pidStart, this`lidOpen, this`lidExpires, this`achieved,
               this`override, this`augerOnTime
      ensures Timing() == OpeningTimers(settings, m, o)
    {
      if m == Hold {
        cycleTime, ratio := settings.holdCycle, settings.uMin;
      } else {
        var onTime, offTime := o.profile.onTime, o.profile.offTime;
        if m == Prime { onTime, offTime := o.primeDuration as real, 1.0; }
        cycleTime := onTime + offTime;
        ratio := Over(onTime, cycleTime);
      }
      toggle, pidStart := o.start, o.start;
      lidOpen, lidExpires, achieved, override, augerOnTime := false, 0.0, false, 0.0, 0.0;
    }

    method CheckStart(m: Mode, o: Opening)
      modifies this`control, this`exit, this`ptemp
      ensures ptemp == o.ptemp && control == OpeningControl(settings, old(control), m, o.ptemp)
      ensures exit == OpeningExit(old(control), m, o)
    {
      ptemp, exit := o.ptemp, if m == Hold && !o.controllerLoads then NoController else Going;
      if m in {Startup, Reignite} {
        var least := Truncate(Max(ptemp * 0.9, settings.minStartupTemp));
        var startupTemp := Truncate(Min(least as real, settings.maxStartupTemp));
        control := control.(safety := control.safety.(startupTemp := startupTemp, afterStartTemp := ptemp));
      } else if m in {Smoke, Hold} && control.safety.afterStartTemp < control.safety.startupTemp as real {
        FlameGoesOut(m);
      }
    }

    method OpenCycle(m: Mode, o: Opening)
      modifies this`mode, this`opening, this`control, this`power, this`fan, this`auger, this`igniter, this`toggle,
               this`cycleTime, this`ratio, this`pidStart, this`lidOpen, this`lidExpires, this`achieved,
               this`override, this`augerOnTime, this`ptemp, this`exit
      ensures State() == Open(settings, old(control), m, o)
    {
      mode, opening := m, o;
      SetRelays(m);
      CheckStart(m, o);
      SetTimers(m, o);
    }

    method ChangeManually(now: real)
      modifies this`control, this`power, this`fan, this`auger, this`igniter, this`override
      ensures State() == ManualStep(settings, old(State()), now)
    {
      if (mode == Manual || settings.allowManual) && control.manual.Some? {
        var m := control.manual.value;
        match m.device {
          case FanRelay => fan := m.on;
          case AugerRelay =>
            auger := m.on;
            override := if mode == Manual then 0.0 else now + settings.overrideTime;
          case IgniterRelay => igniter := m.on;
          case PowerRelay => power := m.on;
        }
        control := control.(manual := None);
      }
    }

    method UpdateRatio(now: real, pid: real)
      modifies this`pidStart, this`ratio
      ensures Timing() == PidStep(settings, mode, old(Timing()), now, pid)
    {
      if mode == Hold && now - pidStart > cycleTime {
        pidStart := now;
        ratio := if lidOpen then settings.uMin else pid;
        if ratio < settings.uMin { ratio := settings.uMin; }
        if settings.uMax < ratio { ratio := settings.uMax; }
      }
    }

    // `was` is the auger relay as read before any manual change.
    method CycleAuger(was: bool, now: real)
      modifies this`auger, this`toggle, this`cycleTime, this`override, this`augerOnTime
      ensures (auger, Timing()) == ToggleStep(settings, mode, was, old(auger), old(Timing()), now)
    {
      if override < now {
        override := 0.0;
        if !was && now - toggle > Times(cycleTime, 1.0 - ratio) {
          auger := true;
          toggle := now;
          if mode == Hold {
            cycleTime := Times(settings.holdCycle, ratio) + Times(settings.holdCycle, 1.0 - ratio);
          }
        }
        if was && now - toggle > Times(cycleTime, ratio) {
          auger := false;
          augerOnTime := augerOnTime + (now - toggle);
          toggle := now;
        }
      }
    }

    method ControlAuger(was: bool, t: Tick)
      modifies this`auger, this`toggle, this`cycleTime, this`override, this`augerOnTime, this`pidStart, this`ratio
      ensures State() == AugerStep(settings, old(State()), was, t)
    {
      if mode in {Startup, Reignite, Smoke, Hold, Prime} {
        UpdateRatio(t.now, t.pid);
        CycleAuger(was, t.now);
      }
    }

    method LidOpens(now: real)
      modifies this`auger, this`fan, this`lidOpen, this`toggle, this`lidExpires
      ensures State() == LidEvent(settings, old(State()), now)
    {
      lidOpen := true;
      auger, fan := false, false;
      toggle, lidExpires := now, now + settings.lidPause;
    }

    method DetectOpening(now: real)
      modifies this`auger, this`fan, this`lidOpen, this`toggle, this`lidExpires, this`achieved
      ensures State() == DetectLid(settings, NoteTarget(old(State())), now)
    {
      if mode == Hold && ptemp >= control.setpoint { achieved := true; }
      if achieved && settings.lidDetect && ptemp < control.setpoint * ((100.0 - settings.lidThreshold) / 100.0) {
        LidOpens(now);
        achieved := false;
      }
    }

    method FollowToggle(now: real)
      modifies this`control, this`auger, this`fan, this`lidOpen, this`toggle, this`lidExpires
      ensures State() == ToggleLid(settings, old(State()), now)
    {
      if control.lidToggle {
        control := control.(lidToggle := false);
        if lidOpen { lidOpen := false; } else { LidOpens(now); }
      }
    }

    method WatchLid(t: Tick)
      modifies this`control, this`auger, this`fan, this`lidOpen, this`toggle, this`lidExpires, this`achieved
      ensures State() == LidStep(settings, old(State()), t)
    {
      DetectOpening(t.now);
      if mode == Hold {
        if lidOpen && t.later > lidExpires { lidOpen, fan := false, true; }
        FollowToggle(t.now);
      }
    }

    method CheckEnd(now: real)
      modifies this`control, this`exit
      ensures State() == EndStep(settings, old(State()), now)
    {
      if mode in {Startup, Reignite} {
        var exitTemp := if opening.ptemp >= opening.profile.exitTemp then 0.0 else opening.profile.exitTemp;
        if now - opening.start > opening.profile.timer || (exitTemp != 0.0 && ptemp >= exitTemp) {
          exit := Finished;
          return;
        }
      }
      if || (mode == Shutdown && now - opening.start > settings.shutdownTime)
         || (mode == Prime && now - opening.start > opening.primeDuration as real) {
        exit := Finished;
      } else if ptemp > settings.maxTemp {
        control := control.(mode := Error, updated := true);
        exit := Failed;
      } else if control.mode == Recipe && control.triggered && !control.pause {
        exit := Finished;
      }
    }

    method WatchCook(t: Tick)
      modifies this`control, this`auger, this`fan, this`lidOpen, this`toggle, this`lidExpires, this`achieved, this`exit
      ensures State() == CookStep(settings, old(State()), t)
    {
      if ptemp < control.safety.startupTemp as real {
        FlameGoesOut(mode);
        return;
      }
      WatchLid(t);
      if !lidOpen && t.fan.Some? { fan := t.fan.value; }
      CheckEnd(t.now);
    }

    method ReadSensors(t: Tick)
      modifies this`ptemp, this`control, this`auger, this`fan, this`lidOpen, this`toggle, this`lidExpires,
               this`achieved, this`exit
      ensures State() == SensorStep(settings, old(State()), t)
    {
      ptemp := t.ptemp;
      CheckNotify(t.notices);
      if mode in {Startup, Reignite} {
        control := control.(safety := control.safety.(afterStartTemp := ptemp));
      } else if mode in {Smoke, Hold} {
        WatchCook(t);
        return;
      }
      CheckEnd(t.now);
    }

    method RunPass(t: Tick)
      requires exit.Going?
      modifies this`control, this`power, this`fan, this`auger, this`igniter, this`toggle, this`cycleTime, this`ratio,
               this`pidStart, this`lidOpen, this`lidExpires, this`achieved, this`override, this`augerOnTime,
               this`ptemp, this`exit
      ensures State() == Pass(settings, old(State()), t)
    {
      DrainQueue(t.patches);
      if control.updated {
        exit := Requested;
      } else if t.switchOff {
        control := control.(updated := true, mode := Stop, status := Active);
        exit := SwitchedOff;
      } else {
        var was := auger;
        ChangeManually(t.now);
        ControlAuger(was, t);
        ReadSensors(t);
      }
    }

    method CloseCycle() returns (finished: bool)
      modifies this`control, this`auger, this`igniter, this`fan, this`power, this`usage, this`trace
      ensures (Whole(), finished) == Leave(settings, old(Whole()), old(State()))
    {
      if exit.Going? { return false; }
      auger, igniter := false, false;
      if mode in {Shutdown, Monitor, Manual, Prime} { fan, power := false, false; }
      if mode in {Startup, Reignite} {
        control := control.(safety := control.safety.(afterStartTemp := ptemp));
      }
      usage := usage + Times(augerOnTime, settings.augerRate);
      trace := trace + [Closed(augerOnTime)] + ExitEvents(exit);
      return true;
    }

    method RunLoop(ticks: seq<Tick>)
      modifies this`control, this`power, this`fan, this`auger, this`igniter, this`toggle, this`cycleTime, this`ratio,
               this`pidStart, this`lidOpen, this`lidExpires, this`achieved, this`override, this`augerOnTime,
               this`ptemp, this`exit
      ensures State() == Loop(settings, old(State()), ticks)
    {
      var i := 0;
      while exit.Going? && i < |ticks|
        invariant 0 <= i <= |ticks|
        invariant Loop(settings, State(), ticks[i..]) == Loop(settings, old(State()), ticks)
      {
        assert ticks[i..][1..] == ticks[i + 1..];
        RunPass(ticks[i]);
        i := i + 1;
      }
    }

    method OpenAndLoop(m: Mode, ci: CycleIn)
      modifies this`mode, this`opening, this`control, this`power, this`fan, this`auger, this`igniter, this`toggle,
               this`cycleTime, this`ratio, this`pidStart, this`lidOpen, this`lidExpires, this`achieved,
               this`override, this`augerOnTime, this`ptemp, this`exit
      ensures State() == Loop(settings, Open(settings, old(control), m, ci.opening), ci.ticks)
    {
      OpenCycle(m, ci.opening);
      RunLoop(ci.ticks);
    }

    // False when the ticks end before the cycle does.
    method WorkCycle(m: Mode, ci: CycleIn) returns (finished: bool)
      modifies this
      ensures (Whole(), finished) == RunCycle(settings, old(Whole()), m, ci)
    {
      trace := trace + [Began(m)];
      OpenAndLoop(m, ci);
      finished := CloseCycle();
    }

    // ----- The scheduler and the recipes -----

    // A write outside a cycle.
    method Write(c: Control)
      modifies this`control, this`trace
      ensures Whole() == Redirect(old(Whole()), c)
    {
      trace := if Faulted(control) && !Faulted(c) then trace + [Redirected] else trace;
      control := c;
    }

    // A drain outside a cycle.
    method Collect(patches: seq<Patch>)
      modifies this`control, this`trace
      ensures Whole() == DrainInto(old(Whole()), patches)
    {
      ghost var before := control;
      DrainQueue(patches);
      trace := if Faulted(before) && !Faulted(control) then trace + [Redirected] else trace;
    }

    method ScheduleNext(next: Mode, setpoint: real, patches: seq<Patch>)
      modifies this`control, this`trace
      ensures Whole() == NextMode(old(Whole()), next, setpoint, patches)
    {
      Collect(patches);
      if !control.updated {
        control := control.(mode := next, setpoint := if next == Hold then setpoint else 0.0, updated := true);
      }
    }

    method RunRecipeStep(step: RecipeStep, i: StepIn) returns (relit: bool, verdict: Verdict)
      modifies this
      ensures StepRun(Whole(), relit, verdict) == RunStep(settings, old(Whole()), step, i)
    {
      control := control.(triggered := false, pause := step.pause, setpoint := step.holdTemp, updated := false);
      var finished := WorkCycle(step.mode, i.cycle);
      if !finished { return false, Interrupted; }
      Collect(i.patches);
      if control.mode == Reignite && control.updated {
        control := control.(updated := false, mode := Recipe);
        finished := WorkCycle(Reignite, i.reignite);
        relit, verdict := true,
          if !finished then Interrupted else if control.updated && control.mode != Recipe then Cancelled else Rerun;
      } else {
        relit, verdict := false, if control.mode != Recipe && control.updated then Cancelled else Next;
      }
    }

    // One pass of the recipe loop; `go` unless it was the last.
    method FollowStep(steps: seq<RecipeStep>, n: nat, ins: seq<StepIn>) returns (n': nat, done: bool, go: bool)
      requires n < |steps| && ins != []
      modifies this
      ensures SameEnd(RecipeLoop(settings, old(Whole()), steps, n, ins),
                      if go then RecipeLoop(settings, Whole(), steps, n', ins[1..])
                      else RecipeEnd(Whole(), n', done, []))
    {
      ghost var before := Whole();
      var relit, verdict := RunRecipeStep(steps[n], ins[0]);
      RecipeContinues(settings, before, steps, n, ins, StepRun(Whole(), relit, verdict));
      n', done, go := if verdict == Next then n + 1 else n, verdict == Cancelled, verdict in {Rerun, Next};
    }

    method FollowRecipe(steps: seq<RecipeStep>, start: nat, ins: seq<StepIn>) returns (step: nat, done: bool)
      modifies this
      ensures SameEnd(RecipeLoop(settings, old(Whole()), steps, start, ins), RecipeEnd(Whole(), step, done, []))
    {
      step, done := start, false;
      var left, go := ins, true;
      while go && step < |steps| && left != []
        invariant SameEnd(RecipeLoop(settings, old(Whole()), steps, start, ins),
                          if go then RecipeLoop(settings, Whole(), steps, step, left)
                          else RecipeEnd(Whole(), step, done, []))
        decreases |left|
      {
        step, done, go := FollowStep(steps, step, left);
        left := left[1..];
      }
      if go { done := step >= |steps|; }
    }

    method RunRecipe(file: Option<seq<RecipeStep>>, ins: seq<StepIn>) returns (finished: bool)
      modifies this
      ensures (Whole(), finished) == RecipeMode(settings, old(Whole()), file, ins)
    {
      if file.None? { return true; }
      var n;
      n, finished := FollowRecipe(file.value, control.startStep, ins);
      if finished {
        control := control.(triggered := false, pause := false);
        if !control.updated || n == |file.value| { control := control.(updated := true, mode := Stop); }
      }
    }

    // ----- The main loop -----

    method StopEverything()
      requires control.mode in {Stop, Error}
      modifies this`control, this`auger, this`igniter, this`fan, this`power, this`trace
      ensures Whole() == HandleStop(settings, old(Whole()))
    {
      auger, igniter, fan := false, false, false;
      power := control.status == Monitoring && control.mode == Error;
      trace := trace + [if control.mode == Error then HandledError else HandledStop];
      if control.mode == Stop {
        control := DefaultControl(settings).(updated := false, nextMode := Stop);
      } else {
        control := DefaultControl(settings).(mode := Error, status := Inactive, updated := false, nextMode := Stop);
      }
    }

    // These return the copy of the record that the main loop is left with.
    method CycleAndSchedule(m: Mode, next: Mode, setpoint: real, ci: CycleIn, patches: seq<Patch>)
      returns (local: Control, alive: bool)
      modifies this
      ensures Main(Whole(), local, alive) == CycleThenNext(settings, old(Whole()), m, next, setpoint, ci, patches)
    {
      local := control;
      alive := WorkCycle(m, ci);
      if alive { ScheduleNext(next, setpoint, patches); }
    }

    method StartUp(h: HeadIn) returns (local: Control, alive: bool)
      modifies this
      ensures Main(Whole(), local, alive) == RunStartup(settings, old(Whole()), h)
    {
      if settings.primeOnStartup {
        control := control.(mode := Prime);
        alive := WorkCycle(Prime, h.first);
        if !alive || control.mode !in {Prime, Startup} { return control, alive; }
        control := control.(updated := false, mode := Startup);
      }
      control := control.(nextMode := settings.afterStartup);
      local, alive :=
        CycleAndSchedule(Startup, settings.afterStartup, settings.startSetpoint, h.second, h.nextPatches);
    }

    method RunMode(h: HeadIn) returns (local: Control, alive: bool)
      modifies this
      ensures Main(Whole(), local, alive) == Dispatch(settings, old(Whole()), h)
    {
      local, alive := control, true;
      match control.mode
      case Stop => StopEverything(); local := control;
      case Error => StopEverything(); local := control;
      case Prime =>
        local, alive := CycleAndSchedule(Prime, control.nextMode, settings.startSetpoint, h.first, h.nextPatches);
      case Startup => local, alive := StartUp(h);
      case Smoke => local, alive := CycleAndSchedule(Smoke, control.nextMode, 0.0, h.first, h.nextPatches);
      case Hold => local, alive := CycleAndSchedule(Hold, control.nextMode, 0.0, h.first, h.nextPatches);
      case Shutdown =>
        control := control.(nextMode := Stop);
        local, alive := CycleAndSchedule(Shutdown, Stop, 0.0, h.first, h.nextPatches);
      case Monitor =>
        control := control.(status := Monitoring);
        local := control;
        alive := WorkCycle(Monitor, h.first);
      case Manual => alive := WorkCycle(Manual, h.first);
      case Recipe => alive := RunRecipe(h.file, h.steps);
      case Reignite =>
        var next := control.safety.lastState;
        control := control.(nextMode := next);
        local, alive := CycleAndSchedule(Reignite, next, control.setpoint, h.first, h.nextPatches);
      case Unknown(_) =>
    }

    // The record at the head of the loop.
    method ReadRecord(local: Control, h: HeadIn)
      modifies this`control, this`trace
      ensures Whole() == HeadControl(Main(old(Whole()), local, true), h)
    {
      if h.switchOff { Write(local.(updated := true, mode := Stop)); }
      Collect(h.patches);
      ghost var drained := control;
      CheckNotify(h.notices);
      trace := if Faulted(drained) && !Faulted(control) then trace + [Redirected] else trace;
    }

    method AcceptRequest()
      modifies this`control, this`trace
      ensures Whole() == Accepted(old(Whole()))
    {
      trace := if Faulted(control) && control.unitsChange then trace + [Redirected] else trace;
      control := control.(updated := false);
      if control.unitsChange { control := control.(mode := Stop, unitsChange := false); }
      if control.status != Monitoring && control.mode != Error { control := control.(status := Active); }
    }

    method HeadPass(local: Control, h: HeadIn) returns (local': Control, alive: bool)
      modifies this
      ensures Main(Whole(), local', alive) == Head(settings, Main(old(Whole()), local, true), h)
    {
      ReadRecord(local, h);
      local', alive := control, true;
      if control.updated && !control.critical {
        AcceptRequest();
        local', alive := RunMode(h);
      }
    }

    // The main loop, for as long as its inputs last, and what its runs keep: no error
    // is lost, idle relays are off, and usage is booked.
    method MainLoop(hs: seq<HeadIn>) returns (local: Control, alive: bool)
      modifies this
      ensures Main(Whole(), local, alive) == Heads(settings, old(Main(Whole(), control, true)), hs)
      ensures old(Faults.Orderly(Whole())) ==> Faults.Orderly(Whole())
      ensures old(Idle.Cold(Relays())) && alive ==> Idle.Cold(Relays())
      ensures forall base | old(Usage.Booked(settings, base, Whole())) :: Usage.Booked(settings, base, Whole())
    {
      local, alive := control, true;
      var i := 0;
      while i < |hs| && alive
        invariant 0 <= i <= |hs|
        invariant Heads(settings, Main(Whole(), local, alive), hs[i..])
               == Heads(settings, old(Main(Whole(), control, true)), hs)
      {
        assert hs[i..][1..] == hs[i + 1..];
        local, alive := HeadPass(local, hs[i]);
        i := i + 1;
      }
      if !alive { DeadStays(settings, Main(Whole(), local, alive), hs[i..]); }
      KeptByRuns(settings, old(Main(Whole(), control, true)), hs);
    }
  }
}
