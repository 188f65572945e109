/** The shared control record, the patches other processes queue for it, and the outputs. */
module ControlRecord {
  import opened Wrappers

  datatype Mode =
    | Stop | Error | Prime | Startup | Reignite | Smoke | Hold | Shutdown | Monitor | Manual | Recipe
    | Unknown(name: string)

  datatype Status = Blank | Active | Inactive | Monitoring | Other(text: string)

  datatype Safety = Safety(startupTemp: int, afterStartTemp: real, retries: int, lastState: Mode)

  datatype Device = PowerRelay | IgniterRelay | FanRelay | AugerRelay

  datatype Override = Override(device: Device, on: bool)

  // The fields of the record that the modes, the safety checks and the recipes use.
  datatype Control = Control(
    mode: Mode, updated: bool, nextMode: Mode, setpoint: real, status: Status, critical: bool, unitsChange: bool,
    safety: Safety, triggered: bool, pause: bool, startStep: nat, lidToggle: bool, manual: Option<Override>)

  datatype Outputs = Outputs(power: bool, fan: bool, auger: bool, igniter: bool)

  const ALL_OFF := Outputs(false, false, false, false)

  // A partial document: the fields it names, with their new values. It can clear a
  // pending manual change.
  datatype Patch = Patch(
    mode: Option<Mode>, updated: Option<bool>, nextMode: Option<Mode>, setpoint: Option<real>,
    critical: Option<bool>, unitsChange: Option<bool>, startupTemp: Option<int>, afterStartTemp: Option<real>,
    retries: Option<int>, lastState: Option<Mode>, triggered: Option<bool>, pause: Option<bool>,
    startStep: Option<nat>, lidToggle: Option<bool>, status: Option<Status>, manual: Option<Option<Override>>)

  // A patch that names nothing.
  const NO_PATCH :=
    Patch(None, None, None, None, None, None, None, None, None, None, None, None, None, None, None, None)

  function Or<T>(patch: Option<T>, current: T): T { if patch.Some? then patch.value else current }

  function ApplyPatch(c: Control, p: Patch): Control {
    Control(
      Or(p.mode, c.mode), Or(p.updated, c.updated), Or(p.nextMode, c.nextMode), Or(p.setpoint, c.setpoint),
      Or(p.status, c.status), Or(p.critical, c.critical), Or(p.unitsChange, c.unitsChange),
      Safety(Or(p.startupTemp, c.safety.startupTemp), Or(p.afterStartTemp, c.safety.afterStartTemp),
             Or(p.retries, c.safety.retries), Or(p.lastState, c.safety.lastState)),
      Or(p.triggered, c.triggered), Or(p.pause, c.pause), Or(p.startStep, c.startStep),
      Or(p.lidToggle, c.lidToggle), Or(p.manual, c.manual))
  }

  // The queue, drained in order.
  function Drained(c: Control, patches: seq<Patch>): Control
    decreases |patches|
  {
    if patches == [] then c else Drained(ApplyPatch(c, patches[0]), patches[1..])
  }

  // What one notification item may ask for when it is checked.
  datatype Notice = Quiet | StepTriggered | WantShutdown | WantKeepWarm(temp: real) | WantReignite

  function Notify(c: Control, n: Notice): Control {
    match n
    case StepTriggered => if c.mode == Recipe then c.(triggered := true) else c
    case WantShutdown =>
      if c.mode in {Reignite, Startup, Smoke, Hold} then c.(mode := Shutdown, updated := true) else c
    case WantKeepWarm(temp) =>
      if c.mode in {Smoke, Hold} then c.(mode := Hold, setpoint := temp, updated := true) else c
    case WantReignite =>
      if c.mode in {Smoke, Hold} then
        c.(safety := c.safety.(lastState := c.mode), mode := Reignite, updated := true)
      else c
    case Quiet => c
  }

  // The items of one check, in order.
  function Notified(c: Control, notices: seq<Notice>): Control
    decreases |notices|
  {
    if notices == [] then c else Notified(Notify(c, notices[0]), notices[1..])
  }

  // Notifications never touch the retries, the start-up temperature or a pending
  // manual change, and never withdraw a request or change the mode of an error.
  ghost predicate Kept(c: Control, c': Control, relit: bool) {
    && c'.safety.(lastState := c.safety.lastState) == c.safety && c'.manual == c.manual
    && c'.critical == c.critical && c'.unitsChange == c.unitsChange && c'.status == c.status
    && (c.updated ==> c'.updated)
    && (c'.mode == Reignite ==> c.mode == Reignite || relit)
    && (c.mode == Error ==> c' == c)
  }

  lemma NotifyKeeps(c: Control, n: Notice)
    ensures Kept(c, Notify(c, n), n == WantReignite)
  {
  }

  lemma {:induction false} NotifiedKeeps(c: Control, notices: seq<Notice>)
    ensures Kept(c, Notified(c, notices), WantReignite in notices)
    decreases |notices|
  {
    if notices != [] {
      NotifyKeeps(c, notices[0]);
      NotifiedKeeps(Notify(c, notices[0]), notices[1..]);
    }
  }

  // The settings the control process reads.
  datatype Settings = Settings(
    holdCycle: real, uMin: real, uMax: real,
    lidDetect: bool, lidThreshold: real, lidPause: real,
    augerRate: real, primeIgnition: bool, primeOnStartup: bool,
    minStartupTemp: real, maxStartupTemp: real, maxTemp: real, retries: int,
    allowManual: bool, overrideTime: real,
    shutdownTime: real, afterStartup: Mode, startSetpoint: real)

  // The control record as a flush leaves it.
  function DefaultControl(s: Settings): Control {
    Control(Stop, true, Stop, 0.0, Blank, false, false, Safety(0, 0.0, s.retries, Smoke), false, false, 0, false, None)
  }
}
