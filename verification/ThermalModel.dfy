/** The thermal model of a pellet grill used in place of hardware. */
module ThermalModel {
  import opened Wrappers

  datatype Config = Config(
    ambient: real, augerRate: real, burnMaxFanOn: real, burnMaxFanOff: real, burnK: real,
    kEnergy: real, kLoss: real, igniterHeat: real, ignitionDelay: real, flameoutDelay: real,
    kFood: real, foodProbes: nat, maxStep: real)

  datatype Outputs = Outputs(power: bool, fan: bool, auger: bool, igniter: bool, pwm: real)

  datatype World = World(
    pit: real, food: seq<real>, pellets: real, lit: bool, outputs: Outputs,
    igniterSince: Option<real>, noFuelSince: Option<real>, lastT: real, forcedPit: Option<real>)

  // One output written by name.
  datatype Setting = Power(on: bool) | Fan(on: bool) | Auger(on: bool) | Igniter(on: bool) | Pwm(duty: real)

  function SetOutput(o: Outputs, s: Setting): Outputs {
    match s
    case Power(on) => o.(power := on)
    case Fan(on) => o.(fan := on)
    case Auger(on) => o.(auger := on)
    case Igniter(on) => o.(igniter := on)
    case Pwm(duty) => o.(pwm := duty)
  }

  const OUTPUTS_OFF := Outputs(false, false, false, false, 100.0)

  function Reset(c: Config, now: real): World {
    World(c.ambient, seq(c.foodProbes, _ => c.ambient), 0.0, false, OUTPUTS_OFF, None, None, now, None)
  }

  // ----- One sub-step -----

  function Fed(c: Config, w: World, dt: real): real {
    if w.outputs.power && w.outputs.auger then Times(c.augerRate, dt) else 0.0
  }

  function Ignite(c: Config, w: World, t: real): World {
    var heating := w.outputs.power && w.outputs.igniter && w.pellets > 0.5;
    var since := if !heating then None else if w.igniterSince.None? then Some(t) else w.igniterSince;
    var caught := heating && w.igniterSince.Some? && t - w.igniterSince.value >= c.ignitionDelay;
    var embers := w.pit > 400.0 && w.pellets > 0.5;
    w.(igniterSince := since, lit := w.lit || caught || embers)
  }

  function BurnMax(c: Config, w: World): real {
    if w.outputs.power && w.outputs.fan then c.burnMaxFanOn else c.burnMaxFanOff
  }

  function BurnRate(c: Config, w: World, dt: real): real
    requires dt > 0.0
  {
    if !w.lit then 0.0
    else Min(Min(BurnMax(c, w), Times(w.pellets, c.burnK)), Over(w.pellets, dt))
  }

  function Combust(c: Config, w: World, dt: real, t: real): World
    requires dt > 0.0
  {
    if !w.lit then w
    else
      var pellets := Max(0.0, w.pellets - Times(BurnRate(c, w, dt), dt));
      var starving := pellets < 0.05;
      w.(pellets := pellets,
         noFuelSince := if !starving then None else if w.noFuelSince.None? then Some(t) else w.noFuelSince,
         lit := !(starving && w.noFuelSince.Some? && t - w.noFuelSince.value >= c.flameoutDelay))
  }

  function HeatIn(c: Config, w: World, burn: real): real {
    Times(burn, c.kEnergy) + (if w.outputs.power && w.outputs.igniter then c.igniterHeat else 0.0)
  }

  function Lag(food: real, pit: real, k: real, dt: real): real {
    food + Times(Times(pit - food, k), dt)
  }

  function Warm(c: Config, w: World, burn: real, dt: real): World {
    var pit := Max(c.ambient - 5.0, w.pit + Times(HeatIn(c, w, burn) - Times(w.pit - c.ambient, c.kLoss), dt));
    var surround := if w.forcedPit.Some? then w.forcedPit.value else pit;
    w.(pit := pit,
       food := seq(|w.food|, i requires 0 <= i < |w.food| => Lag(w.food[i], surround, c.kFood, dt)))
  }

  function Fuelled(c: Config, w: World, dt: real, t: real): World {
    Ignite(c, w.(pellets := w.pellets + Fed(c, w, dt)), t)
  }

  // The mass burned by a sub-step: the rate, once fed and lit, times its length.
  function Burned(c: Config, w: World, dt: real, t: real): real
    requires dt > 0.0
  {
    Times(BurnRate(c, Fuelled(c, w, dt, t), dt), dt)
  }

  function Step(c: Config, w: World, dt: real, t: real): World
    requires dt > 0.0
  {
    var fuelled := Fuelled(c, w, dt, t);
    Warm(c, Combust(c, fuelled, dt, t), BurnRate(c, fuelled, dt), dt)
  }

  // ----- Sub-stepping -----

  // How many sub-steps cover `remaining` seconds: the quotient, rounded up.
  function Substeps(remaining: real, maxStep: real): int
    requires maxStep > 0.0
  {
    -(-Over(remaining, maxStep)).Floor
  }

  lemma SubstepsDecrease(remaining: real, maxStep: real)
    requires maxStep > 0.0 && remaining > 0.0
    ensures Substeps(remaining, maxStep) > 0
    ensures Substeps(remaining - Min(remaining, maxStep), maxStep) == Substeps(remaining, maxStep) - 1
  {
    var q := Over(remaining, maxStep);
    OverTimes(remaining, maxStep);
    assert q > 0.0;
    if remaining >= maxStep {
      assert Times(q - 1.0, maxStep) == remaining - maxStep;
      OverUnique(remaining - maxStep, maxStep, q - 1.0);
    } else {
      if q >= 1.0 { TimesMonotone(1.0, q, maxStep); }
      assert 0.0 < q < 1.0;
      assert Over(0.0, maxStep) == 0.0;
    }
  }

  // A world together with the fuel delivered to it and burned in it so far.
  datatype Ledger = Ledger(world: World, fed: real, burned: real)

  function LedgerStep(c: Config, l: Ledger, dt: real, t: real): Ledger
    requires dt > 0.0
  {
    Ledger(Step(c, l.world, dt, t), l.fed + Fed(c, l.world, dt), l.burned + Burned(c, l.world, dt, t))
  }

  // `remaining` seconds of physics from time t, in sub-steps of at most maxStep.
  function Simulate(c: Config, l: Ledger, remaining: real, t: real): Ledger
    requires c.maxStep > 0.0
    decreases Max(remaining, 0.0) > 0.0, Substeps(remaining, c.maxStep)
  {
    if remaining <= 0.0 then l
    else
      var dt := Min(remaining, c.maxStep);
      SubstepsDecrease(remaining, c.maxStep);
      Simulate(c, LedgerStep(c, l, dt, t + dt), remaining - dt, t + dt)
  }

  function Advance(c: Config, l: Ledger, now: real): Ledger
    requires c.maxStep > 0.0
  {
    if now - l.world.lastT <= 0.0 then l
    else
      var l' := Simulate(c, l, now - l.world.lastT, l.world.lastT);
      l'.(world := l'.world.(lastT := now))
  }

  // The physics of a list of sub-steps of the given lengths.
  function Replay(c: Config, l: Ledger, lengths: seq<real>, t: real): Ledger
    requires forall i | 0 <= i < |lengths| :: lengths[i] > 0.0
    decreases |lengths|
  {
    if lengths == [] then l
    else Replay(c, LedgerStep(c, l, lengths[0], t + lengths[0]), lengths[1..], t + lengths[0])
  }

  function Sum(xs: seq<real>): real {
    if xs == [] then 0.0 else xs[0] + Sum(xs[1..])
  }

  // The sub-steps partition the elapsed time: as many as the rounded-up quotient,
  // none longer than maxStep, and together exactly `remaining` seconds.
  lemma {:induction false} SubstepsPartition(c: Config, l: Ledger, remaining: real, t: real)
    returns (lengths: seq<real>)
    requires c.maxStep > 0.0 && remaining >= 0.0
    ensures |lengths| == Substeps(remaining, c.maxStep)
    ensures forall i | 0 <= i < |lengths| :: 0.0 < lengths[i] <= c.maxStep
    ensures Sum(lengths) == remaining
    ensures Simulate(c, l, remaining, t) == Replay(c, l, lengths, t)
    decreases remaining > 0.0, Substeps(remaining, c.maxStep)
  {
    if remaining == 0.0 {
      lengths := [];
    } else {
      var dt := Min(remaining, c.maxStep);
      SubstepsDecrease(remaining, c.maxStep);
      var rest := SubstepsPartition(c, LedgerStep(c, l, dt, t + dt), remaining - dt, t + dt);
      lengths := [dt] + rest;
    }
  }

  // ----- Whole runs -----

  datatype Command = Write(setting: Setting, now: real) | Read(now: real)

  function Apply(c: Config, l: Ledger, cmd: Command): Ledger
    requires c.maxStep > 0.0
  {
    var l' := Advance(c, l, cmd.now);
    match cmd
    case Write(setting, _) => l'.(world := l'.world.(outputs := SetOutput(l'.world.outputs, setting)))
    case Read(_) => l'
  }

  function Run(c: Config, l: Ledger, cmds: seq<Command>): Ledger
    requires c.maxStep > 0.0
    decreases |cmds|
  {
    if cmds == [] then l else Run(c, Apply(c, l, cmds[0]), cmds[1..])
  }

  predicate Physical(c: Config) {
    && c.augerRate >= 0.0 && c.burnMaxFanOn >= 0.0 && c.burnMaxFanOff >= 0.0 && c.burnK >= 0.0
    && c.kEnergy >= 0.0 && c.igniterHeat >= 0.0 && c.kFood >= 0.0 && c.kLoss > 0.0 && c.maxStep > 0.0
    && Times(c.kLoss, c.maxStep) <= 1.0 && Times(c.kFood, c.maxStep) <= 1.0
  }

  function HeatMax(c: Config): real {
    Times(Max(c.burnMaxFanOn, c.burnMaxFanOff), c.kEnergy) + c.igniterHeat
  }

  function Ceiling(c: Config): real
    requires c.kLoss > 0.0
  {
    c.ambient + Over(HeatMax(c), c.kLoss)
  }

  predicate Within(c: Config, temp: real)
    requires c.kLoss > 0.0
  {
    c.ambient <= temp <= Ceiling(c)
  }

  // Fuel is conserved and every temperature is inside the envelope.
  predicate Sound(c: Config, l: Ledger)
    requires c.kLoss > 0.0
  {
    && l.world.forcedPit.None?
    && 0.0 <= l.world.pellets && 0.0 <= l.burned
    && l.fed == l.burned + l.world.pellets
    && Within(c, l.world.pit)
    && forall f | f in l.world.food :: Within(c, f)
  }

  lemma BurnRateBounds(c: Config, w: World, dt: real)
    requires Physical(c) && dt > 0.0 && w.pellets >= 0.0
    ensures 0.0 <= BurnRate(c, w, dt) <= Max(c.burnMaxFanOn, c.burnMaxFanOff)
    ensures 0.0 <= Times(BurnRate(c, w, dt), dt) <= w.pellets
  {
    var burn := BurnRate(c, w, dt);
    TimesMonotone(0.0, w.pellets, c.burnK);
    OverTimes(w.pellets, dt);
    assert Over(w.pellets, dt) >= 0.0;
    TimesMonotone(0.0, burn, dt);
    if w.lit {
      TimesMonotone(burn, Over(w.pellets, dt), dt);
    } else {
      assert Times(0.0, dt) == 0.0;
    }
  }

  lemma FuelIsConserved(c: Config, w: World, dt: real, t: real)
    requires Physical(c) && dt > 0.0 && w.pellets >= 0.0
    ensures Step(c, w, dt, t).pellets + Burned(c, w, dt, t) == w.pellets + Fed(c, w, dt)
    ensures Step(c, w, dt, t).pellets >= 0.0 && Burned(c, w, dt, t) >= 0.0
  {
    TimesMonotone(0.0, c.augerRate, dt);
    assert Times(0.0, dt) == 0.0;
    BurnRateBounds(c, Fuelled(c, w, dt, t), dt);
  }

  // A relaxation step toward a point of [low, high] by a share of at most one stays there.
  lemma Relax(x: real, target: real, share: real, low: real, high: real)
    requires low <= x <= high && low <= target <= high && 0.0 <= share <= 1.0
    ensures low <= x + Times(target - x, share) <= high
  {
    if target >= x {
      TimesMonotone(share, 1.0, target - x);
      TimesMonotone(0.0, target - x, share);
      assert Times(share, target - x) == Times(target - x, share);
    } else {
      TimesMonotone(share, 1.0, x - target);
      TimesMonotone(0.0, x - target, share);
      assert Times(share, x - target) == -Times(target - x, share);
    }
  }

  lemma ShareBounds(k: real, dt: real, maxStep: real)
    requires 0.0 <= k && 0.0 < dt <= maxStep && Times(k, maxStep) <= 1.0
    ensures 0.0 <= Times(k, dt) <= 1.0
  {
    TimesMonotone(dt, maxStep, k);
    TimesMonotone(0.0, k, dt);
  }

  lemma TimesAssociates(x: real, y: real, z: real)
    ensures Times(Times(x, y), z) == Times(x, Times(y, z))
  {
  }

  // Heating at rate `heat` against a loss k per degree relaxes toward ambient + heat/k.
  lemma PitStep(c: Config, pit: real, heat: real, dt: real)
    requires Physical(c) && 0.0 < dt <= c.maxStep
    requires Within(c, pit) && 0.0 <= heat <= HeatMax(c)
    ensures Within(c, pit + Times(heat - Times(pit - c.ambient, c.kLoss), dt))
  {
    var k := c.kLoss;
    var target := c.ambient + Over(heat, k);
    OverTimes(heat, k);
    OverTimes(HeatMax(c), k);
    assert Over(heat, k) >= 0.0;
    assert Over(heat, k) <= Over(HeatMax(c), k) by {
      if Over(heat, k) > Over(HeatMax(c), k) { TimesStrict(Over(HeatMax(c), k), Over(heat, k), k); }
    }
    var share := Times(k, dt);
    ShareBounds(k, dt, c.maxStep);
    Relax(pit, target, share, c.ambient, Ceiling(c));
    assert heat - Times(pit - c.ambient, k) == Times(target - pit, k);
    TimesAssociates(target - pit, k, dt);
  }

  lemma HeatInBounds(c: Config, w: World, burn: real)
    requires Physical(c) && 0.0 <= burn <= Max(c.burnMaxFanOn, c.burnMaxFanOff)
    ensures 0.0 <= HeatIn(c, w, burn) <= HeatMax(c)
  {
    TimesMonotone(burn, Max(c.burnMaxFanOn, c.burnMaxFanOff), c.kEnergy);
    TimesMonotone(0.0, burn, c.kEnergy);
    assert Times(0.0, c.kEnergy) == 0.0;
  }

  lemma WarmKeepsWithin(c: Config, w: World, burn: real, dt: real)
    requires Physical(c) && 0.0 < dt <= c.maxStep
    requires 0.0 <= burn <= Max(c.burnMaxFanOn, c.burnMaxFanOff)
    requires w.forcedPit.None? && Within(c, w.pit) && forall f | f in w.food :: Within(c, f)
    ensures var w' := Warm(c, w, burn, dt); Within(c, w'.pit) && forall f | f in w'.food :: Within(c, f)
  {
    HeatInBounds(c, w, burn);
    PitStep(c, w.pit, HeatIn(c, w, burn), dt);
    var w' := Warm(c, w, burn, dt);
    ShareBounds(c.kFood, dt, c.maxStep);
    forall i | 0 <= i < |w'.food| ensures Within(c, w'.food[i]) {
      assert w.food[i] in w.food;
      Relax(w.food[i], w'.pit, Times(c.kFood, dt), c.ambient, Ceiling(c));
      TimesAssociates(w'.pit - w.food[i], c.kFood, dt);
    }
  }

  lemma StepKeepsSound(c: Config, l: Ledger, dt: real, t: real)
    requires Physical(c) && 0.0 < dt <= c.maxStep && Sound(c, l)
    ensures Sound(c, LedgerStep(c, l, dt, t))
  {
    var fuelled := Fuelled(c, l.world, dt, t);
    FuelIsConserved(c, l.world, dt, t);
    TimesMonotone(0.0, c.augerRate, dt);
    assert Times(0.0, dt) == 0.0;
    BurnRateBounds(c, fuelled, dt);
    WarmKeepsWithin(c, Combust(c, fuelled, dt, t), BurnRate(c, fuelled, dt), dt);
  }

  lemma {:induction false} SimulateKeepsSound(c: Config, l: Ledger, remaining: real, t: real)
    requires Physical(c) && Sound(c, l)
    ensures Sound(c, Simulate(c, l, remaining, t))
    decreases Max(remaining, 0.0) > 0.0, Substeps(remaining, c.maxStep)
  {
    if remaining > 0.0 {
      var dt := Min(remaining, c.maxStep);
      SubstepsDecrease(remaining, c.maxStep);
      StepKeepsSound(c, l, dt, t + dt);
      SimulateKeepsSound(c, LedgerStep(c, l, dt, t + dt), remaining - dt, t + dt);
    }
  }

  // Any output schedule over any clock readings, forward or backward, keeps the
  // mass balance and the temperature envelope.
  lemma {:induction false} EnvelopeAndMassBalance(c: Config, l: Ledger, cmds: seq<Command>)
    requires Physical(c) && Sound(c, l)
    ensures Sound(c, Run(c, l, cmds))
    decreases |cmds|
  {
    if cmds != [] {
      SimulateKeepsSound(c, l, cmds[0].now - l.world.lastT, l.world.lastT);
      EnvelopeAndMassBalance(c, Apply(c, l, cmds[0]), cmds[1..]);
    }
  }

  lemma ResetIsSound(c: Config, now: real)
    requires Physical(c)
    ensures Sound(c, Ledger(Reset(c, now), 0.0, 0.0))
  {
    var top := Max(c.burnMaxFanOn, c.burnMaxFanOff);
    TimesMonotone(0.0, top, c.kEnergy);
    assert Over(HeatMax(c), c.kLoss) >= 0.0;
  }

  // ----- The world as it is updated in place -----

  class SimWorld {
    const c: Config
    var pit: real
    var food: seq<real>
    var pellets: real
    var lit: bool
    var outputs: Outputs
    var igniterSince: Option<real>
    var noFuelSince: Option<real>
    var lastT: real
    var forcedPit: Option<real>
    ghost var fed: real
    ghost var burned: real

    ghost function State(): Ledger
      reads this
    {
      Ledger(World(pit, food, pellets, lit, outputs, igniterSince, noFuelSince, lastT, forcedPit), fed, burned)
    }

    constructor (config: Config, now: real)
      ensures c == config && State() == Ledger(Reset(config, now), 0.0, 0.0)
    {
      c := config;
      pit, pellets, lit, outputs := config.ambient, 0.0, false, OUTPUTS_OFF;
      food := seq(config.foodProbes, _ => config.ambient);
      igniterSince, noFuelSince, lastT, forcedPit := None, None, now, None;
      fed, burned := 0.0, 0.0;
    }

    method DoStep(dt: real, t: real)
      requires dt > 0.0
      modifies this
      ensures State() == LedgerStep(c, old(State()), dt, t)
    {
      FeedAndIgnite(dt, t);
      var burn := BurnFuel(dt, t);
      var heat := Times(burn, c.kEnergy) + (if outputs.power && outputs.igniter then c.igniterHeat else 0.0);
      var loss := Times(pit - c.ambient, c.kLoss);
      pit := pit + Times(heat - loss, dt);
      pit := Max(c.ambient - 5.0, pit);
      LagFood(if forcedPit.Some? then forcedPit.value else pit, dt);
    }

    // The fuel delivery and ignition sections of a sub-step.
    method FeedAndIgnite(dt: real, t: real)
      modifies this
      ensures State() ==
        Ledger(Fuelled(c, old(State()).world, dt, t), old(fed) + Fed(c, old(State()).world, dt), old(burned))
    {
      if outputs.power && outputs.auger {
        pellets := pellets + Times(c.augerRate, dt);
        fed := fed + Times(c.augerRate, dt);
      }
      if outputs.power && outputs.igniter && pellets > 0.5 {
        if igniterSince.None? {
          igniterSince := Some(t);
        } else if t - igniterSince.value >= c.ignitionDelay {
          lit := true;
        }
      } else {
        igniterSince := None;
      }
      if !lit && pit > 400.0 && pellets > 0.5 {
        lit := true;
      }
    }

    // The combustion section of a sub-step.
    method BurnFuel(dt: real, t: real) returns (burn: real)
      requires dt > 0.0
      modifies this
      ensures burn == BurnRate(c, old(State()).world, dt)
      ensures State() == Ledger(Combust(c, old(State()).world, dt, t), old(fed), old(burned) + Times(burn, dt))
    {
      burn := 0.0;
      if lit {
        var burnMax := if outputs.power && outputs.fan then c.burnMaxFanOn else c.burnMaxFanOff;
        burn := Min(burnMax, Times(pellets, c.burnK));
        burn := Min(burn, Over(pellets, dt));
        pellets := Max(0.0, pellets - Times(burn, dt));
        if pellets < 0.05 {
          if noFuelSince.None? {
            noFuelSince := Some(t);
          } else if t - noFuelSince.value >= c.flameoutDelay {
            lit := false;
          }
        } else {
          noFuelSince := None;
        }
      }
      burned := burned + Times(burn, dt);
    }

    // The food probes, one after the other.
    method LagFood(surround: real, dt: real)
      modifies this`food
      ensures |food| == |old(food)|
      ensures forall j | 0 <= j < |food| :: food[j] == Lag(old(food)[j], surround, c.kFood, dt)
    {
      var i := 0;
      while i < |food|
        invariant 0 <= i <= |food| == |old(food)|
        invariant forall j | 0 <= j < i :: food[j] == Lag(old(food)[j], surround, c.kFood, dt)
        invariant forall j | i <= j < |food| :: food[j] == old(food)[j]
      {
        food := food[i := Lag(food[i], surround, c.kFood, dt)];
        i := i + 1;
      }
    }

    method RunSubsteps(elapsed: real, start: real)
      requires c.maxStep > 0.0
      modifies this
      ensures State() == Simulate(c, old(State()), elapsed, start)
    {
      var remaining, t := elapsed, start;
      ghost var end := Simulate(c, State(), remaining, t);
      while remaining > 0.0
        invariant Simulate(c, State(), remaining, t) == end
        decreases remaining > 0.0, Substeps(remaining, c.maxStep)
      {
        SubstepsDecrease(remaining, c.maxStep);
        var dt := Min(remaining, c.maxStep);
        t := t + dt;
        DoStep(dt, t);
        remaining := remaining - dt;
      }
    }

    method AdvanceLocked(now: real)
      requires c.maxStep > 0.0
      modifies this
      ensures State() == Advance(c, old(State()), now)
    {
      var remaining := now - lastT;
      if remaining <= 0.0 {
        return;
      }
      RunSubsteps(remaining, lastT);
      lastT := now;
    }

    method DoSetOutput(s: Setting, now: real)
      requires c.maxStep > 0.0
      modifies this
      ensures State() == Apply(c, old(State()), Write(s, now))
    {
      AdvanceLocked(now);
      outputs := SetOutput(outputs, s);
    }

    method PitTemp(now: real) returns (reading: real)
      requires c.maxStep > 0.0
      modifies this
      ensures State() == Apply(c, old(State()), Read(now))
      ensures reading == if forcedPit.Some? then forcedPit.value else pit
    {
      AdvanceLocked(now);
      reading := if forcedPit.Some? then forcedPit.value else pit;
    }
  }
}
