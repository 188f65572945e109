/** When the simulated grill lights, burns and goes out, over whole runs. */
module ThermalLaws {
  import opened Wrappers
  import opened ThermalModel

  // ----- A run unrolled -----

  // What happens to the world, one thing at a time: a sub-step of length dt that ends
  // at time t, an output written, or the clock noted.
  datatype Act = SubStep(dt: real, t: real) | Set(setting: Setting) | Note(now: real)

  predicate Proper(c: Config, acts: seq<Act>) {
    forall i | 0 <= i < |acts| && acts[i].SubStep? :: 0.0 < acts[i].dt <= c.maxStep
  }

  function Do(c: Config, l: Ledger, a: Act): Ledger {
    match a
    case SubStep(dt, t) => if dt > 0.0 then LedgerStep(c, l, dt, t) else l
    case Set(setting) => l.(world := l.world.(outputs := SetOutput(l.world.outputs, setting)))
    case Note(now) => l.(world := l.world.(lastT := now))
  }

  function Play(c: Config, l: Ledger, acts: seq<Act>): Ledger
    decreases |acts|
  {
    if acts == [] then l else Play(c, Do(c, l, acts[0]), acts[1..])
  }

  lemma {:induction false} PlayAll(c: Config, l: Ledger, a: seq<Act>, b: seq<Act>)
    ensures Play(c, l, a + b) == Play(c, Play(c, l, a), b)
    decreases |a|
  {
    if a == [] {
      assert a + b == b;
    } else {
      assert (a + b)[1..] == a[1..] + b;
      PlayAll(c, Do(c, l, a[0]), a[1..], b);
    }
  }

  lemma PlayOne(c: Config, l: Ledger, a: Act)
    ensures Play(c, l, [a]) == Do(c, l, a)
  {
    assert Play(c, Do(c, l, a), [a][1..]) == Do(c, l, a);
  }

  lemma {:induction false} SimulateUnrolls(c: Config, l: Ledger, remaining: real, t: real) returns (acts: seq<Act>)
    requires c.maxStep > 0.0
    ensures Proper(c, acts) && Simulate(c, l, remaining, t) == Play(c, l, acts)
    ensures forall i | 0 <= i < |acts| :: acts[i].SubStep? && t < acts[i].t <= t + remaining
    ensures remaining > 0.0 ==> acts != [] && acts[|acts| - 1].t == t + remaining
    decreases Max(remaining, 0.0) > 0.0, Substeps(remaining, c.maxStep)
  {
    if remaining <= 0.0 {
      acts := [];
    } else {
      var dt := Min(remaining, c.maxStep);
      SubstepsDecrease(remaining, c.maxStep);
      var rest := SimulateUnrolls(c, LedgerStep(c, l, dt, t + dt), remaining - dt, t + dt);
      acts := [SubStep(dt, t + dt)] + rest;
      assert acts[1..] == rest;
    }
  }

  // The outputs a run writes, in order.
  function Written(acts: seq<Act>): seq<Setting>
    decreases |acts|
  {
    if acts == [] then []
    else if acts[0].Set? then [acts[0].setting] + Written(acts[1..])
    else Written(acts[1..])
  }

  function Asked(cmds: seq<Command>): seq<Setting>
    decreases |cmds|
  {
    if cmds == [] then []
    else if cmds[0].Write? then [cmds[0].setting] + Asked(cmds[1..])
    else Asked(cmds[1..])
  }

  lemma {:induction false} WrittenAll(a: seq<Act>, b: seq<Act>)
    ensures Written(a + b) == Written(a) + Written(b)
    decreases |a|
  {
    if a == [] {
      assert a + b == b;
    } else {
      assert (a + b)[1..] == a[1..] + b;
      WrittenAll(a[1..], b);
    }
  }

  lemma {:induction false} StepsWriteNothing(acts: seq<Act>)
    requires forall i | 0 <= i < |acts| :: acts[i].SubStep?
    ensures Written(acts) == []
    decreases |acts|
  {
    if acts != [] { StepsWriteNothing(acts[1..]); }
  }

  lemma AdvanceUnrolls(c: Config, l: Ledger, now: real) returns (acts: seq<Act>)
    requires c.maxStep > 0.0
    ensures Proper(c, acts) && Advance(c, l, now) == Play(c, l, acts) && Written(acts) == []
  {
    if now - l.world.lastT <= 0.0 {
      acts := [];
    } else {
      var steps := SimulateUnrolls(c, l, now - l.world.lastT, l.world.lastT);
      acts := steps + [Note(now)];
      PlayAll(c, l, steps, [Note(now)]);
      PlayOne(c, Play(c, l, steps), Note(now));
      StepsWriteNothing(steps);
      WrittenAll(steps, [Note(now)]);
      assert Written([Note(now)]) == Written([]) == [];
    }
  }

  lemma ApplyUnrolls(c: Config, l: Ledger, cmd: Command) returns (acts: seq<Act>)
    requires c.maxStep > 0.0
    ensures Proper(c, acts) && Apply(c, l, cmd) == Play(c, l, acts) && Written(acts) == Asked([cmd])
  {
    var advance := AdvanceUnrolls(c, l, cmd.now);
    var writes := if cmd.Write? then [Set(cmd.setting)] else [];
    acts := advance + writes;
    PlayAll(c, l, advance, writes);
    if cmd.Write? { PlayOne(c, Advance(c, l, cmd.now), Set(cmd.setting)); }
    WrittenAll(advance, writes);
    assert [cmd][1..] == [] && (cmd.Write? ==> writes[1..] == []);
  }

  // Every run of the simulator is such a sequence, with the same writes in the same order.
  lemma {:induction false} RunUnrolls(c: Config, l: Ledger, cmds: seq<Command>) returns (acts: seq<Act>)
    requires c.maxStep > 0.0
    ensures Proper(c, acts) && Run(c, l, cmds) == Play(c, l, acts) && Written(acts) == Asked(cmds)
    decreases |cmds|
  {
    if cmds == [] {
      acts := [];
    } else {
      var first := ApplyUnrolls(c, l, cmds[0]);
      var rest := RunUnrolls(c, Apply(c, l, cmds[0]), cmds[1..]);
      acts := first + rest;
      PlayAll(c, l, first, rest);
      WrittenAll(first, rest);
      assert [cmds[0]][1..] == [];
      assert Asked([cmds[0]]) == if cmds[0].Write? then [cmds[0].setting] else [];
    }
  }

  // ----- Outputs -----

  datatype Name = PowerName | FanName | AugerName | IgniterName

  function Value(o: Outputs, n: Name): bool {
    match n
    case PowerName => o.power
    case FanName => o.fan
    case AugerName => o.auger
    case IgniterName => o.igniter
  }

  // What a write says about an output, if it names it.
  function Says(s: Setting, n: Name): Option<bool> {
    match s
    case Power(on) => if n == PowerName then Some(on) else None
    case Fan(on) => if n == FanName then Some(on) else None
    case Auger(on) => if n == AugerName then Some(on) else None
    case Igniter(on) => if n == IgniterName then Some(on) else None
    case Pwm(_) => None
  }

  // The last word of some writes on an output.
  function LastSaid(writes: seq<Setting>, n: Name): Option<bool>
    decreases |writes|
  {
    if writes == [] then None
    else
      var later := LastSaid(writes[1..], n);
      if later.Some? then later else Says(writes[0], n)
  }

  lemma StepKeepsOutputs(c: Config, l: Ledger, dt: real, t: real)
    requires dt > 0.0
    ensures LedgerStep(c, l, dt, t).world.outputs == l.world.outputs
    ensures LedgerStep(c, l, dt, t).world.forcedPit == l.world.forcedPit
  {
  }

  // An output is as it was last written.
  lemma {:induction false} OutputsAsWritten(c: Config, l: Ledger, acts: seq<Act>, n: Name)
    ensures var said, o := LastSaid(Written(acts), n), Play(c, l, acts).world.outputs;
            Value(o, n) == if said.Some? then said.value else Value(l.world.outputs, n)
    decreases |acts|
  {
    if acts != [] {
      var a := acts[0];
      OutputsAsWritten(c, Do(c, l, a), acts[1..], n);
      if a.SubStep? && a.dt > 0.0 { StepKeepsOutputs(c, l, a.dt, a.t); }
      if a.Set? { assert Written(acts)[1..] == Written(acts[1..]); }
    }
  }

  // ----- Fuel -----

  // How long the auger fed: the lengths of the sub-steps it was on under power.
  function FedTime(o: Outputs, acts: seq<Act>): real
    decreases |acts|
  {
    if acts == [] then 0.0
    else
      match acts[0]
      case SubStep(dt, _) => (if dt > 0.0 && o.power && o.auger then dt else 0.0) + FedTime(o, acts[1..])
      case Set(setting) => FedTime(SetOutput(o, setting), acts[1..])
      case Note(_) => FedTime(o, acts[1..])
  }

  lemma FedOneMore(rate: real, dt: real, rest: real)
    ensures Times(rate, dt + rest) == Times(rate, dt) + Times(rate, rest)
  {
  }

  // The pellets delivered are the auger rate times the time it fed.
  lemma {:induction false} FuelIsFed(c: Config, l: Ledger, acts: seq<Act>)
    ensures Play(c, l, acts).fed == l.fed + Times(c.augerRate, FedTime(l.world.outputs, acts))
    decreases |acts|
  {
    if acts == [] {
      assert Times(c.augerRate, 0.0) == 0.0;
    } else {
      var a, next := acts[0], Do(c, l, acts[0]);
      FuelIsFed(c, next, acts[1..]);
      if a.SubStep? && a.dt > 0.0 {
        StepKeepsOutputs(c, l, a.dt, a.t);
        FedOneMore(c.augerRate, a.dt, FedTime(l.world.outputs, acts[1..]));
      }
    }
  }

  // A lit sub-step burns the most the fan allows, unless the fuel on hand limits the
  // rate, or there is less of it than that; an unlit one burns nothing.
  lemma BurnLaw(c: Config, w: World, dt: real, t: real)
    requires Physical(c) && dt > 0.0 && w.pellets >= 0.0
    ensures var f, burned := Fuelled(c, w, dt, t), Burned(c, w, dt, t);
            var most := if w.outputs.power && w.outputs.fan then c.burnMaxFanOn else c.burnMaxFanOff;
            && f.pellets == w.pellets + Fed(c, w, dt)
            && (!f.lit ==> burned == 0.0)
            && (f.lit ==> burned <= Times(most, dt) && burned <= Times(Times(f.pellets, c.burnK), dt)
                          && burned <= f.pellets)
            && (f.lit ==> burned in {Times(most, dt), Times(Times(f.pellets, c.burnK), dt), f.pellets})
            && Step(c, w, dt, t).pellets == f.pellets - burned
  {
    var f := Fuelled(c, w, dt, t);
    assert Times(0.0, dt) == 0.0;
    OverTimes(f.pellets, dt);
    FuelIsConserved(c, w, dt, t);
    if f.lit {
      TimesMonotone(BurnRate(c, f, dt), BurnMax(c, f), dt);
      TimesMonotone(BurnRate(c, f, dt), Times(f.pellets, c.burnK), dt);
      TimesMonotone(BurnRate(c, f, dt), Over(f.pellets, dt), dt);
    }
  }

  // ----- Heat -----

  // The heat a sub-step adds per second.
  function HeatOf(c: Config, w: World, dt: real, t: real): real
    requires dt > 0.0
  {
    Times(Over(Burned(c, w, dt, t), dt), c.kEnergy)
    + (if w.outputs.power && w.outputs.igniter then c.igniterHeat else 0.0)
  }

  lemma RelaxLaw(x: real, target: real, k: real, dt: real)
    ensures x + Times(Times(target - x, k), dt) - target == Times(x - target, 1.0 - Times(k, dt))
  {
    TimesAssociates(target - x, k, dt);
    var share := Times(k, dt);
    assert (target - x) * share == -((x - target) * share);
  }

  lemma PitBalances(c: Config, pit: real, heat: real, dt: real)
    requires c.kLoss != 0.0
    ensures var balance := c.ambient + Over(heat, c.kLoss);
            pit + Times(heat - Times(pit - c.ambient, c.kLoss), dt) - balance
            == Times(pit - balance, 1.0 - Times(c.kLoss, dt))
  {
    var balance := c.ambient + Over(heat, c.kLoss);
    OverTimes(heat, c.kLoss);
    assert heat - Times(pit - c.ambient, c.kLoss) == Times(balance - pit, c.kLoss);
    RelaxLaw(pit, balance, c.kLoss, dt);
  }

  // The pit relaxes toward the temperature at which loss and heat balance, and every
  // food probe toward the pit, or toward the temperature the pit is forced to.
  lemma HeatLaw(c: Config, w: World, dt: real, t: real, i: nat)
    requires Physical(c) && 0.0 < dt <= c.maxStep && w.pellets >= 0.0 && Within(c, w.pit) && i < |w.food|
    ensures var balance, pit := c.ambient + Over(HeatOf(c, w, dt, t), c.kLoss), Step(c, w, dt, t).pit;
            && pit - balance == Times(w.pit - balance, 1.0 - Times(c.kLoss, dt))
            && |Step(c, w, dt, t).food| == |w.food|
            && var around := if w.forcedPit.Some? then w.forcedPit.value else pit;
               Step(c, w, dt, t).food[i] - around == Times(w.food[i] - around, 1.0 - Times(c.kFood, dt))
  {
    var f := Fuelled(c, w, dt, t);
    var burn := BurnRate(c, f, dt);
    var burning := Combust(c, f, dt, t);
    var pit := Step(c, w, dt, t).pit;
    TimesMonotone(0.0, c.augerRate, dt);
    assert Times(0.0, dt) == 0.0;
    BurnRateBounds(c, f, dt);
    OverUnique(Times(burn, dt), dt, burn);
    HeatInBounds(c, burning, burn);
    PitStep(c, w.pit, HeatIn(c, burning, burn), dt);
    PitBalances(c, w.pit, HeatOf(c, w, dt, t), dt);
    RelaxLaw(w.food[i], if w.forcedPit.Some? then w.forcedPit.value else pit, c.kFood, dt);
  }

  // ----- Lighting and going out -----

  predicate BeganAt(seen: seq<(real, bool)>, k: nat)
    requires k < |seen|
  {
    (k == 0 || !seen[k - 1].1) && forall j | k <= j < |seen| :: seen[j].1
  }

  // Sub-steps with their end times, each with or without some condition, and when the
  // latest unbroken series of those with it began.
  ghost predicate Spell(seen: seq<(real, bool)>, since: Option<real>) {
    if since.None? then seen == [] || !seen[|seen| - 1].1
    else exists k | 0 <= k < |seen| :: seen[k].0 == since.value && BeganAt(seen, k)
  }

  lemma SpellGoesOn(seen: seq<(real, bool)>, since: Option<real>, t: real, on: bool)
    requires Spell(seen, since)
    ensures Spell(seen + [(t, on)], if !on then None else if since.None? then Some(t) else since)
  {
    var more := seen + [(t, on)];
    if on {
      var k := |seen|;
      if since.Some? { k :| 0 <= k < |seen| && seen[k].0 == since.value && BeganAt(seen, k); }
      assert k > 0 ==> more[k - 1] == seen[k - 1];
      assert more[k].0 == (if since.None? then t else since.value) && BeganAt(more, k);
    }
  }

  // The igniter heats enough pellets.
  predicate Heats(c: Config, w: World, dt: real) {
    w.outputs.power && w.outputs.igniter && w.pellets + Fed(c, w, dt) > 0.5
  }

  // Fresh fuel on a very hot pit.
  predicate Embers(c: Config, w: World, dt: real) { w.pit > 400.0 && w.pellets + Fed(c, w, dt) > 0.5 }

  // Hardly a pellet is left of what the sub-step burned.
  predicate Starves(c: Config, w: World, dt: real, t: real)
    requires dt > 0.0
  {
    w.pellets + Fed(c, w, dt) - Burned(c, w, dt, t) < 0.05
  }

  // The sub-steps of a run, with whether the igniter heated; and those that burned,
  // with whether they starved.
  function Heated(c: Config, l: Ledger, acts: seq<Act>): seq<(real, bool)>
    decreases |acts|
  {
    if acts == [] then []
    else
      var init, last := acts[..|acts| - 1], acts[|acts| - 1];
      Heated(c, l, init) + (if last.SubStep? && last.dt > 0.0 then
                              [(last.t, Heats(c, Play(c, l, init).world, last.dt))]
                            else [])
  }

  function Burning(c: Config, l: Ledger, acts: seq<Act>): seq<(real, bool)>
    decreases |acts|
  {
    if acts == [] then []
    else
      var init, last := acts[..|acts| - 1], acts[|acts| - 1];
      var w := Play(c, l, init).world;
      Burning(c, l, init) + (if last.SubStep? && last.dt > 0.0 && Fuelled(c, w, last.dt, last.t).lit then
                               [(last.t, Starves(c, w, last.dt, last.t))]
                             else [])
  }

  lemma PlayLast(c: Config, l: Ledger, acts: seq<Act>)
    requires acts != []
    ensures Play(c, l, acts) == Do(c, Play(c, l, acts[..|acts| - 1]), acts[|acts| - 1])
  {
    var init, last := acts[..|acts| - 1], acts[|acts| - 1];
    assert acts == init + [last];
    PlayAll(c, l, init, [last]);
    PlayOne(c, Play(c, l, init), last);
  }

  lemma StepSpells(c: Config, w: World, dt: real, t: real)
    requires Physical(c) && dt > 0.0 && w.pellets >= 0.0
    ensures var w' := Step(c, w, dt, t);
            && w'.pellets >= 0.0
            && w'.igniterSince == (if !Heats(c, w, dt) then None
                                   else if w.igniterSince.None? then Some(t) else w.igniterSince)
            && w'.noFuelSince == (if !Fuelled(c, w, dt, t).lit then w.noFuelSince
                                  else if !Starves(c, w, dt, t) then None
                                  else if w.noFuelSince.None? then Some(t) else w.noFuelSince)
  {
    FuelIsConserved(c, w, dt, t);
    TimesMonotone(0.0, c.augerRate, dt);
    assert Times(0.0, dt) == 0.0;
    BurnRateBounds(c, Fuelled(c, w, dt, t), dt);
  }

  // The two spells after one act more.
  lemma ActRemembered(c: Config, w: World, a: Act, w': World, heated: seq<(real, bool)>, burning: seq<(real, bool)>)
    requires Physical(c) && w.pellets >= 0.0 && a.SubStep? && a.dt > 0.0 && w' == Step(c, w, a.dt, a.t)
    requires Spell(heated, w.igniterSince) && Spell(burning, w.noFuelSince)
    ensures Spell(heated + [(a.t, Heats(c, w, a.dt))], w'.igniterSince)
    ensures Fuelled(c, w, a.dt, a.t).lit ==> Spell(burning + [(a.t, Starves(c, w, a.dt, a.t))], w'.noFuelSince)
    ensures !Fuelled(c, w, a.dt, a.t).lit ==> w'.noFuelSince == w.noFuelSince
    ensures w'.pellets >= 0.0
  {
    StepSpells(c, w, a.dt, a.t);
    SpellGoesOn(heated, w.igniterSince, a.t, Heats(c, w, a.dt));
    SpellGoesOn(burning, w.noFuelSince, a.t, Starves(c, w, a.dt, a.t));
  }

  // From a reset on, the world remembers when the igniter began to heat, and when the
  // fire began to starve.
  lemma {:induction false} SpellsAreRemembered(c: Config, l: Ledger, acts: seq<Act>)
    requires Physical(c) && l.world.igniterSince.None? && l.world.noFuelSince.None? && l.world.pellets >= 0.0
    ensures var w := Play(c, l, acts).world;
            && w.pellets >= 0.0
            && Spell(Heated(c, l, acts), w.igniterSince) && Spell(Burning(c, l, acts), w.noFuelSince)
    decreases |acts|
  {
    if acts != [] {
      var init, last := acts[..|acts| - 1], acts[|acts| - 1];
      var heated, burning := Heated(c, l, init), Burning(c, l, init);
      SpellsAreRemembered(c, l, init);
      PlayLast(c, l, acts);
      assert heated + [] == heated && burning + [] == burning;
      if last.SubStep? && last.dt > 0.0 {
        ActRemembered(c, Play(c, l, init).world, last, Play(c, l, acts).world, heated, burning);
      }
    }
  }

  // Whether the fire burns in a sub-step and after it. It catches exactly when the
  // igniter heats and began to at least the ignition delay ago, or on embers; and goes
  // out exactly when it starves and began to at least the flame-out delay ago.
  lemma FireLaw(c: Config, l: Ledger, acts: seq<Act>, dt: real, t: real)
    requires Physical(c) && l.world.igniterSince.None? && l.world.noFuelSince.None? && l.world.pellets >= 0.0
    requires dt > 0.0
    ensures var w, f := Play(c, l, acts).world, Fuelled(c, Play(c, l, acts).world, dt, t);
            && Spell(Heated(c, l, acts), w.igniterSince) && Spell(Burning(c, l, acts), w.noFuelSince)
            && (f.lit <==>
                  || w.lit || Embers(c, w, dt)
                  || (Heats(c, w, dt) && w.igniterSince.Some? && t - w.igniterSince.value >= c.ignitionDelay))
            && (Step(c, w, dt, t).lit <==>
                  && f.lit
                  && !(Starves(c, w, dt, t) && w.noFuelSince.Some?
                       && t - w.noFuelSince.value >= c.flameoutDelay))
  {
    SpellsAreRemembered(c, l, acts);
    var w := Play(c, l, acts).world;
    FuelIsConserved(c, w, dt, t);
    StepSpells(c, w, dt, t);
    TimesMonotone(0.0, c.augerRate, dt);
    assert Times(0.0, dt) == 0.0;
    BurnRateBounds(c, Fuelled(c, w, dt, t), dt);
  }

  // ----- A cold grill -----

  // Neither the loss nor the igniter takes a cold pit above 400 degrees.
  predicate Mild(c: Config) {
    Physical(c) && c.ambient <= 400.0 && c.igniterHeat <= Times(400.0 - c.ambient, c.kLoss)
  }

  predicate Unlit(w: World) { !w.lit && w.pit <= 400.0 && w.pellets >= 0.0 }

  lemma CoolPit(c: Config, w: World, dt: real)
    requires Mild(c) && 0.0 < dt <= c.maxStep && w.pit <= 400.0
    ensures Warm(c, w, 0.0, dt).pit <= 400.0
  {
    var k := c.kLoss;
    var heat := HeatIn(c, w, 0.0);
    assert Times(0.0, c.kEnergy) == 0.0;
    var target := c.ambient + Over(heat, k);
    OverTimes(heat, k);
    assert Over(heat, k) <= 400.0 - c.ambient by {
      if Over(heat, k) > 400.0 - c.ambient { TimesStrict(400.0 - c.ambient, Over(heat, k), k); }
    }
    ShareBounds(k, dt, c.maxStep);
    Relax(w.pit, target, Times(k, dt), Min(w.pit, target), 400.0);
    assert heat - Times(w.pit - c.ambient, k) == Times(target - w.pit, k);
    TimesAssociates(target - w.pit, k, dt);
  }

  lemma UnlitStep(c: Config, l: Ledger, dt: real, t: real)
    requires Mild(c) && 0.0 < dt <= c.maxStep && Unlit(l.world) && !Fuelled(c, l.world, dt, t).lit
    ensures var l' := LedgerStep(c, l, dt, t);
            && Unlit(l'.world) && l'.burned == l.burned
            && l'.world.pellets == l.world.pellets + Fed(c, l.world, dt) >= l.world.pellets
            && l'.world.outputs == l.world.outputs
  {
    var f := Fuelled(c, l.world, dt, t);
    TimesMonotone(0.0, c.augerRate, dt);
    assert Times(0.0, dt) == 0.0;
    CoolPit(c, f, dt);
  }

  // Writes that leave the igniter without power, or without its own output, throughout.
  predicate NeverHeats(o: Outputs, acts: seq<Act>)
    decreases |acts|
  {
    !(o.power && o.igniter)
    && (acts == [] || NeverHeats(if acts[0].Set? then SetOutput(o, acts[0].setting) else o, acts[1..]))
  }

  // Without a powered igniter a cold grill stays unlit and burns nothing, whatever it
  // is fed.
  lemma {:induction false} StaysUnlit(c: Config, l: Ledger, acts: seq<Act>)
    requires Mild(c) && Proper(c, acts) && Unlit(l.world) && NeverHeats(l.world.outputs, acts)
    ensures var l' := Play(c, l, acts); Unlit(l'.world) && l'.burned == l.burned
    decreases |acts|
  {
    if acts != [] {
      var a := acts[0];
      if a.SubStep? { UnlitStep(c, l, a.dt, a.t); }
      StaysUnlit(c, Do(c, l, a), acts[1..]);
    }
  }

  // Writes that leave power and igniter on.
  predicate KeepsHeating(acts: seq<Act>) {
    forall i | 0 <= i < |acts| && acts[i].Set? :: acts[i].setting != Power(false) && acts[i].setting != Igniter(false)
  }

  predicate EndBefore(acts: seq<Act>, deadline: real) {
    forall i | 0 <= i < |acts| && acts[i].SubStep? :: acts[i].t < deadline
  }

  // Unlit, with the igniter heating enough pellets since then.
  ghost predicate Kindling(w: World, since: real) {
    && Unlit(w) && w.outputs.power && w.outputs.igniter && w.pellets > 0.5 && w.igniterSince == Some(since)
  }

  // A sub-step in which the igniter begins to heat.
  lemma KindlingBegins(c: Config, l: Ledger, dt: real, t: real)
    requires Mild(c) && 0.0 < dt <= c.maxStep && Unlit(l.world) && l.world.igniterSince.None? && Heats(c, l.world, dt)
    ensures Kindling(LedgerStep(c, l, dt, t).world, t)
  {
    UnlitStep(c, l, dt, t);
  }

  lemma KindlingStep(c: Config, l: Ledger, dt: real, t: real, since: real)
    requires Mild(c) && 0.0 < dt <= c.maxStep && Kindling(l.world, since)
    ensures Fuelled(c, l.world, dt, t).lit <==> t - since >= c.ignitionDelay
    ensures t - since < c.ignitionDelay ==>
              Kindling(LedgerStep(c, l, dt, t).world, since) && LedgerStep(c, l, dt, t).burned == l.burned
  {
    TimesMonotone(0.0, c.augerRate, dt);
    assert Times(0.0, dt) == 0.0;
    if t - since < c.ignitionDelay { UnlitStep(c, l, dt, t); }
  }

  lemma {:induction false} KindlingGoesOn(c: Config, l: Ledger, acts: seq<Act>, since: real)
    requires Mild(c) && Proper(c, acts) && Kindling(l.world, since)
    requires KeepsHeating(acts) && EndBefore(acts, since + c.ignitionDelay)
    ensures Kindling(Play(c, l, acts).world, since) && Play(c, l, acts).burned == l.burned
    decreases |acts|
  {
    if acts != [] {
      var a := acts[0];
      if a.SubStep? { KindlingStep(c, l, a.dt, a.t, since); }
      KindlingGoesOn(c, Do(c, l, a), acts[1..], since);
    }
  }

  // With power and igniter left on, a cold grill with enough pellets lights in the
  // first sub-step that ends at least the ignition delay after the one in which the
  // igniter began to heat, and burns nothing before.
  lemma LightsOnTime(c: Config, l: Ledger, acts: seq<Act>, since: real, dt: real, t: real)
    requires Mild(c) && Proper(c, acts) && Kindling(l.world, since) && 0.0 < dt <= c.maxStep
    requires KeepsHeating(acts) && EndBefore(acts, since + c.ignitionDelay)
    ensures var l' := Play(c, l, acts);
            && !l'.world.lit && l'.burned == l.burned
            && (Fuelled(c, l'.world, dt, t).lit <==> t >= since + c.ignitionDelay)
  {
    KindlingGoesOn(c, l, acts, since);
    KindlingStep(c, Play(c, l, acts), dt, t, since);
  }
}
