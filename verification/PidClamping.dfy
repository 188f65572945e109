/** The PID controller that stops integrating while its output is saturated. */
module PidClamping {
  import opened Wrappers

  datatype Gains = Gains(kp: real, ki: real, kd: real)

  function CalculateGains(pb: real, ti: real, td: real): Gains {
    var kp := if pb == 0.0 then 0.0 else -1.0 / pb;
    Gains(kp, if ti == 0.0 then 0.0 else kp / ti, kp * td)
  }

  datatype Pid = Pid(
    gains: Gains, p: real, i: real, d: real, u: real, lastUpdate: real,
    error: real, errorLast: real, setPoint: real, derv: real, inter: real)

  // The proportional plus derivative part of the output a reading would give.
  function BlockInput(s: Pid, start: real, current: real): real
    requires start != s.lastUpdate
  {
    var error := current - s.setPoint;
    Times(s.gains.kp, error) + Times(s.gains.kd, Over(error - s.errorLast, start - s.lastUpdate))
  }

  // One reading. The clock is read twice: `start` gives the time step, `finish`
  // is stored. A zero time step raises after p, i and the integral are set.
  function Update(s: Pid, start: real, finish: real, current: real): (Pid, Option<real>) {
    var dt := start - s.lastUpdate;
    var error := current - s.setPoint;
    var p := Times(s.gains.kp, error);
    var inter := s.inter + Times(error, dt);
    var i := Times(s.gains.ki, inter);
    if dt == 0.0 then
      (s.(p := p, i := i, inter := inter), None)
    else
      var derv := Over(error - s.errorLast, dt);
      var d := Times(s.gains.kd, derv);
      var u := p + i + d;
      var clamp := Abs(u) >= 1.0 && i * u > 0.0;
      (s.(p := p, i := i, d := d, u := u, derv := derv, errorLast := error, lastUpdate := finish,
          inter := if clamp then s.inter else inter),
       Some(u))
  }

  function SetTarget(s: Pid, setPoint: real, now: real): Pid {
    s.(setPoint := setPoint, error := 0.0, inter := 0.0, derv := 0.0, lastUpdate := now)
  }

  function SetConfig(s: Pid, pb: real, ti: real, td: real): Pid {
    s.(gains := CalculateGains(pb, ti, td), error := 0.0, inter := 0.0, derv := 0.0)
  }

  class Controller {
    var gains: Gains
    var p: real
    var i: real
    var d: real
    var u: real
    var lastUpdate: real
    var error: real
    var errorLast: real
    var setPoint: real
    var derv: real
    var inter: real

    ghost function State(): Pid
      reads this
    {
      Pid(gains, p, i, d, u, lastUpdate, error, errorLast, setPoint, derv, inter)
    }

    constructor (pb: real, ti: real, td: real, now: real)
      ensures State() == Pid(CalculateGains(pb, ti, td), 0.0, 0.0, 0.0, 0.0, now, 0.0, 0.0, 0.0, 0.0, 0.0)
    {
      gains := CalculateGains(pb, ti, td);
      p, i, d, u := 0.0, 0.0, 0.0, 0.0;
      lastUpdate := now;
      error, errorLast, setPoint := 0.0, 0.0, 0.0;
      derv, inter := 0.0, 0.0;
      new;
      DoSetTarget(0.0, now);
    }

    method DoUpdate(start: real, finish: real, current: real) returns (output: Option<real>)
      modifies this
      ensures (State(), output) == Update(old(State()), start, finish, current)
    {
      var dt := start - lastUpdate;
      var err := current - setPoint;
      p := Times(gains.kp, err);
      inter := inter + Times(err, dt);
      i := Times(gains.ki, inter);
      if dt == 0.0 {
        return None;
      }
      derv := Over(err - errorLast, dt);
      d := Times(gains.kd, derv);
      u := p + i + d;
      if Abs(u) >= 1.0 && i * u > 0.0 {
        inter := inter - Times(err, dt);
      }
      errorLast := err;
      lastUpdate := finish;
      ghost var s' := Update(old(State()), start, finish, current).0;
      assert u == s'.u;
      assert inter == s'.inter;
      return Some(u);
    }

    method DoSetTarget(target: real, now: real)
      modifies this
      ensures State() == SetTarget(old(State()), target, now)
    {
      setPoint := target;
      error, inter, derv := 0.0, 0.0, 0.0;
      lastUpdate := now;
    }

    method DoSetGains(pb: real, ti: real, td: real)
      modifies this
      ensures State() == old(State()).(gains := CalculateGains(pb, ti, td))
    {
      gains := CalculateGains(pb, ti, td);
    }

    method DoSetConfig(pb: real, ti: real, td: real)
      modifies this
      ensures State() == SetConfig(old(State()), pb, ti, td)
    {
      gains := CalculateGains(pb, ti, td);
      error, inter, derv := 0.0, 0.0, 0.0;
    }
  }

  // ----- Runs -----

  datatype Event =
    | Reading(start: real, finish: real, current: real)
    | NewTarget(setPoint: real, now: real)
    | NewConfig(pb: real, ti: real, td: real)
    | NewGains(pb: real, ti: real, td: real)

  function Apply(s: Pid, e: Event): Pid {
    match e
    case Reading(start, finish, current) => Update(s, start, finish, current).0
    case NewTarget(setPoint, now) => SetTarget(s, setPoint, now)
    case NewConfig(pb, ti, td) => SetConfig(s, pb, ti, td)
    case NewGains(pb, ti, td) => s.(gains := CalculateGains(pb, ti, td))
  }

  function Run(s: Pid, events: seq<Event>): Pid
    decreases |events|
  {
    if events == [] then s else Run(Apply(s, events[0]), events[1..])
  }

  // Every reading of the run has a block input within `bound`, and the gains are
  // never replaced without a reset of the integral.
  predicate Calm(s: Pid, events: seq<Event>, bound: real)
    decreases |events|
  {
    events == [] ||
    (&& !events[0].NewGains?
     && (events[0].Reading? && events[0].start != s.lastUpdate ==>
           Abs(BlockInput(s, events[0].start, events[0].current)) <= bound)
     && Calm(Apply(s, events[0]), events[1..], bound))
  }

  function IntegralTerm(s: Pid): real { Abs(Times(s.gains.ki, s.inter)) }

  lemma OppositeSigns(i: real, u: real)
    ensures i * u > 0.0 || Abs(i) <= Abs(u - i)
  {
    if i > 0.0 && u > 0.0 {
      assert i * u > 0.0;
    } else if i < 0.0 && u < 0.0 {
      assert i * u > 0.0;
    }
  }

  // Whatever the reading and the time step, one update leaves the integral term
  // no larger than it was, or within one unit of the block input.
  lemma UpdateContracts(s: Pid, start: real, finish: real, current: real)
    ensures var s' := Update(s, start, finish, current).0;
            if start == s.lastUpdate then s'.inter == s.inter && s'.gains == s.gains
            else IntegralTerm(s') <= IntegralTerm(s)
                 || IntegralTerm(s') <= 1.0 + Abs(BlockInput(s, start, current))
  {
    if start != s.lastUpdate {
      var s' := Update(s, start, finish, current).0;
      OppositeSigns(s'.i, s'.u);
      assert s'.u == BlockInput(s, start, current) + s'.i;
    }
  }

  // Anti-windup over whole runs, at every moment of the run.
  lemma {:induction false} AntiWindup(s: Pid, events: seq<Event>, bound: real)
    requires bound >= 0.0
    requires IntegralTerm(s) <= 1.0 + bound
    requires Calm(s, events, bound)
    ensures forall k | 0 <= k <= |events| :: IntegralTerm(Run(s, events[..k])) <= 1.0 + bound
    decreases |events|
  {
    if events != [] {
      var e := events[0];
      if e.Reading? {
        UpdateContracts(s, e.start, e.finish, e.current);
      }
      var s' := Apply(s, e);
      AntiWindup(s', events[1..], bound);
      forall k | 0 <= k <= |events| ensures IntegralTerm(Run(s, events[..k])) <= 1.0 + bound {
        if k > 0 {
          assert events[..k][1..] == events[1..][..k - 1];
        }
      }
    }
  }

  // Readings within `band` of the target that move no faster than `slope`.
  predicate Smooth(s: Pid, events: seq<Event>, band: real, slope: real)
    decreases |events|
  {
    events == [] ||
    (&& !events[0].NewGains? && !events[0].NewConfig?
     && (events[0].Reading? ==>
           var error := events[0].current - s.setPoint;
           var dt := events[0].start - s.lastUpdate;
           dt > 0.0 && Abs(error) <= band && Abs(Over(error - s.errorLast, dt)) <= slope)
     && Smooth(Apply(s, events[0]), events[1..], band, slope))
  }

  lemma ScaledAbs(a: real, x: real, bound: real)
    requires Abs(x) <= bound
    ensures Abs(Times(a, x)) <= Times(Abs(a), bound)
  {
    if a >= 0.0 {
      assert a * x <= a * bound && a * (-x) <= a * bound;
    } else {
      assert -a * x <= -a * bound && -a * (-x) <= -a * bound;
    }
  }

  // The largest block input a smooth run can reach with these gains.
  function BlockBound(gains: Gains, band: real, slope: real): real {
    Times(Abs(gains.kp), band) + Times(Abs(gains.kd), slope)
  }

  lemma {:induction false} SmoothIsCalm(s: Pid, events: seq<Event>, band: real, slope: real)
    requires Smooth(s, events, band, slope)
    ensures Calm(s, events, BlockBound(s.gains, band, slope))
    decreases |events|
  {
    if events != [] {
      var e := events[0];
      if e.Reading? {
        var error := e.current - s.setPoint;
        ScaledAbs(s.gains.kp, error, band);
        ScaledAbs(s.gains.kd, Over(error - s.errorLast, e.start - s.lastUpdate), slope);
      }
      assert Apply(s, e).gains == s.gains;
      SmoothIsCalm(Apply(s, e), events[1..], band, slope);
    }
  }

  // For a smooth run from reset the bound is computable from the gains alone.
  lemma SmoothRunBound(s: Pid, events: seq<Event>, band: real, slope: real)
    requires band >= 0.0 && slope >= 0.0 && s.inter == 0.0
    requires Smooth(s, events, band, slope)
    ensures IntegralTerm(Run(s, events)) <= 1.0 + BlockBound(s.gains, band, slope)
  {
    assert BlockBound(s.gains, band, slope) >= 0.0;
    SmoothIsCalm(s, events, band, slope);
    AntiWindup(s, events, BlockBound(s.gains, band, slope));
    assert events[..|events|] == events;
  }

  lemma AbsProduct(a: real, b: real)
    ensures Abs(Times(a, b)) == Times(Abs(a), Abs(b))
  {
    if a >= 0.0 && b >= 0.0 {
      assert a * b >= 0.0;
    } else if a < 0.0 && b < 0.0 {
      assert a * b == (-a) * (-b);
    } else if a >= 0.0 {
      assert a * (-b) >= 0.0;
      assert a * b == -(a * (-b));
    } else {
      assert (-a) * b >= 0.0;
      assert a * b == -((-a) * b);
    }
  }

  lemma GainEscape(ki: real, ki': real, inter: real, bound: real)
    requires bound > 0.0 && Abs(ki') > Abs(ki)
    requires inter == if ki == 0.0 then 2.0 * bound / ki' else bound / ki
    ensures Abs(Times(ki, inter)) <= bound < Abs(Times(ki', inter))
  {
    if ki == 0.0 {
      assert Times(ki', inter) == 2.0 * bound;
      assert Times(ki, inter) == 0.0;
    } else {
      assert Times(ki, inter) == bound;
      AbsProduct(ki, inter);
      AbsProduct(ki', inter);
      TimesStrict(Abs(ki), Abs(ki'), Abs(inter));
    }
  }

  // Replacing the gains keeps every integral that was in bound there exactly when
  // the integral gain does not grow in size; set_gains alone does not reset it.
  lemma GainChangeKeepsBound(ki: real, ki': real, bound: real)
    requires bound > 0.0
    ensures (forall inter :: Abs(Times(ki, inter)) <= bound ==> Abs(Times(ki', inter)) <= bound)
            <==> Abs(ki') <= Abs(ki)
  {
    if Abs(ki') <= Abs(ki) {
      forall inter | Abs(Times(ki, inter)) <= bound ensures Abs(Times(ki', inter)) <= bound {
        AbsProduct(ki, inter);
        AbsProduct(ki', inter);
        TimesMonotone(Abs(ki'), Abs(ki), Abs(inter));
      }
    } else {
      var inter := if ki == 0.0 then 2.0 * bound / ki' else bound / ki;
      GainEscape(ki, ki', inter, bound);
    }
  }
}
