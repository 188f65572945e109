/** What the PID controller answers, over whole runs. */
module PidLaws {
  import opened Wrappers
  import opened PidClamping

  // What a listener to the events alone knows: the gains and the target in force, when
  // the last reading or reset was over, the error of the last reading, and the errors
  // since the last reset, each times its time step, summed.
  datatype Heard = Heard(gains: Gains, target: real, clock: real, lastError: real, sum: real)

  function Hear(h: Heard, e: Event): Heard {
    match e
    case Reading(start, finish, current) =>
      if start == h.clock then h
      else h.(clock := finish, lastError := current - h.target,
              sum := h.sum + Times(current - h.target, start - h.clock))
    case NewTarget(target, now) => h.(target := target, clock := now, sum := 0.0)
    case NewConfig(pb, ti, td) => h.(gains := CalculateGains(pb, ti, td), sum := 0.0)
    case NewGains(pb, ti, td) => h.(gains := CalculateGains(pb, ti, td))
  }

  function HearAll(h: Heard, events: seq<Event>): Heard
    decreases |events|
  {
    if events == [] then h else HearAll(Hear(h, events[0]), events[1..])
  }

  // The PID formula: the error, its sum over time with this reading in it, and its
  // slope since the last reading, each by its gain.
  function Formula(h: Heard, start: real, current: real): real
    requires start != h.clock
  {
    var error := current - h.target;
    Times(h.gains.kp, error) + Times(h.gains.ki, h.sum + Times(error, start - h.clock))
    + Times(h.gains.kd, Over(error - h.lastError, start - h.clock))
  }

  // The formula is out of range, and its integral part pushes it further out.
  predicate Saturates(h: Heard, start: real, current: real)
    requires start != h.clock
  {
    var u, i := Formula(h, start, current), Times(h.gains.ki, h.sum + Times(current - h.target, start - h.clock));
    (u >= 1.0 && i > 0.0) || (u <= -1.0 && i < 0.0)
  }

  // No reading of the run saturates the formula.
  predicate InRange(h: Heard, events: seq<Event>)
    decreases |events|
  {
    events == [] ||
    (&& (events[0].Reading? && events[0].start != h.clock ==> !Saturates(h, events[0].start, events[0].current))
     && InRange(Hear(h, events[0]), events[1..]))
  }

  // The controller's state is what a listener would make of it.
  ghost predicate Hears(s: Pid, h: Heard) {
    && s.gains == h.gains && s.setPoint == h.target && s.lastUpdate == h.clock && s.errorLast == h.lastError
    && s.inter == h.sum
  }

  lemma SameSign(i: real, u: real)
    ensures i * u > 0.0 <==> (i > 0.0 && u > 0.0) || (i < 0.0 && u < 0.0)
  {
    if i < 0.0 && u < 0.0 { assert i * u == (-i) * (-u); }
    if i > 0.0 && u < 0.0 { assert i * u == -(i * (-u)); }
    if i < 0.0 && u > 0.0 { assert i * u == -((-i) * u); }
  }

  // One reading: the answer is the formula, none for no time step, and the integral
  // takes the reading in exactly when it does not saturate.
  lemma AnswerLaw(s: Pid, h: Heard, start: real, finish: real, current: real)
    requires Hears(s, h)
    ensures var (s', answer) := Update(s, start, finish, current);
            if start == h.clock then answer == None && Hears(s', h)
            else
              && answer == Some(Formula(h, start, current)) && s'.u == Formula(h, start, current)
              && Hears(s', Hear(h, Reading(start, finish, current))
                           .(sum := if Saturates(h, start, current) then h.sum
                                    else h.sum + Times(current - h.target, start - h.clock)))
  {
    if start == h.clock {
      assert Times(current - h.target, 0.0) == 0.0;
    } else {
      SameSign(Times(h.gains.ki, h.sum + Times(current - h.target, start - h.clock)), Formula(h, start, current));
    }
  }

  lemma EventHeard(s: Pid, h: Heard, e: Event)
    requires Hears(s, h) && InRange(h, [e])
    ensures Hears(Apply(s, e), Hear(h, e))
  {
    match e
    case Reading(start, finish, current) => AnswerLaw(s, h, start, finish, current);
    case _ =>
  }

  lemma {:induction false} RunHeard(s: Pid, h: Heard, events: seq<Event>)
    requires Hears(s, h) && InRange(h, events)
    ensures Hears(Run(s, events), HearAll(h, events))
    decreases |events|
  {
    if events != [] {
      assert InRange(h, [events[0]]);
      EventHeard(s, h, events[0]);
      RunHeard(Apply(s, events[0]), Hear(h, events[0]), events[1..]);
    }
  }

  // The PID law: after any run within range, of readings, resets and new gains, the
  // next reading is answered by the formula on what the events alone say.
  lemma PidLaw(s: Pid, h: Heard, events: seq<Event>, start: real, finish: real, current: real)
    requires Hears(s, h) && InRange(h, events) && start != HearAll(h, events).clock
    ensures Update(Run(s, events), start, finish, current).1
            == Some(Formula(HearAll(h, events), start, current))
  {
    RunHeard(s, h, events);
    AnswerLaw(Run(s, events), HearAll(h, events), start, finish, current);
  }

  // A target resets the controller: from there on only what follows counts, but for
  // the slope, which still looks back to the last reading.
  lemma TargetResets(s: Pid, target: real, now: real)
    ensures Hears(SetTarget(s, target, now), Heard(s.gains, target, now, s.errorLast, 0.0))
  {
  }

  // The gains are those of the standard form  -(e + I / Ti + Td D) / PB;  without
  // Ti there is no integral part, and without PB the answer is zero.
  lemma StandardForm(pb: real, ti: real, td: real, error: real, integral: real, slope: real)
    ensures var g := CalculateGains(pb, ti, td);
            var answer := Times(g.kp, error) + Times(g.ki, integral) + Times(g.kd, slope);
            if pb == 0.0 then answer == 0.0
            else Times(answer, pb) == -(error + (if ti == 0.0 then 0.0 else Over(integral, ti)) + Times(td, slope))
  {
    var g := CalculateGains(pb, ti, td);
    if pb != 0.0 {
      assert Times(Times(g.kp, error), pb) == -error;
      assert Times(Times(g.kd, slope), pb) == -Times(td, slope);
      if ti == 0.0 {
        assert Times(g.ki, integral) == 0.0;
      } else {
        assert Times(Times(g.ki, integral), pb) == -Over(integral, ti);
      }
    }
  }
}
