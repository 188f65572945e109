/** What a check of the notifications asks the control process for. */
module NoticeLaws {
  import opened Wrappers
  import opened ControlRecord

  // What the items of a check want between them; of several temperatures to keep
  // the food at, the last.
  datatype Wishes = Wishes(shutdown: bool, reignite: bool, triggered: bool, warm: Option<real>)

  ghost predicate LastWarm(notices: seq<Notice>, temp: real) {
    exists i | 0 <= i < |notices| ::
      notices[i] == WantKeepWarm(temp) && forall j | i < j < |notices| :: !notices[j].WantKeepWarm?
  }

  ghost predicate Wanted(notices: seq<Notice>, w: Wishes) {
    && (w.shutdown <==> WantShutdown in notices)
    && (w.reignite <==> WantReignite in notices)
    && (w.triggered <==> StepTriggered in notices)
    && (w.warm.None? ==> forall i | 0 <= i < |notices| :: !notices[i].WantKeepWarm?)
    && (w.warm.Some? ==> LastWarm(notices, w.warm.value))
  }

  // A shutdown wins over the rest, and a reignite over keeping warm. A recipe, and a
  // mode that neither starts nor cooks, hears of a step's trigger alone.
  ghost predicate Obeyed(c: Control, w: Wishes, after: Control) {
    if c.mode in {Reignite, Startup, Smoke, Hold} && w.shutdown then
      after.mode == Shutdown && after.updated && after.triggered == c.triggered
    else if c.mode in {Smoke, Hold} && w.reignite then
      && after.mode == Reignite && after.updated && after.triggered == c.triggered
      && after.safety.lastState in {Smoke, Hold}
      && (w.warm.None? ==> after.safety.lastState == c.mode && after.setpoint == c.setpoint)
    else if c.mode in {Smoke, Hold} && w.warm.Some? then
      after == c.(mode := Hold, updated := true, setpoint := w.warm.value)
    else after == c.(triggered := c.triggered || (c.mode == Recipe && w.triggered))
  }

  function Add(w: Wishes, n: Notice): Wishes {
    match n
    case Quiet => w
    case StepTriggered => w.(triggered := true)
    case WantShutdown => w.(shutdown := true)
    case WantKeepWarm(temp) => w.(warm := Some(temp))
    case WantReignite => w.(reignite := true)
  }

  lemma OneMoreWanted(notices: seq<Notice>, w: Wishes, last: Notice)
    requires Wanted(notices, w)
    ensures Wanted(notices + [last], Add(w, last))
  {
    var more, temp := notices + [last], Add(w, last).warm;
    if last.WantKeepWarm? {
      assert more[|notices|] == last;
      assert LastWarm(more, last.temp);
    } else if temp.Some? {
      var i :| 0 <= i < |notices| && notices[i] == WantKeepWarm(temp.value)
               && forall j | i < j < |notices| :: !notices[j].WantKeepWarm?;
      assert more[i] == WantKeepWarm(temp.value);
    }
  }

  lemma OneMoreObeyed(c: Control, w: Wishes, mid: Control, last: Notice)
    requires Obeyed(c, w, mid)
    ensures Obeyed(c, Add(w, last), Notify(mid, last))
  {
    match last
    case Quiet =>
    case StepTriggered =>
    case WantShutdown =>
    case WantKeepWarm(_) =>
    case WantReignite =>
  }

  lemma {:induction false} NotifiedLast(c: Control, notices: seq<Notice>, last: Notice)
    ensures Notified(c, notices + [last]) == Notify(Notified(c, notices), last)
    decreases |notices|
  {
    if notices == [] {
      assert Notified(Notify(c, last), []) == Notify(c, last);
    } else {
      assert (notices + [last])[1..] == notices[1..] + [last];
      NotifiedLast(Notify(c, notices[0]), notices[1..], last);
    }
  }

  // The items of a check act one after the other, and this is where they end.
  lemma {:induction false} NoticesAreObeyed(c: Control, notices: seq<Notice>) returns (w: Wishes)
    ensures Wanted(notices, w) && Obeyed(c, w, Notified(c, notices))
    decreases |notices|
  {
    if notices == [] {
      w := Wishes(false, false, false, None);
    } else {
      var init, last := notices[..|notices| - 1], notices[|notices| - 1];
      assert notices == init + [last];
      var before := NoticesAreObeyed(c, init);
      w := Add(before, last);
      NotifiedLast(c, init, last);
      OneMoreWanted(init, before, last);
      OneMoreObeyed(c, before, Notified(c, init), last);
    }
  }
}
