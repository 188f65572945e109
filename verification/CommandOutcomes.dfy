/** Which commands the bridge executes, and what it reports about them. */
module CommandOutcomes {
  import opened Wrappers
  import opened Documents
  import opened SettingsSchema
  import opened CloudCommands

  // ----- Admission -----

  // A creation time within half a minute of the clock.
  predicate Recent(cmd: Doc, now: real) {
    var created := Numeric(Field(cmd, "createdAt"));
    created.Some? && now - 30000.0 <= created.value <= now + 30000.0
  }

  // A text or a number that is not empty, zero or false, with its key.
  predicate Usable(nonce: Json) {
    match nonce
    case Str(s) => s != ""
    case _ => Numeric(nonce).Some? && Numeric(nonce).value != 0.0
  }

  function Known(nonce: Json): Key
    requires Usable(nonce)
  {
    match nonce
    case Str(s) => Text(s)
    case _ => Number(Numeric(nonce).value)
  }

  predicate Unseen(m: Memory, nonce: Json) { Usable(nonce) && Known(nonce) !in m.seen }

  predicate Allowed(cmd: Doc, env: Env) {
    env.enabled && Field(cmd, "name").Str? && Field(cmd, "name").s in env.allowed
  }

  predicate SaysPending(cmd: Json) {
    cmd.Obj? && "status" in cmd.fields && cmd.fields["status"] == Str("pending")
  }

  // Pending, recent, new, and allowed by the owner and for the cloud.
  predicate Admitted(m: Memory, cmd: Json, env: Env) {
    && SaysPending(cmd) && Recent(cmd.fields, env.now) && Unseen(m, Field(cmd.fields, "nonce"))
    && Allowed(cmd.fields, env)
  }

  // A value that cannot be looked up: a mapping or a list, a nonce of which is not empty.
  predicate Unhashable(j: Json) { j.Obj? || j.List? }

  predicate Trips(m: Memory, cmd: Json, env: Env) {
    && SaysPending(cmd) && Recent(cmd.fields, env.now)
    && var nonce := Field(cmd.fields, "nonce");
       || (Unhashable(nonce) && nonce != List([]) && nonce != Obj(map[]))
       || (Unseen(m, nonce) && env.enabled && Unhashable(Field(cmd.fields, "name")))
  }

  // ----- One call -----

  // What is written after the acknowledgement.
  function Outcome(e: Execution): seq<Write> {
    match e
    case Accepted => [Done]
    case Refused => [Failed]
    case Crashes => []
  }

  lemma NonceKeys(nonce: Json)
    ensures Usable(nonce) <==> Truthy(nonce) && KeyOf(nonce).Some?
    ensures Usable(nonce) ==> KeyOf(nonce) == Some(Known(nonce))
    ensures Truthy(nonce) && KeyOf(nonce).None? <==> Unhashable(nonce) && nonce != List([]) && nonce != Obj(map[])
  {
  }

  // A call executes what is admitted and nothing else, and reports how that ended;
  // anything pending that is neither admitted nor trips a lookup is rejected.
  lemma CallOutcome(m: Memory, id: string, cmd: Json, env: Env)
    ensures var h := Handle(m, id, cmd, env);
            if Admitted(m, cmd, env) then
              && h.writes == [Acked] + Outcome(env.execution)
              && h.memory.runs == m.runs + [Run(id, Known(Field(cmd.fields, "nonce")), |m.log|, env.now,
                                                Numeric(Field(cmd.fields, "createdAt")).value)]
              && (h.result == Returned(Done) <==> env.execution.Accepted? && env.published)
              && (h.result == Returned(Failed) <==> env.execution.Refused?)
              && h.result != Returned(Rejected) && !h.result.Ignored?
            else
              && h.memory.runs == m.runs
              && (h.writes == [Rejected] && h.result == Returned(Rejected) <==> SaysPending(cmd) && !Trips(m, cmd, env))
              && (h.writes == [] && h.result == Raised <==> Trips(m, cmd, env))
              && (h.writes == [] && h.result == Ignored <==> !SaysPending(cmd))
  {
    if Pending(cmd) { NonceKeys(Field(cmd.fields, "nonce")); }
  }

  lemma JustRemembered(seen: seq<Key>, nonce: Key)
    requires nonce !in seen
    ensures nonce in Remember(seen, nonce).0
  {
    var kept := Remember(seen, nonce).0;
    assert kept[|kept| - 1] == nonce;
  }

  // The nonce of a call that gets as far as looking it up is remembered from then on.
  lemma CallRemembers(m: Memory, id: string, cmd: Json, env: Env)
    ensures var h := Handle(m, id, cmd, env);
            if SaysPending(cmd) && Recent(cmd.fields, env.now) && Unseen(m, Field(cmd.fields, "nonce")) then
              && h.memory.log == m.log + [Known(Field(cmd.fields, "nonce"))]
              && Known(Field(cmd.fields, "nonce")) in h.memory.seen
            else h.memory == m
  {
    if Pending(cmd) {
      var nonce := Field(cmd.fields, "nonce");
      NonceKeys(nonce);
      if Recent(cmd.fields, env.now) && Unseen(m, nonce) { JustRemembered(m.seen, Known(nonce)); }
    }
  }

  // ----- Any run of deliveries -----

  // The deliveries admitted on the way, in order.
  function Executed(m: Memory, ds: seq<Delivery>): seq<Delivery>
    decreases |ds|
  {
    if ds == [] then []
    else
      (if Admitted(m, ds[0].cmd, ds[0].env) then [ds[0]] else [])
      + Executed(Handle(m, ds[0].id, ds[0].cmd, ds[0].env).memory, ds[1..])
  }

  // Each acknowledged, then reported as it ended.
  function Reported(ds: seq<Delivery>): seq<(string, Write)>
    decreases |ds|
  {
    if ds == [] then [] else Tagged(ds[0].id, [Acked] + Outcome(ds[0].env.execution)) + Reported(ds[1..])
  }

  // The writes but for rejections.
  function Unrejected(writes: seq<(string, Write)>): seq<(string, Write)>
    decreases |writes|
  {
    if writes == [] then []
    else (if writes[0].1 == Rejected then [] else [writes[0]]) + Unrejected(writes[1..])
  }

  lemma {:induction false} UnrejectedAll(a: seq<(string, Write)>, b: seq<(string, Write)>)
    ensures Unrejected(a + b) == Unrejected(a) + Unrejected(b)
    decreases |a|
  {
    if a == [] {
      assert a + b == b;
    } else {
      assert (a + b)[1..] == a[1..] + b;
      UnrejectedAll(a[1..], b);
    }
  }

  lemma {:induction false} NothingRejected(writes: seq<(string, Write)>)
    requires forall i | 0 <= i < |writes| :: writes[i].1 != Rejected
    ensures Unrejected(writes) == writes
    decreases |writes|
  {
    if writes != [] { NothingRejected(writes[1..]); }
  }

  lemma CallReports(m: Memory, d: Delivery)
    ensures Unrejected(Tagged(d.id, Handle(m, d.id, d.cmd, d.env).writes))
            == if Admitted(m, d.cmd, d.env) then Tagged(d.id, [Acked] + Outcome(d.env.execution)) else []
  {
    CallOutcome(m, d.id, d.cmd, d.env);
    var h := Handle(m, d.id, d.cmd, d.env);
    if Admitted(m, d.cmd, d.env) {
      NothingRejected(Tagged(d.id, h.writes));
    } else if h.writes == [Rejected] {
      assert Tagged(d.id, h.writes)[1..] == [];
    }
  }

  lemma ReportedFirst(d: Delivery, rest: seq<Delivery>)
    ensures Reported([d] + rest) == Tagged(d.id, [Acked] + Outcome(d.env.execution)) + Reported(rest)
  {
    assert ([d] + rest)[1..] == rest;
  }

  // Whatever is delivered, the writes other than rejections are those of the
  // executions: each acknowledged, and then done if it was accepted, failed if it
  // was refused, and nothing if it crashed.
  lemma {:induction false} OutcomesAreReported(m: Memory, ds: seq<Delivery>)
    ensures Unrejected(Attempts(m, ds)) == Reported(Executed(m, ds))
    ensures |Executed(m, ds)| == |Deliver(m, ds).runs| - |m.runs|
    decreases |ds|
  {
    if ds != [] {
      var h := Handle(m, ds[0].id, ds[0].cmd, ds[0].env);
      CallReports(m, ds[0]);
      CallOutcome(m, ds[0].id, ds[0].cmd, ds[0].env);
      OutcomesAreReported(h.memory, ds[1..]);
      UnrejectedAll(Tagged(ds[0].id, h.writes), Attempts(h.memory, ds[1..]));
      var rest := Executed(h.memory, ds[1..]);
      ReportedFirst(ds[0], rest);
      assert [] + rest == rest;
      assert Attempts(m, ds) == Tagged(ds[0].id, h.writes) + Attempts(h.memory, ds[1..]);
    }
  }

  // ----- Which commands are looked at -----

  // A drain looks at every pending command it read, each in its place, and at no other.
  lemma PendingInOrder(found: seq<(string, Json)>, i: nat)
    requires i < |found|
    ensures var k := |PendingOf(found[..i])|;
            if SaysPending(found[i].1) then k < |PendingOf(found)| && PendingOf(found)[k] == found[i]
            else |PendingOf(found[..i + 1])| == k
  {
    assert found[..i + 1][..i] == found[..i] && found[..i + 1][i] == found[i];
    PendingOfPrefix(found, i + 1);
  }

  lemma {:induction false} OnlyPending(found: seq<(string, Json)>)
    ensures forall c | c in PendingOf(found) :: c in found && SaysPending(c.1)
    ensures |PendingOf(found)| <= |found|
    decreases |found|
  {
    if found != [] { OnlyPending(found[..|found| - 1]); }
  }

  // A streamed change offers what it puts, or the stored document of a command that
  // it makes pending again; a change of the whole tree offers every entry.
  lemma OffersExactly(c: Change, id: string, cmd: Json)
    ensures (id, cmd) in Offered(c) <==>
              || (c.Tree? && (id, cmd) in c.entries)
              || (c == Put(id, cmd) && cmd.Obj?)
              || (c.Patch? && c.id == id && c.stored == cmd && SaysPending(c.payload))
    ensures c.Tree? ==> Offered(c) == c.entries
    ensures !c.Tree? ==> |Offered(c)| <= 1
  {
  }
}
