/** The bridge's handling of cloud commands, delivered any number of times. */
module CloudCommands {
  import opened Wrappers
  import opened Documents
  import opened SettingsSchema

  const MAX_AGE_MS := 30000.0

  const NONCE_MEMORY := 500

  // ----- Nonces -----

  // A nonce as a dictionary key: numbers and truth values share keys by value.
  datatype Key = Text(s: string) | Number(r: real)

  predicate Truthy(j: Json) {
    !Falsy(j) && j != List([]) && j != Obj(map[])
  }

  // Unhashable values have no key; looking one up raises.
  function KeyOf(j: Json): Option<Key> {
    match j
    case Str(s) => Some(Text(s))
    case _ => if Numeric(j).Some? then Some(Number(Numeric(j).value)) else None
  }

  function Remember(seen: seq<Key>, nonce: Key): (seq<Key>, bool) {
    if nonce in seen then (seen, false)
    else
      var grown := seen + [nonce];
      (if |grown| > NONCE_MEMORY then grown[|grown| - NONCE_MEMORY..] else grown, true)
  }

  // ----- One command -----

  // What the world does during one call: the clock in milliseconds, whether the
  // owner allows cloud control, which commands the cloud may issue, how executing
  // the command ends, and whether publishing the new state succeeds.
  datatype Execution = Accepted | Refused | Crashes

  datatype Env = Env(now: real, enabled: bool, allowed: set<string>, execution: Execution, published: bool)

  datatype Write = Acked | Done | Failed | Rejected

  datatype Result = Ignored | Returned(status: Write) | Raised

  // One execution: the place its nonce took in the log of remembered nonces, and
  // how old the command was by its own account.
  datatype Run = Run(id: string, nonce: Key, place: nat, now: real, created: real)

  // `log` is every nonce ever remembered, in order; `seen` is what the bridge keeps.
  datatype Memory = Memory(seen: seq<Key>, log: seq<Key>, runs: seq<Run>)

  datatype Handled = Handled(memory: Memory, writes: seq<Write>, result: Result)

  function Field(cmd: Doc, k: string): Json { if k in cmd then cmd[k] else Null }

  predicate Pending(cmd: Json) { cmd.Obj? && Field(cmd.fields, "status") == Str("pending") }

  function Reject(m: Memory): Handled { Handled(m, [Rejected], Returned(Rejected)) }

  // The checks after the nonce was remembered, and the execution itself.
  function Authorise(m: Memory, id: string, cmd: Doc, run: Run, env: Env): Handled {
    var name := Field(cmd, "name");
    if !env.enabled then Reject(m)
    else if name.Obj? || name.List? then Handled(m, [], Raised)
    else if !(name.Str? && name.s in env.allowed) then Reject(m)
    else
      var ran := m.(runs := m.runs + [run]);
      match env.execution
      case Accepted => Handled(ran, [Acked, Done], if env.published then Returned(Done) else Raised)
      case Refused => Handled(ran, [Acked, Failed], Returned(Failed))
      case Crashes => Handled(ran, [Acked], Raised)
  }

  function Handle(m: Memory, id: string, cmd: Json, env: Env): Handled {
    if !Pending(cmd) then Handled(m, [], Ignored)
    else
      var created, nonce := Numeric(Field(cmd.fields, "createdAt")), Field(cmd.fields, "nonce");
      if created.None? || Abs(env.now - created.value) > MAX_AGE_MS || !Truthy(nonce) then Reject(m)
      else if KeyOf(nonce).None? then Handled(m, [], Raised)
      else
        var key := KeyOf(nonce).value;
        var (seen, isNew) := Remember(m.seen, key);
        if !isNew then Reject(m)
        else
          var run := Run(id, key, |m.log|, env.now, created.value);
          Authorise(m.(seen := seen, log := m.log + [key]), id, cmd.fields, run, env)
  }

  // One entry of a stream or a drain, with what the world does meanwhile.
  datatype Delivery = Delivery(id: string, cmd: Json, env: Env)

  function Deliver(m: Memory, ds: seq<Delivery>): Memory
    decreases |ds|, 1
  {
    if ds == [] then m else DeliverOn(m, ds)
  }

  function DeliverOn(m: Memory, ds: seq<Delivery>): Memory
    requires ds != []
    decreases |ds|, 0
  {
    Deliver(Handle(m, ds[0].id, ds[0].cmd, ds[0].env).memory, ds[1..])
  }

  // The status writes attempted over a run of deliveries, each with its command.
  function Tagged(id: string, writes: seq<Write>): seq<(string, Write)> {
    seq(|writes|, i requires 0 <= i < |writes| => (id, writes[i]))
  }

  function Attempts(m: Memory, ds: seq<Delivery>): seq<(string, Write)>
    decreases |ds|, 1
  {
    if ds == [] then [] else AttemptsOn(m, ds)
  }

  function AttemptsOn(m: Memory, ds: seq<Delivery>): seq<(string, Write)>
    requires ds != []
    decreases |ds|, 0
  {
    var h := Handle(m, ds[0].id, ds[0].cmd, ds[0].env);
    Tagged(ds[0].id, h.writes) + Attempts(h.memory, ds[1..])
  }

  // The commands of a run of deliveries, and the pending ones of a read.
  function Commands(ds: seq<Delivery>): seq<(string, Json)> {
    seq(|ds|, i requires 0 <= i < |ds| => (ds[i].id, ds[i].cmd))
  }

  function PendingOf(found: seq<(string, Json)>): seq<(string, Json)>
    decreases |found|
  {
    if found == [] then []
    else
      var init, last := found[..|found| - 1], found[|found| - 1];
      PendingOf(init) + (if Pending(last.1) then [last] else [])
  }

  lemma {:induction false} PendingOfPrefix(found: seq<(string, Json)>, n: nat)
    requires n <= |found|
    ensures PendingOf(found[..n]) <= PendingOf(found)
    decreases |found| - n
  {
    if n == |found| {
      assert found[..n] == found;
    } else {
      PendingOfPrefix(found, n + 1);
      assert found[..n + 1][..n] == found[..n];
    }
  }

  // A change of the command tree as the stream reports it: of the whole tree, or of
  // one child, put or patched. `stored` is what a second read of the child gives.
  datatype Change =
    | Tree(entries: seq<(string, Json)>)
    | Put(id: string, payload: Json)
    | Patch(id: string, payload: Json, stored: Json)

  // The commands a change has the bridge look at.
  function Offered(c: Change): seq<(string, Json)> {
    match c
    case Tree(entries) => entries
    case Put(id, payload) => if payload.Obj? then [(id, payload)] else []
    case Patch(id, payload, stored) => if Pending(payload) then [(id, stored)] else []
  }

  // One connection of the listener: what a drain finds, then the changes streamed,
  // with what the world does at each command.
  datatype Connection = Connection(found: seq<(string, Json)>, envs: seq<Env>, changes: seq<(Change, seq<Env>)>)

  predicate Covered(c: Connection) {
    && |c.envs| == |c.found|
    && forall i | 0 <= i < |c.changes| :: |c.changes[i].1| == |Offered(c.changes[i].0)|
  }

  lemma {:induction false} DeliverAll(m: Memory, ds: seq<Delivery>, ds': seq<Delivery>)
    ensures Deliver(m, ds + ds') == Deliver(Deliver(m, ds), ds')
    ensures Attempts(m, ds + ds') == Attempts(m, ds) + Attempts(Deliver(m, ds), ds')
    decreases |ds|
  {
    if ds == [] {
      assert ds + ds' == ds';
    } else {
      DeliverAll(Handle(m, ds[0].id, ds[0].cmd, ds[0].env).memory, ds[1..], ds');
      assert (ds + ds')[1..] == ds[1..] + ds';
    }
  }

  lemma DeliverOne(m: Memory, d: Delivery)
    ensures Deliver(m, [d]) == Handle(m, d.id, d.cmd, d.env).memory
    ensures Attempts(m, [d]) == Tagged(d.id, Handle(m, d.id, d.cmd, d.env).writes)
  {
    assert [d][1..] == [];
    assert Deliver(m, [d]) == DeliverOn(m, [d]) && Attempts(m, [d]) == AttemptsOn(m, [d]);
    var h := Handle(m, d.id, d.cmd, d.env);
    assert Deliver(h.memory, []) == h.memory && Attempts(h.memory, []) == [];
  }

  lemma DeliverLast(m: Memory, ds: seq<Delivery>, d: Delivery)
    ensures var h := Handle(Deliver(m, ds), d.id, d.cmd, d.env);
            && Deliver(m, ds + [d]) == h.memory
            && Attempts(m, ds + [d]) == Attempts(m, ds) + Tagged(d.id, h.writes)
  {
    DeliverAll(m, ds, [d]);
    DeliverOne(Deliver(m, ds), d);
  }

  // ----- What any deliveries keep -----

  function Max0(n: int): nat { if n < 0 then 0 else n }

  // The bridge remembers exactly the latest 500 nonces, and equal nonces are over 500
  // apart in the log.
  ghost predicate SoundLog(seen: seq<Key>, log: seq<Key>) {
    && seen == log[Max0(|log| - 500)..]
    && forall i, j | 0 <= i < j < |log| && log[i] == log[j] :: j - i > 500
  }

  // Every execution has a place of its own in the log, and was recent.
  ghost predicate SoundRuns(runs: seq<Run>, log: seq<Key>) {
    && (forall i | 0 <= i < |runs| :: runs[i].place < |log| && log[runs[i].place] == runs[i].nonce)
    && (forall i, j | 0 <= i < j < |runs| :: runs[i].place < runs[j].place)
    && (forall i | 0 <= i < |runs| :: Abs(runs[i].now - runs[i].created) <= MAX_AGE_MS)
  }

  ghost predicate Sound(m: Memory) { SoundLog(m.seen, m.log) && SoundRuns(m.runs, m.log) }

  lemma RememberKeepsSound(m: Memory, nonce: Key)
    requires Sound(m) && Remember(m.seen, nonce).1
    ensures Sound(m.(seen := Remember(m.seen, nonce).0, log := m.log + [nonce]))
  {
    var log, log' := m.log, m.log + [nonce];
    assert SoundRuns(m.runs, log');
    var base := Max0(|log| - NONCE_MEMORY);
    forall i | base <= i < |log| ensures log[i] != nonce {
      assert log[i] == m.seen[i - base];
    }
    assert m.seen + [nonce] == log'[base..];
  }

  lemma AuthoriseKeepsSound(m: Memory, id: string, cmd: Doc, run: Run, env: Env)
    requires Sound(m) && run.place + 1 == |m.log| && m.log[run.place] == run.nonce
    requires forall i | 0 <= i < |m.runs| :: m.runs[i].place < run.place
    requires Abs(run.now - run.created) <= MAX_AGE_MS
    ensures Sound(Authorise(m, id, cmd, run, env).memory)
  {
    assert SoundRuns(m.runs + [run], m.log);
  }

  lemma HandleKeepsSound(m: Memory, id: string, cmd: Json, env: Env)
    requires Sound(m)
    ensures Sound(Handle(m, id, cmd, env).memory)
  {
    var m' := Handle(m, id, cmd, env).memory;
    if m' != m {
      var key := KeyOf(Field(cmd.fields, "nonce")).value;
      var created := Numeric(Field(cmd.fields, "createdAt")).value;
      var remembered := m.(seen := Remember(m.seen, key).0, log := m.log + [key]);
      assert Sound(remembered) by { RememberKeepsSound(m, key); }
      AuthoriseKeepsSound(remembered, id, cmd.fields, Run(id, key, |m.log|, env.now, created), env);
    }
  }

  lemma {:induction false} DeliveriesKeepSound(m: Memory, ds: seq<Delivery>)
    requires Sound(m)
    ensures Sound(Deliver(m, ds))
    decreases |ds|
  {
    if ds != [] {
      HandleKeepsSound(m, ds[0].id, ds[0].cmd, ds[0].env);
      DeliveriesKeepSound(Handle(m, ds[0].id, ds[0].cmd, ds[0].env).memory, ds[1..]);
    }
  }

  // At most once: whatever is delivered, in whatever order and however often, two
  // executions with the same nonce have 500 other nonces remembered between them.
  lemma AtMostOnce(ds: seq<Delivery>, i: nat, j: nat)
    requires var runs := Deliver(Memory([], [], []), ds).runs;
             i < j < |runs| && runs[i].nonce == runs[j].nonce
    ensures var m := Deliver(Memory([], [], []), ds);
            && m.runs[i].place + 500 < m.runs[j].place < |m.log|
            && forall k | m.runs[i].place < k <= m.runs[i].place + 500 :: m.log[k] != m.runs[i].nonce
  {
    DeliveriesKeepSound(Memory([], [], []), ds);
  }

  lemma Triangle(r: Run, r': Run)
    requires Abs(r.now - r.created) <= MAX_AGE_MS && Abs(r'.now - r'.created) <= MAX_AGE_MS && r.created == r'.created
    ensures Abs(r.now - r'.now) <= 2.0 * MAX_AGE_MS
  {
  }

  // Two executions that claim the same creation time are within a minute: with
  // DeliveriesKeepSound, at any moment of any run.
  lemma RepeatsAreClose(m: Memory, i: nat, j: nat)
    requires Sound(m) && i < |m.runs| && j < |m.runs| && m.runs[i].created == m.runs[j].created
    ensures Abs(m.runs[i].now - m.runs[j].now) <= 2.0 * MAX_AGE_MS
  {
    Triangle(m.runs[i], m.runs[j]);
  }

  // Every call's status writes: none for what is not pending, a single rejection,
  // or an acknowledgement before the outcome. It executes exactly in the last case,
  // and only what was new, recent, enabled and allowed.
  lemma StatusProtocol(m: Memory, id: string, cmd: Json, env: Env)
    ensures var h := Handle(m, id, cmd, env);
            && (h.result.Ignored? <==> !Pending(cmd))
            && (h.writes in {[], [Rejected], [Acked], [Acked, Done], [Acked, Failed]})
            && (h.writes == [] || h.writes == [Acked] ==> !h.result.Returned?)
            && (h.result.Returned? ==> h.writes[|h.writes| - 1] == h.result.status)
            && (h.memory.runs != m.runs <==> h.writes != [] && h.writes[0] == Acked)
            && (h.memory.runs != m.runs ==>
                  && env.enabled && Field(cmd.fields, "name").Str? && Field(cmd.fields, "name").s in env.allowed
                  && KeyOf(Field(cmd.fields, "nonce")).Some? && KeyOf(Field(cmd.fields, "nonce")).value !in m.seen)
  {
  }

  // The commands acknowledged over a run of deliveries, in order.
  function AckedIds(m: Memory, ds: seq<Delivery>): seq<string>
    decreases |ds|
  {
    if ds == [] then []
    else
      var h := Handle(m, ds[0].id, ds[0].cmd, ds[0].env);
      (if Acked in h.writes then [ds[0].id] else []) + AckedIds(h.memory, ds[1..])
  }

  function RunIds(runs: seq<Run>): seq<string> {
    seq(|runs|, i requires 0 <= i < |runs| => runs[i].id)
  }

  lemma HandleAppends(m: Memory, id: string, cmd: Json, env: Env)
    ensures var h := Handle(m, id, cmd, env);
            m.runs <= h.memory.runs && RunIds(h.memory.runs[|m.runs|..]) == if Acked in h.writes then [id] else []
  {
  }

  lemma RunIdsSplit(first: seq<Run>, second: seq<Run>, third: seq<Run>)
    requires first <= second <= third
    ensures RunIds(third[|first|..]) == RunIds(second[|first|..]) + RunIds(third[|second|..])
  {
  }

  // The executions of any run are exactly the commands it acknowledged, in order.
  lemma {:induction false} ExecutedExactlyAcked(m: Memory, ds: seq<Delivery>)
    ensures m.runs <= Deliver(m, ds).runs
    ensures AckedIds(m, ds) == RunIds(Deliver(m, ds).runs[|m.runs|..])
    decreases |ds|
  {
    if ds != [] {
      var h := Handle(m, ds[0].id, ds[0].cmd, ds[0].env);
      HandleAppends(m, ds[0].id, ds[0].cmd, ds[0].env);
      ExecutedExactlyAcked(h.memory, ds[1..]);
      RunIdsSplit(m.runs, h.memory.runs, Deliver(h.memory, ds[1..]).runs);
    }
  }

  // ----- The bridge -----

  class Bridge {
    var seen: seq<Key>
    ghost var log: seq<Key>
    ghost var runs: seq<Run>
    // Status writes attempted so far. A write that fails is reported and dropped.
    ghost var attempts: seq<(string, Write)>

    ghost function State(): Memory
      reads this
    {
      Memory(seen, log, runs)
    }

    // The bridge after a run of deliveries.
    ghost predicate Ran(m: Memory, before: seq<(string, Write)>, ds: seq<Delivery>)
      reads this
    {
      State() == Deliver(m, ds) && attempts == before + Attempts(m, ds)
    }

    constructor ()
      ensures State() == Memory([], [], []) && attempts == []
    {
      seen, log, runs, attempts := [], [], [], [];
    }

    method RememberNonce(nonce: Key) returns (isNew: bool)
      modifies this`seen, this`log
      ensures (seen, isNew) == Remember(old(seen), nonce)
      ensures log == if isNew then old(log) + [nonce] else old(log)
    {
      if nonce in seen {
        return false;
      }
      seen := seen + [nonce];
      log := log + [nonce];
      while |seen| > NONCE_MEMORY
        invariant |seen| <= |old(seen)| + 1 && log == old(log) + [nonce]
        invariant seen == (old(seen) + [nonce])[|old(seen)| + 1 - |seen|..]
        invariant |seen| == |old(seen)| + 1 || |seen| >= NONCE_MEMORY
      {
        seen := seen[1..];
      }
      return true;
    }

    method SetStatus(id: string, status: Write)
      modifies this`attempts
      ensures attempts == old(attempts) + [(id, status)]
    {
      attempts := attempts + [(id, status)];
    }

    method HandleCommand(id: string, cmd: Json, env: Env) returns (result: Result)
      modifies this
      ensures var h := Handle(old(State()), id, cmd, env);
              && State() == h.memory && result == h.result
              && attempts == old(attempts) + Tagged(id, h.writes)
    {
      if !Pending(cmd) {
        return Ignored;
      }
      var created, nonce := Numeric(Field(cmd.fields, "createdAt")), Field(cmd.fields, "nonce");
      var name := Field(cmd.fields, "name");
      var reject := false;
      var key := KeyOf(nonce);
      if created.None? || Abs(env.now - created.value) > MAX_AGE_MS || !Truthy(nonce) {
        reject := true;
      } else if key.None? {
        return Raised;
      } else {
        var isNew := RememberNonce(key.value);
        if !isNew || !env.enabled {
          reject := true;
        } else if name.Obj? || name.List? {
          return Raised;
        } else {
          reject := !(name.Str? && name.s in env.allowed);
        }
      }
      if reject {
        SetStatus(id, Rejected);
        return Returned(Rejected);
      }
      SetStatus(id, Acked);
      runs := runs + [Run(id, key.value, |old(log)|, env.now, created.value)];
      match env.execution {
        case Accepted =>
          SetStatus(id, Done);
          return if env.published then Returned(Done) else Raised;
        case Refused =>
          SetStatus(id, Failed);
          return Returned(Failed);
        case Crashes =>
          return Raised;
      }
    }

    // Handles one command more. `prior` is the run of deliveries before it.
    method HandleNext(id: string, cmd: Json, env: Env, ghost m: Memory, ghost before: seq<(string, Write)>,
                      ghost prior: seq<Delivery>)
      returns (result: Result, ghost ds: seq<Delivery>)
      requires Ran(m, before, prior)
      modifies this
      ensures Ran(m, before, ds) && |ds| == |prior| + 1 && Commands(ds) == Commands(prior) + [(id, cmd)]
    {
      ghost var d := Delivery(id, cmd, env);
      DeliverLast(m, prior, d);
      result := HandleCommand(id, cmd, env);
      ds := prior + [d];
    }

    // Handles what is pending among the documents read, in the order given, until
    // one raises. `handled` counts the calls that returned.
    method DrainPending(found: seq<(string, Json)>, envs: seq<Env>)
      returns (handled: nat, ok: bool, ghost ds: seq<Delivery>)
      requires |envs| == |found|
      modifies this
      ensures Ran(old(State()), old(attempts), ds)
      ensures Commands(ds) <= PendingOf(found) && (ok ==> Commands(ds) == PendingOf(found))
      ensures |ds| == if ok then handled else handled + 1
    {
      handled, ok, ds := 0, true, [];
      for i := 0 to |found|
        invariant handled == |ds|
        invariant Ran(old(State()), old(attempts), ds)
        invariant Commands(ds) == PendingOf(found[..i])
      {
        assert found[..i + 1][..i] == found[..i];
        if Pending(found[i].1) {
          var result;
          result, ds := HandleNext(found[i].0, found[i].1, envs[i], old(State()), old(attempts), ds);
          if result.Raised? {
            PendingOfPrefix(found, i + 1);
            ok := false;
            return;
          }
          handled := handled + 1;
        }
      }
      assert found[..|found|] == found;
    }

    // Handles what a change offers, until one raises.
    method OnChange(c: Change, envs: seq<Env>) returns (ok: bool, ghost ds: seq<Delivery>)
      requires |envs| == |Offered(c)|
      modifies this
      ensures Ran(old(State()), old(attempts), ds)
      ensures Commands(ds) <= Offered(c) && (ok ==> Commands(ds) == Offered(c))
    {
      var offered := Offered(c);
      ok, ds := true, [];
      for i := 0 to |offered|
        invariant Ran(old(State()), old(attempts), ds)
        invariant Commands(ds) == offered[..i]
      {
        var result;
        result, ds := HandleNext(offered[i].0, offered[i].1, envs[i], old(State()), old(attempts), ds);
        if result.Raised? {
          return false, ds;
        }
      }
    }

    // One connection: drain first, then follow the stream until something raises or
    // it ends.
    method Follow(c: Connection) returns (ghost ds: seq<Delivery>)
      requires Covered(c)
      modifies this
      ensures Ran(old(State()), old(attempts), ds)
    {
      var _, ok, drained := DrainPending(c.found, c.envs);
      ds := drained;
      var k := 0;
      while ok && k < |c.changes|
        invariant 0 <= k <= |c.changes|
        invariant Ran(old(State()), old(attempts), ds)
      {
        ghost var more;
        ok, more := OnChange(c.changes[k].0, c.changes[k].1);
        DeliverAll(old(State()), ds, more);
        ds, k := ds + more, k + 1;
      }
    }

    // The listener, over any number of connections. Whatever happens is a run of
    // deliveries: what deliveries keep, the bridge keeps, and the status writes it
    // attempted are those of its deliveries, in order.
    method Listen(connections: seq<Connection>) returns (ghost ds: seq<Delivery>)
      requires forall i | 0 <= i < |connections| :: Covered(connections[i])
      modifies this
      ensures Ran(old(State()), old(attempts), ds)
      ensures old(Sound(State())) ==> Sound(State())
    {
      ds := [];
      for i := 0 to |connections|
        invariant Ran(old(State()), old(attempts), ds)
      {
        ghost var more := Follow(connections[i]);
        DeliverAll(old(State()), ds, more);
        ds := ds + more;
      }
      if old(Sound(State())) { DeliveriesKeepSound(old(State()), ds); }
    }
  }
}
