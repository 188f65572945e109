/** The bridge's archive of cooks: sampled rows in chunks, rewritten until full. */
module CookArchive {
  import opened Wrappers

  const SAMPLES_PER_CHUNK := 360

  const SAMPLE_FLUSH_S := 120.0

  datatype Row = Row(t: int, setpoint: real, mode: string, primary: Option<real>, food: seq<Option<real>>)

  // A stored chunk document: its rows and the times of the first and the last.
  datatype Chunk = Chunk(index: nat, from: int, to: int, rows: seq<Row>)

  // The cook's own document.
  datatype Head = Active | Ended(failed: bool)

  datatype Tracker = Tracker(id: Option<string>, index: nat, buffer: seq<Row>, lastSample: real, lastFlush: real)

  const NO_COOK := Tracker(None, 0, [], 0.0, 0.0)

  // An upload that raises may have reached the store or not.
  datatype Upload = Stored | StoredButRaised | Lost

  datatype Cloud = Cloud(chunks: map<(string, nat), Chunk>, heads: map<string, Head>)

  // The bridge's tracker, the store, and the rows sampled so far for each cook.
  datatype Archive = Archive(cook: Tracker, cloud: Cloud, log: map<string, seq<Row>>)

  // ----- The steps -----

  function Put(c: Cloud, key: (string, nat), chunk: Chunk, u: Upload): Cloud {
    if u.Lost? then c else c.(chunks := c.chunks[key := chunk])
  }

  function PutHead(c: Cloud, id: string, head: Head, u: Upload): Cloud {
    if u.Lost? then c else c.(heads := c.heads[id := head])
  }

  function ChunkOf(t: Tracker): Chunk
    requires t.buffer != []
  {
    Chunk(t.index, t.buffer[0].t, t.buffer[|t.buffer| - 1].t, t.buffer)
  }

  // True when the step went through without raising.
  function Flush(a: Archive, now: real, u: Upload): (Archive, bool) {
    var t := a.cook;
    if t.id.None? || t.buffer == [] then (a, true)
    else
      var cloud := Put(a.cloud, (t.id.value, t.index), ChunkOf(t), u);
      if u != Stored then (a.(cloud := cloud), false)
      else if |t.buffer| >= SAMPLES_PER_CHUNK then
        (a.(cloud := cloud, cook := t.(index := t.index + 1, buffer := [], lastFlush := now)), true)
      else (a.(cloud := cloud, cook := t.(lastFlush := now)), true)
  }

  function Start(a: Archive, id: string, now: real, u: Upload): (Archive, bool) {
    (Archive(Tracker(Some(id), 0, [], 0.0, now), PutHead(a.cloud, id, Active, u), a.log[id := []]), u == Stored)
  }

  function Sample(a: Archive, row: Row, interval: real, now: real, u: Upload): (Archive, bool)
    requires a.cook.id.Some? && a.cook.id.value in a.log
  {
    var t := a.cook;
    if now - t.lastSample < interval then (a, true)
    else
      var t' := t.(lastSample := now, buffer := t.buffer + [row]);
      var a' := a.(cook := t', log := a.log[t.id.value := a.log[t.id.value] + [row]]);
      if |t'.buffer| >= SAMPLES_PER_CHUNK || now - t.lastFlush >= SAMPLE_FLUSH_S then Flush(a', now, u) else (a', true)
  }

  function End(a: Archive, failed: bool, now: real, flush: Upload, head: Upload): (Archive, bool)
    requires a.cook.id.Some?
  {
    var (a', went) := Flush(a, now, flush);
    if !went then (a', false)
    else
      var cloud := PutHead(a'.cloud, a.cook.id.value, Ended(failed), head);
      if head != Stored then (a'.(cloud := cloud), false) else (a'.(cloud := cloud, cook := NO_COOK), true)
  }

  // What a state snapshot's mode means to the tracker.
  datatype Phase = Cooking | Over(failed: bool) | Other

  function PhaseOf(mode: Option<string>): Phase {
    if mode == Some("Stop") then Over(false)
    else if mode == Some("Error") then Over(true)
    else if mode.None? || mode.value in {"Monitor", "Manual"} then Other
    else Cooking
  }

  // One state publication: the mode seen, the row it would sample, the clock, the
  // id a cook started now would get, and how the uploads it may make turn out.
  datatype Snapshot = Snapshot(mode: Option<string>, row: Row, interval: real, now: real, newId: string,
                               first: Upload, second: Upload)

  predicate Tracked(a: Archive) { a.cook.id.Some? ==> a.cook.id.value in a.log }

  function Track(a: Archive, s: Snapshot): (a': Archive)
    requires Tracked(a)
    ensures Tracked(a')
  {
    match PhaseOf(s.mode)
    case Cooking =>
      if a.cook.id.Some? then Sample(a, s.row, s.interval, s.now, s.first).0
      else
        var (a', went) := Start(a, s.newId, s.now, s.first);
        if went then Sample(a', s.row, s.interval, s.now, s.second).0 else a'
    case Over(failed) => if a.cook.id.Some? then End(a, failed, s.now, s.first, s.second).0 else a
    case Other => a
  }

  // The bridge stops and begins anew: the tracker is lost, the store is not.
  function Restart(a: Archive): Archive { a.(cook := NO_COOK) }

  // What happens to the bridge, one thing after another.
  datatype Moment = Published(s: Snapshot) | Restarted

  function Advance(a: Archive, m: Moment): (a': Archive)
    requires Tracked(a)
    ensures Tracked(a')
  {
    match m
    case Published(s) => Track(a, s)
    case Restarted => Restart(a)
  }

  // ----- The bridge, which keeps the tracker and calls the store -----

  class Archiver {
    var cook: Tracker
    var cloud: Cloud
    ghost var log: map<string, seq<Row>>

    ghost function State(): Archive
      reads this
    {
      Archive(cook, cloud, log)
    }

    constructor ()
      ensures State() == Archive(NO_COOK, Cloud(map[], map[]), map[])
    {
      cook, cloud, log := NO_COOK, Cloud(map[], map[]), map[];
    }

    method FlushSamples(now: real, u: Upload) returns (went: bool)
      modifies this
      ensures (State(), went) == Flush(old(State()), now, u)
    {
      if cook.id.None? || cook.buffer == [] {
        return true;
      }
      cloud := Put(cloud, (cook.id.value, cook.index), ChunkOf(cook), u);
      if u != Stored {
        return false;
      }
      if |cook.buffer| >= SAMPLES_PER_CHUNK {
        cook := cook.(index := cook.index + 1);
        cook := cook.(buffer := []);
      }
      cook := cook.(lastFlush := now);
      return true;
    }

    method StartCook(id: string, now: real, u: Upload) returns (went: bool)
      modifies this
      ensures (State(), went) == Start(old(State()), id, now, u)
    {
      cook := Tracker(Some(id), 0, [], 0.0, now);
      log := log[id := []];
      cloud := PutHead(cloud, id, Active, u);
      return u == Stored;
    }

    method TakeSample(row: Row, interval: real, now: real, u: Upload) returns (went: bool)
      requires cook.id.Some? && cook.id.value in log
      modifies this
      ensures (State(), went) == Sample(old(State()), row, interval, now, u)
    {
      if now - cook.lastSample < interval {
        return true;
      }
      cook := cook.(lastSample := now);
      cook := cook.(buffer := cook.buffer + [row]);
      log := log[cook.id.value := log[cook.id.value] + [row]];
      went := true;
      if |cook.buffer| >= SAMPLES_PER_CHUNK || now - cook.lastFlush >= SAMPLE_FLUSH_S {
        went := FlushSamples(now, u);
      }
    }

    method EndCook(failed: bool, now: real, flush: Upload, head: Upload) returns (went: bool)
      requires cook.id.Some?
      modifies this
      ensures (State(), went) == End(old(State()), failed, now, flush, head)
    {
      var flushed := FlushSamples(now, flush);
      if !flushed {
        return false;
      }
      cloud := PutHead(cloud, cook.id.value, Ended(failed), head);
      if head != Stored {
        return false;
      }
      cook := NO_COOK;
      return true;
    }

    // A new bridge finds the store as it is.
    method Restarts()
      modifies this`cook
      ensures State() == Restart(old(State()))
    {
      cook := NO_COOK;
    }

    method TrackCook(s: Snapshot)
      requires Tracked(State())
      modifies this
      ensures State() == Track(old(State()), s)
    {
      var cooking := PhaseOf(s.mode).Cooking?;
      var started := cooking && cook.id.None?;
      if started {
        var went := StartCook(s.newId, s.now, s.first);
        if !went {
          return;
        }
      } else if !cooking && cook.id.Some? && s.mode.Some? && s.mode.value in {"Stop", "Error"} {
        var went := EndCook(s.mode.value == "Error", s.now, s.first, s.second);
        if !went {
          return;
        }
      }
      if cook.id.Some? && cooking {
        var _ := TakeSample(s.row, s.interval, s.now, if started then s.second else s.first);
      }
    }
  }

  // ----- What every run keeps -----

  // The rows of the first n stored chunks of a cook.
  function Rows(chunks: map<(string, nat), Chunk>, id: string, n: nat): seq<Row> {
    if n == 0 then []
    else Rows(chunks, id, n - 1) + (if (id, n - 1) in chunks then chunks[(id, n - 1)].rows else [])
  }

  // The store holds exactly n chunks of the cook, and they are its whole log.
  ghost predicate Complete(a: Archive, id: string, n: nat) {
    && id in a.log
    && Rows(a.cloud.chunks, id, n) == a.log[id]
    && forall j: nat :: (id, j) in a.cloud.chunks <==> j < n
  }

  ghost predicate WellFormed(key: (string, nat), chunk: Chunk) {
    && chunk.index == key.1 && chunk.rows != []
    && chunk.from == chunk.rows[0].t && chunk.to == chunk.rows[|chunk.rows| - 1].t
  }

  // The open cook: closed chunks followed by the buffer are the log, the open
  // chunk's document is a prefix of the buffer, and nothing lies beyond it.
  ghost predicate Open(a: Archive) {
    a.cook.id.Some? ==>
      var id, n, chunks := a.cook.id.value, a.cook.index, a.cloud.chunks;
      && id in a.log
      && a.log[id] == Rows(chunks, id, n) + a.cook.buffer
      && (forall j: nat | j < n :: (id, j) in chunks && |chunks[(id, j)].rows| >= SAMPLES_PER_CHUNK)
      && ((id, n) in chunks ==> chunks[(id, n)].rows <= a.cook.buffer)
      && (forall j: nat | (id, j) in chunks :: j <= n)
  }

  ghost predicate Refines(a: Archive) {
    && Open(a)
    && (forall key | key in a.cloud.chunks :: key.0 in a.log && WellFormed(key, a.cloud.chunks[key]))
    && (forall id | id in a.log && a.cook.id != Some(id) :: exists n :: Complete(a, id, n))
  }

  lemma {:induction false} RowsFrame(chunks: map<(string, nat), Chunk>, chunks': map<(string, nat), Chunk>,
                                     id: string, n: nat)
    requires forall j: nat | j < n :: (id, j) in chunks <==> (id, j) in chunks'
    requires forall j: nat | j < n && (id, j) in chunks :: chunks[(id, j)] == chunks'[(id, j)]
    ensures Rows(chunks, id, n) == Rows(chunks', id, n)
  {
    if n > 0 {
      RowsFrame(chunks, chunks', id, n - 1);
    }
  }

  // Documents and logs of other cooks are left alone, so they stay complete.
  lemma OthersStayComplete(a: Archive, a': Archive, active: string)
    requires forall id | id in a.log && id != active :: exists n :: Complete(a, id, n)
    requires forall id | id != active :: id in a.log <==> id in a'.log
    requires forall id | id in a.log && id != active :: a'.log[id] == a.log[id]
    requires forall key: (string, nat) | key.0 != active :: key in a.cloud.chunks <==> key in a'.cloud.chunks
    requires forall key | key in a.cloud.chunks && key.0 != active :: a'.cloud.chunks[key] == a.cloud.chunks[key]
    ensures forall id | id in a'.log && id != active :: exists n :: Complete(a', id, n)
  {
    forall id | id in a'.log && id != active ensures exists n :: Complete(a', id, n) {
      var n :| Complete(a, id, n);
      RowsFrame(a.cloud.chunks, a'.cloud.chunks, id, n);
      assert Complete(a', id, n);
    }
  }

  lemma PutKeepsOpen(a: Archive, u: Upload)
    requires Open(a) && a.cook.id.Some? && a.cook.buffer != []
    ensures Open(a.(cloud := Put(a.cloud, (a.cook.id.value, a.cook.index), ChunkOf(a.cook), u)))
  {
    var chunks := Put(a.cloud, (a.cook.id.value, a.cook.index), ChunkOf(a.cook), u).chunks;
    RowsFrame(a.cloud.chunks, chunks, a.cook.id.value, a.cook.index);
  }

  // Writing the buffer to the open chunk's document, whether or not it is heard of.
  lemma PutRefines(a: Archive, u: Upload)
    requires Refines(a) && a.cook.id.Some? && a.cook.buffer != []
    ensures Refines(a.(cloud := Put(a.cloud, (a.cook.id.value, a.cook.index), ChunkOf(a.cook), u)))
  {
    var id := a.cook.id.value;
    var a' := a.(cloud := Put(a.cloud, (id, a.cook.index), ChunkOf(a.cook), u));
    PutKeepsOpen(a, u);
    OthersStayComplete(a, a', id);
    assert WellFormed((id, a.cook.index), ChunkOf(a.cook));
    assert forall key | key in a'.cloud.chunks :: key.0 in a'.log && WellFormed(key, a'.cloud.chunks[key]);
  }

  lemma CloseKeepsOpen(a: Archive)
    requires Open(a) && a.cook.id.Some? && |a.cook.buffer| >= SAMPLES_PER_CHUNK
    requires var key := (a.cook.id.value, a.cook.index);
             key in a.cloud.chunks && a.cloud.chunks[key].rows == a.cook.buffer
    ensures Open(a.(cook := a.cook.(index := a.cook.index + 1, buffer := [])))
  {
    var id, n, chunks := a.cook.id.value, a.cook.index, a.cloud.chunks;
    assert Rows(chunks, id, n + 1) == Rows(chunks, id, n) + a.cook.buffer;
    assert (id, n + 1) !in chunks;
  }

  // Closing a chunk whose document is the whole buffer.
  lemma CloseRefines(a: Archive)
    requires Refines(a) && a.cook.id.Some? && |a.cook.buffer| >= SAMPLES_PER_CHUNK
    requires var key := (a.cook.id.value, a.cook.index);
             key in a.cloud.chunks && a.cloud.chunks[key].rows == a.cook.buffer
    ensures Refines(a.(cook := a.cook.(index := a.cook.index + 1, buffer := [])))
  {
    CloseKeepsOpen(a);
    OthersStayComplete(a, a.(cook := a.cook.(index := a.cook.index + 1, buffer := [])), a.cook.id.value);
  }

  lemma TimesDoNotMatter(a: Archive, a': Archive)
    requires Refines(a) && a'.log == a.log && a'.cloud.chunks == a.cloud.chunks
    requires a'.cook.id == a.cook.id && a'.cook.index == a.cook.index && a'.cook.buffer == a.cook.buffer
    ensures Refines(a')
  {
    forall id | id in a'.log && a'.cook.id != Some(id) ensures exists n :: Complete(a', id, n) {
      var n :| Complete(a, id, n);
      assert Complete(a', id, n);
    }
  }

  lemma ClosedRefines(a: Archive, now: real)
    requires Refines(a) && a.cook.id.Some? && |a.cook.buffer| >= SAMPLES_PER_CHUNK
    requires var key := (a.cook.id.value, a.cook.index);
             key in a.cloud.chunks && a.cloud.chunks[key].rows == a.cook.buffer
    ensures Refines(a.(cook := a.cook.(index := a.cook.index + 1, buffer := [], lastFlush := now)))
  {
    CloseRefines(a);
    TimesDoNotMatter(a.(cook := a.cook.(index := a.cook.index + 1, buffer := [])),
                     a.(cook := a.cook.(index := a.cook.index + 1, buffer := [], lastFlush := now)));
  }

  lemma FlushRefines(a: Archive, now: real, u: Upload)
    requires Refines(a)
    ensures Refines(Flush(a, now, u).0)
    ensures Flush(a, now, u).0.log == a.log && Flush(a, now, u).0.cook.id == a.cook.id
  {
    var t := a.cook;
    if t.id.Some? && t.buffer != [] {
      PutRefines(a, u);
      var key := (t.id.value, t.index);
      var put := a.(cloud := Put(a.cloud, key, ChunkOf(t), u));
      if u == Stored && |t.buffer| >= SAMPLES_PER_CHUNK {
        assert key in put.cloud.chunks && put.cloud.chunks[key].rows == t.buffer;
        ClosedRefines(put, now);
      } else {
        TimesDoNotMatter(put, Flush(a, now, u).0);
      }
    }
  }

  // An open cook whose buffer is empty or stored as it is is stored whole.
  lemma StoredIsComplete(a: Archive)
    requires Open(a) && a.cook.id.Some?
    requires var key := (a.cook.id.value, a.cook.index);
             if a.cook.buffer == [] then key !in a.cloud.chunks
             else key in a.cloud.chunks && a.cloud.chunks[key].rows == a.cook.buffer
    ensures exists n :: Complete(a, a.cook.id.value, n)
  {
    assert Complete(a, a.cook.id.value, if a.cook.buffer == [] then a.cook.index else a.cook.index + 1);
  }

  // After a flush that went through, the stored chunks are the whole log.
  lemma FlushCompletes(a: Archive, now: real)
    requires Refines(a) && a.cook.id.Some?
    ensures exists n :: Complete(Flush(a, now, Stored).0, a.cook.id.value, n)
  {
    FlushRefines(a, now, Stored);
    StoredIsComplete(Flush(a, now, Stored).0);
  }

  lemma TakeKeepsOpen(a: Archive, row: Row, now: real)
    requires Open(a) && a.cook.id.Some?
    ensures var id := a.cook.id.value;
            Open(a.(cook := a.cook.(lastSample := now, buffer := a.cook.buffer + [row]),
                    log := a.log[id := a.log[id] + [row]]))
  {
    var id, rows := a.cook.id.value, Rows(a.cloud.chunks, a.cook.id.value, a.cook.index);
    assert (rows + a.cook.buffer) + [row] == rows + (a.cook.buffer + [row]);
  }

  lemma TakeRefines(a: Archive, row: Row, now: real)
    requires Refines(a) && a.cook.id.Some?
    ensures var id := a.cook.id.value;
            Refines(a.(cook := a.cook.(lastSample := now, buffer := a.cook.buffer + [row]),
                       log := a.log[id := a.log[id] + [row]]))
  {
    var id := a.cook.id.value;
    var a' := a.(cook := a.cook.(lastSample := now, buffer := a.cook.buffer + [row]),
                 log := a.log[id := a.log[id] + [row]]);
    TakeKeepsOpen(a, row, now);
    OthersStayComplete(a, a', id);
  }

  lemma SampleRefines(a: Archive, row: Row, interval: real, now: real, u: Upload)
    requires Refines(a) && a.cook.id.Some?
    ensures Refines(Sample(a, row, interval, now, u).0)
  {
    if now - a.cook.lastSample >= interval {
      TakeRefines(a, row, now);
      var id := a.cook.id.value;
      FlushRefines(a.(cook := a.cook.(lastSample := now, buffer := a.cook.buffer + [row]),
                      log := a.log[id := a.log[id] + [row]]), now, u);
    }
  }

  // No chunk is stored under the id.
  predicate Unused(a: Archive, id: string) { forall key | key in a.cloud.chunks :: key.0 != id }

  lemma UnusedIdRefines(a: Archive, id: string, now: real, u: Upload)
    requires Refines(a) && a.cook.id in {None, Some(id)} && Unused(a, id)
    ensures Refines(Start(a, id, now, u).0)
  {
    var a' := Start(a, id, now, u).0;
    OthersStayComplete(a, a', id);
    assert Open(a') by {
      assert forall j: nat :: (id, j).0 == id;
    }
    assert forall key | key in a'.cloud.chunks :: key.0 in a'.log && WellFormed(key, a'.cloud.chunks[key]);
  }

  lemma UsedIdBreaks(a: Archive, id: string, now: real, u: Upload)
    requires Refines(a) && !Unused(a, id)
    ensures !Open(Start(a, id, now, u).0)
  {
    var key :| key in a.cloud.chunks && key.0 == id;
    assert WellFormed(key, a.cloud.chunks[key]) && key == (id, key.1);
  }

  // Starting a cook refines the log if and only if its id has no chunk stored yet:
  // otherwise the chunks of the earlier cook would pass for the rows of this one. So
  // too for a cook that a bridge begun anew reopens under the id it had.
  lemma StartRefines(a: Archive, id: string, now: real, u: Upload)
    requires Refines(a) && a.cook.id in {None, Some(id)}
    ensures Refines(Start(a, id, now, u).0) <==> Unused(a, id)
  {
    if Unused(a, id) {
      UnusedIdRefines(a, id, now, u);
    } else {
      UsedIdBreaks(a, id, now, u);
    }
  }

  lemma EndRefines(a: Archive, failed: bool, now: real, flush: Upload, head: Upload)
    requires Refines(a) && a.cook.id.Some?
    ensures Refines(End(a, failed, now, flush, head).0)
  {
    FlushRefines(a, now, flush);
    var (a', went) := Flush(a, now, flush);
    var after := End(a, failed, now, flush, head).0;
    if went && head == Stored {
      assert went ==> a' == Flush(a, now, Stored).0 || a.cook.buffer == [];
      FlushCompletes(a, now);
      forall id | id in after.log ensures exists n :: Complete(after, id, n) {
        var n :| Complete(a', id, n);
        assert Complete(after, id, n);
      }
    } else if went {
      OthersStayComplete(a', after, a.cook.id.value);
    }
  }

  // ----- Whole runs -----

  function AdvanceAll(a: Archive, moments: seq<Moment>): Archive
    requires Tracked(a)
    decreases |moments|
  {
    if moments == [] then a else AdvanceAll(Advance(a, moments[0]), moments[1..])
  }

  // The open cook's buffer is stored as it is.
  predicate StoredWhole(a: Archive) {
    a.cook.id.Some? && a.cook.buffer != [] ==>
      var key := (a.cook.id.value, a.cook.index);
      key in a.cloud.chunks && a.cloud.chunks[key].rows == a.cook.buffer
  }

  lemma OpenBecomesOther(a: Archive)
    requires Refines(a) && (a.cook.id.Some? ==> exists n :: Complete(a, a.cook.id.value, n))
    ensures Refines(Restart(a))
  {
    forall id | id in a.log ensures exists n :: Complete(Restart(a), id, n) {
      var n :| Complete(a, id, n);
      assert Complete(Restart(a), id, n);
    }
  }

  lemma LostSamples(a: Archive, n: nat)
    requires Refines(a) && a.cook.id.Some? && Complete(Restart(a), a.cook.id.value, n)
    ensures StoredWhole(a)
  {
    var id, k, chunks := a.cook.id.value, a.cook.index, a.cloud.chunks;
    assert (id, n) !in chunks && (n > 0 ==> (id, n - 1) in chunks);
    assert n == if (id, k) in chunks then k + 1 else k;
    if (id, k) in chunks {
      assert Rows(chunks, id, k) + chunks[(id, k)].rows == Rows(chunks, id, k) + a.cook.buffer;
    }
  }

  // A restart keeps the refinement if and only if no sample is waiting to be stored.
  lemma RestartRefines(a: Archive)
    requires Refines(a)
    ensures Refines(Restart(a)) <==> StoredWhole(a)
  {
    if a.cook.id.Some? {
      if StoredWhole(a) {
        StoredIsComplete(a);
        OpenBecomesOther(a);
      } else if Refines(Restart(a)) {
        var n :| Complete(Restart(a), a.cook.id.value, n);
        LostSamples(a, n);
        assert false;
      }
    } else {
      OpenBecomesOther(a);
    }
  }

  // Every cook that starts during the run gets an id without stored chunks, and a
  // restart finds no sample waiting to be stored.
  ghost predicate Sheltered(a: Archive, moments: seq<Moment>)
    requires Tracked(a)
    decreases |moments|
  {
    moments == [] ||
    (&& (match moments[0]
         case Published(s) => PhaseOf(s.mode).Cooking? && a.cook.id.None? ==> Unused(a, s.newId)
         case Restarted => StoredWhole(a))
     && Sheltered(Advance(a, moments[0]), moments[1..]))
  }

  lemma TrackRefines(a: Archive, s: Snapshot)
    requires Refines(a)
    requires PhaseOf(s.mode).Cooking? && a.cook.id.None? ==> Unused(a, s.newId)
    ensures Refines(Track(a, s))
  {
    match PhaseOf(s.mode)
    case Cooking =>
      if a.cook.id.Some? {
        SampleRefines(a, s.row, s.interval, s.now, s.first);
      } else {
        StartRefines(a, s.newId, s.now, s.first);
        SampleRefines(Start(a, s.newId, s.now, s.first).0, s.row, s.interval, s.now, s.second);
      }
    case Over(failed) =>
      if a.cook.id.Some? {
        EndRefines(a, failed, s.now, s.first, s.second);
      }
    case Other =>
  }

  // The archive refines the log of samples, at every moment of every sheltered run,
  // however the uploads turn out: open cooks hold it in closed chunks and the buffer,
  // and the stored chunks of every other cook are its whole log.
  lemma {:induction false} ArchiveRefinesLog(a: Archive, moments: seq<Moment>)
    requires Refines(a) && Sheltered(a, moments)
    ensures Refines(AdvanceAll(a, moments))
    decreases |moments|
  {
    if moments != [] {
      match moments[0] {
        case Published(s) => TrackRefines(a, s);
        case Restarted => RestartRefines(a);
      }
      ArchiveRefinesLog(Advance(a, moments[0]), moments[1..]);
    }
  }

  const EMPTY := Archive(NO_COOK, Cloud(map[], map[]), map[])

  lemma ArchiveRefinesLogFromStart(moments: seq<Moment>)
    requires Sheltered(EMPTY, moments)
    ensures Refines(AdvanceAll(EMPTY, moments))
  {
    ArchiveRefinesLog(EMPTY, moments);
  }

  // A run that a restart may not follow: one cook with a single row, not stored yet.
  lemma UnstoredSampleIsLost(row: Row, interval: real, now: real)
    requires 0.0 <= interval <= now
    ensures var cooking := Published(Snapshot(Some("Hold"), row, interval, now, "c_1", Stored, Stored));
            var a := AdvanceAll(EMPTY, [cooking]);
            Refines(a) && !StoredWhole(a) && !Refines(Restart(a))
  {
    var cooking := Snapshot(Some("Hold"), row, interval, now, "c_1", Stored, Stored);
    var open := Track(EMPTY, cooking);
    assert open.cook == Tracker(Some("c_1"), 0, [row], now, now);
    assert [Published(cooking)][1..] == [];
    assert AdvanceAll(EMPTY, [Published(cooking)]) == AdvanceAll(open, []) == open;
    TrackRefines(EMPTY, cooking);
    RestartRefines(open);
  }

  // A run that reaches the failing side: one cook of a single row, ended, and another
  // started within the same second.
  lemma SecondCookClashes(row: Row, interval: real, now: real)
    requires 0.0 <= interval <= now
    ensures var cooking := Published(Snapshot(Some("Hold"), row, interval, now, "c_1", Stored, Stored));
            var stopped := Published(Snapshot(Some("Stop"), row, interval, now, "c_1", Stored, Stored));
            var a := AdvanceAll(EMPTY, [cooking, stopped]);
            && Refines(a) && a.cook.id.None? && !Unused(a, "c_1") && !Refines(Start(a, "c_1", now, Stored).0)
  {
    var cooking := Snapshot(Some("Hold"), row, interval, now, "c_1", Stored, Stored);
    var stopped := Snapshot(Some("Stop"), row, interval, now, "c_1", Stored, Stored);
    var open := Track(EMPTY, cooking);
    assert open.cook == Tracker(Some("c_1"), 0, [row], now, now);
    var a := Track(open, stopped);
    assert ("c_1", 0) in a.cloud.chunks;
    assert [Published(cooking), Published(stopped)][1..] == [Published(stopped)];
    assert [Published(stopped)][1..] == [];
    assert AdvanceAll(EMPTY, [Published(cooking), Published(stopped)])
        == AdvanceAll(open, [Published(stopped)]) == AdvanceAll(a, []) == a;
    TrackRefines(EMPTY, cooking);
    TrackRefines(open, stopped);
    StartRefines(a, "c_1", now, Stored);
  }

  // A cook that ends with both uploads through is stored whole, and its own
  // document says so.
  lemma EndedCookIsComplete(a: Archive, failed: bool, now: real)
    requires Refines(a) && a.cook.id.Some?
    ensures var id, a' := a.cook.id.value, End(a, failed, now, Stored, Stored).0;
            && a'.cook == NO_COOK && a'.log == a.log
            && id in a'.cloud.heads && a'.cloud.heads[id] == Ended(failed)
            && exists n :: Complete(a', id, n)
  {
    EndRefines(a, failed, now, Stored, Stored);
    FlushRefines(a, now, Stored);
  }

  // While no upload fails, chunks close at exactly 360 rows.
  ghost predicate Exact(a: Archive) {
    a.cook.id.Some? ==>
      && |a.cook.buffer| < 360
      && forall j: nat | j < a.cook.index && (a.cook.id.value, j) in a.cloud.chunks ::
           |a.cloud.chunks[(a.cook.id.value, j)].rows| == 360
  }

  lemma {:induction false} ChunksCloseExactly(a: Archive, moments: seq<Moment>)
    requires Tracked(a) && Exact(a)
    requires forall m | m in moments && m.Published? :: m.s.first == m.s.second == Stored
    ensures Exact(AdvanceAll(a, moments))
    decreases |moments|
  {
    if moments != [] {
      ChunksCloseExactly(Advance(a, moments[0]), moments[1..]);
    }
  }
}
