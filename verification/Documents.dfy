/** JSON documents and the deep merge that applies a partial document to one. */
module Documents {
  import opened Wrappers

  datatype Json =
    | Null | Bool(b: bool) | Int(n: int) | Float(r: real) | Str(s: string)
    | List(items: seq<Json>) | Obj(fields: Doc)

  type Doc = map<string, Json>

  type Path = seq<string>

  function Wrap(d: Option<Doc>): Option<Json> {
    if d.Some? then Some(Obj(d.value)) else None
  }

  function Get(d: Doc, k: string): Option<Json> {
    if k in d then Some(d[k]) else None
  }

  // deep_update on one value: a mapping is merged into what is there, or into an
  // empty mapping; anything else replaces it. A non-empty mapping that meets
  // something other than a mapping raises; an empty one leaves it as it is.
  function MergeValue(base: Option<Json>, v: Json): Option<Json>
    decreases v, 1
  {
    if !v.Obj? then Some(v)
    else match base
      case None => Wrap(Merge(map[], v.fields))
      case Some(Obj(fields)) => Wrap(Merge(fields, v.fields))
      case Some(scalar) => if v.fields == map[] then Some(scalar) else None
  }

  function Merge(base: Doc, patch: Doc): Option<Doc>
    decreases Obj(patch), 0
  {
    if exists k | k in patch :: MergeValue(Get(base, k), patch[k]).None? then None
    else Some(map k | k in base.Keys + patch.Keys ::
      if k in patch then MergeValue(Get(base, k), patch[k]).value else base[k])
  }

  // What the merge puts at one key.
  function MergedAt(base: Doc, patch: Doc, k: string): Option<Json> {
    if k in patch then MergeValue(Get(base, k), patch[k]) else Get(base, k)
  }

  lemma MergeElim(base: Doc, patch: Doc)
    requires Merge(base, patch).Some?
    ensures forall k :: Get(Merge(base, patch).value, k) == MergedAt(base, patch, k)
    ensures forall k | k in patch :: MergedAt(base, patch, k).Some?
  {
  }

  lemma SameDoc(d: Doc, d': Doc)
    requires forall k :: Get(d, k) == Get(d', k)
    ensures d == d'
  {
    forall k ensures k in d <==> k in d' {
      assert Get(d, k) == Get(d', k);
    }
    forall k | k in d ensures d[k] == d'[k] {
      assert Get(d, k) == Get(d', k);
    }
  }

  lemma MergeIntro(base: Doc, patch: Doc, merged: Doc)
    requires forall k :: Get(merged, k) == MergedAt(base, patch, k)
    requires forall k | k in patch :: k in merged
    ensures Merge(base, patch) == Some(merged)
  {
    forall k | k in patch ensures MergeValue(Get(base, k), patch[k]) == Some(merged[k]) {
      assert Get(merged, k) == MergedAt(base, patch, k);
    }
    assert Merge(base, patch).Some?;
    MergeElim(base, patch);
    SameDoc(Merge(base, patch).value, merged);
  }

  // The same merge as the program runs it: key by key, writing into the document
  // it was given, and stopping at the first key that raises.
  method DeepUpdate(base: Doc, patch: Doc) returns (result: Option<Doc>)
    ensures result == Merge(base, patch)
    decreases Obj(patch)
  {
    var dictionary := base;
    var pending := patch.Keys;
    while pending != {}
      invariant pending <= patch.Keys
      invariant dictionary.Keys == base.Keys + (patch.Keys - pending)
      invariant forall k | k in patch.Keys - pending :: MergeValue(Get(base, k), patch[k]) == Some(dictionary[k])
      invariant forall k | k in base && (k !in patch || k in pending) :: dictionary[k] == base[k]
    {
      var key :| key in pending;
      pending := pending - {key};
      var value := patch[key];
      assert Get(dictionary, key) == Get(base, key);
      if value.Obj? {
        if key in dictionary && !dictionary[key].Obj? {
          if value.fields != map[] {
            return None;
          }
        } else {
          var inner := DeepUpdate(if key in dictionary then dictionary[key].fields else map[], value.fields);
          if inner.None? {
            return None;
          }
          dictionary := dictionary[key := Obj(inner.value)];
        }
      } else {
        dictionary := dictionary[key := value];
      }
    }
    assert forall k :: Get(dictionary, k) == MergedAt(base, patch, k);
    MergeIntro(base, patch, dictionary);
    return Some(dictionary);
  }

  // ----- Laws of the merge -----

  lemma {:induction false} MergeIntoEmpty(patch: Doc)
    ensures Merge(map[], patch) == Some(patch)
    decreases Obj(patch)
  {
    forall k ensures MergedAt(map[], patch, k) == Get(patch, k) {
      if k in patch && patch[k].Obj? {
        MergeIntoEmpty(patch[k].fields);
      }
    }
    MergeIntro(map[], patch, patch);
  }

  // Composition of partial merges.
  function Then(base: Option<Doc>, patch: Option<Doc>): Option<Doc> {
    if base.Some? && patch.Some? then Merge(base.value, patch.value) else None
  }

  // Merges that agree key by key agree, as partial values.
  lemma SameMerge(a: Doc, p: Doc, b: Doc, q: Doc)
    requires forall k :: MergedAt(a, p, k) == MergedAt(b, q, k)
    requires p.Keys <= q.Keys && q.Keys <= a.Keys + p.Keys
    ensures Merge(a, p) == Merge(b, q)
  {
    if Merge(a, p).Some? {
      MergeElim(a, p);
      MergeIntro(b, q, Merge(a, p).value);
    } else if Merge(b, q).Some? {
      MergeElim(b, q);
      MergeIntro(a, p, Merge(b, q).value);
    }
  }

  // One key of both bracketings.
  lemma {:induction false} KeyAssociative(a: Option<Json>, b: Option<Json>, c: Json)
    requires b.Some? ==> MergeValue(a, b.value).Some?
    ensures MergeValue(if b.Some? then MergeValue(a, b.value) else a, c)
         == if MergeValue(b, c).Some? then MergeValue(a, MergeValue(b, c).value) else None
    decreases c, 1
  {
    if c.Obj? {
      MergeIntoEmpty(c.fields);
      if b.Some? && b.value.Obj? {
        MergeIntoEmpty(b.value.fields);
        if a.Some? && a.value.Obj? {
          MergeAssociative(a.value.fields, b.value.fields, c.fields);
        } else if Merge(b.value.fields, c.fields).Some? {
          MergeIntoEmpty(Merge(b.value.fields, c.fields).value);
        }
      }
    }
  }

  // Once a.b is defined, (a.b).c and a.(b.c) are the same partial value.
  lemma {:induction false} MergeAssociative(a: Doc, b: Doc, c: Doc)
    requires Merge(a, b).Some?
    ensures Then(Merge(a, b), Some(c)) == Then(Some(a), Merge(b, c))
    decreases Obj(c), 0
  {
    var ab := Merge(a, b).value;
    MergeElim(a, b);
    forall k | k in c
      ensures MergedAt(ab, c, k)
           == if MergedAt(b, c, k).Some? then MergeValue(Get(a, k), MergedAt(b, c, k).value) else None
    {
      assert Get(ab, k) == MergedAt(a, b, k);
      KeyAssociative(Get(a, k), Get(b, k), c[k]);
    }
    if Merge(b, c).None? {
      var k :| k in c && MergeValue(Get(b, k), c[k]).None?;
      assert MergedAt(b, c, k).None?;
    } else {
      var bc := Merge(b, c).value;
      MergeElim(b, c);
      forall k ensures MergedAt(ab, c, k) == MergedAt(a, bc, k) {
        assert Get(bc, k) == MergedAt(b, c, k);
        assert Get(ab, k) == MergedAt(a, b, k);
      }
      SameMerge(ab, c, a, bc);
    }
  }

  // Wherever b does not merge into a, a later c replaces what b put there, or
  // repairs it further down.
  ghost predicate Covers(a: Doc, b: Doc, c: Doc)
    decreases Obj(c)
  {
    forall k | k in b && MergeValue(Get(a, k), b[k]).None? ::
      k in c && (!c[k].Obj? || (k in a && a[k].Obj? && b[k].Obj? && Covers(a[k].fields, b[k].fields, c[k].fields)))
  }

  lemma MergedCovers(a: Doc, b: Doc, c: Doc)
    requires Merge(a, b).Some?
    ensures Covers(a, b, c)
  {
    MergeElim(a, b);
    forall k | k in b ensures MergeValue(Get(a, k), b[k]).Some? {
      assert MergedAt(a, b, k).Some?;
    }
  }

  lemma EmptyMerge(b: Doc, c: Doc)
    requires Merge(b, c).Some?
    ensures Merge(b, c).value == map[] <==> b == map[] && c == map[]
  {
    if Merge(b, c).value == map[] {
      assert Merge(b, c).value.Keys == b.Keys + c.Keys;
      assert b.Keys == {} && c.Keys == {};
    }
  }

  // One key of the merge of a with the merge of b and c.
  lemma {:induction false} KeyCovered(a: Option<Json>, b: Option<Json>, c: Json)
    requires MergeValue(b, c).Some?
    ensures MergeValue(a, MergeValue(b, c).value).Some? <==>
      && MergeValue(a, c).Some?
      && (b.Some? && MergeValue(a, b.value).None? ==>
            !c.Obj? || (a.Some? && a.value.Obj? && b.value.Obj? && Covers(a.value.fields, b.value.fields, c.fields)))
    decreases c, 1
  {
    if c.Obj? {
      MergeIntoEmpty(c.fields);
      if b.Some? && b.value.Obj? {
        MergeIntoEmpty(b.value.fields);
        if a.Some? && a.value.Obj? {
          RightMergeExactly(a.value.fields, b.value.fields, c.fields);
          if Merge(a.value.fields, b.value.fields).Some? {
            MergedCovers(a.value.fields, b.value.fields, c.fields);
          }
        } else {
          MergeIntoEmpty(Merge(b.value.fields, c.fields).value);
          EmptyMerge(b.value.fields, c.fields);
        }
      }
    }
  }

  // When a merges with the merge of b and c: it must merge with c, and c must cover
  // whatever of b does not merge.
  lemma {:induction false} RightMergeExactly(a: Doc, b: Doc, c: Doc)
    requires Merge(b, c).Some?
    ensures Merge(a, Merge(b, c).value).Some? <==> Merge(a, c).Some? && Covers(a, b, c)
    decreases Obj(c), 0
  {
    var bc := Merge(b, c).value;
    MergeElim(b, c);
    forall k | k in c
      ensures MergeValue(Get(a, k), bc[k]).Some? <==>
        && MergeValue(Get(a, k), c[k]).Some?
        && (k in b && MergeValue(Get(a, k), b[k]).None? ==>
              !c[k].Obj? || (k in a && a[k].Obj? && b[k].Obj? && Covers(a[k].fields, b[k].fields, c[k].fields)))
    {
      assert Get(bc, k) == MergedAt(b, c, k);
      KeyCovered(Get(a, k), Get(b, k), c[k]);
    }
    forall k | k in b && k !in c ensures bc[k] == b[k] {
      assert Get(bc, k) == MergedAt(b, c, k);
    }
    assert bc.Keys == b.Keys + c.Keys;
  }

  // (a.b).c and a.(b.c) are the same partial value if and only if a.b is defined,
  // or a.c or b.c is not, or c leaves a clash of a and b uncovered. Where they
  // differ, the two merges in a row raise and the single one does not.
  lemma MergeAssociativeExactly(a: Doc, b: Doc, c: Doc)
    ensures Then(Merge(a, b), Some(c)) == Then(Some(a), Merge(b, c))
            <==> Merge(a, b).Some? || Merge(a, c).None? || Merge(b, c).None? || !Covers(a, b, c)
  {
    if Merge(a, b).Some? {
      MergeAssociative(a, b, c);
    } else if Merge(b, c).Some? {
      RightMergeExactly(a, b, c);
    }
  }

  // The smallest case: a mapping meets a scalar that the last patch puts back.
  lemma AssociativityNeedsTheFirstMerge(k: string, x: Json, inner: Doc)
    requires !x.Obj? && inner != map[]
    ensures var a, b := map[k := x], map[k := Obj(inner)];
            Then(Merge(a, b), Some(a)).None? && Then(Some(a), Merge(b, a)) == Some(a)
  {
    var a, b := map[k := x], map[k := Obj(inner)];
    assert k in b && MergeValue(Get(a, k), b[k]).None?;
    assert forall j :: Get(a, j) == MergedAt(b, a, j) == MergedAt(a, a, j);
    MergeIntro(b, a, a);
    MergeIntro(a, a, a);
  }

  lemma {:induction false} MergeIdempotent(base: Doc, patch: Doc)
    requires Merge(base, patch).Some?
    ensures Merge(Merge(base, patch).value, patch) == Merge(base, patch)
    decreases Obj(patch)
  {
    var merged := Merge(base, patch).value;
    MergeElim(base, patch);
    forall k ensures MergedAt(merged, patch, k) == Get(merged, k) {
      assert Get(merged, k) == MergedAt(base, patch, k);
      if k in patch && patch[k].Obj? {
        if k in base && base[k].Obj? {
          MergeIdempotent(base[k].fields, patch[k].fields);
        } else if k !in base {
          MergeIntoEmpty(patch[k].fields);
          MergeIdempotent(map[], patch[k].fields);
        }
      }
    }
    MergeIntro(merged, patch, merged);
  }

  function Lookup(j: Json, p: Path): Option<Json> {
    if p == [] then Some(j)
    else if j.Obj? && p[0] in j.fields then Lookup(j.fields[p[0]], p[1..])
    else None
  }

  // The patch leaves the path alone: on the way down a key is missing.
  predicate Untouched(patch: Json, p: Path) {
    p != [] && patch.Obj? && (p[0] !in patch.fields || Untouched(patch.fields[p[0]], p[1..]))
  }

  // The merge at every path: what the patch names there is merged in, what it
  // leaves alone is as before, and below a replaced value there is nothing.
  lemma {:induction false} MergeAtPath(base: Doc, patch: Doc, p: Path)
    requires Merge(base, patch).Some?
    ensures Lookup(Obj(Merge(base, patch).value), p) ==
      if Lookup(Obj(patch), p).Some? then MergeValue(Lookup(Obj(base), p), Lookup(Obj(patch), p).value)
      else if Untouched(Obj(patch), p) then Lookup(Obj(base), p)
      else None
    decreases p
  {
    MergeElim(base, patch);
    if p != [] {
      var k, rest := p[0], p[1..];
      assert Get(Merge(base, patch).value, k) == MergedAt(base, patch, k);
      if k in patch && patch[k].Obj? {
        if k in base && base[k].Obj? {
          MergeAtPath(base[k].fields, patch[k].fields, rest);
        } else if k !in base {
          MergeAtPath(map[], patch[k].fields, rest);
        }
      }
    }
  }

  // ----- The queue of patches -----

  // How draining the queue ended: empty, or with an exception on the patch that
  // was just popped, which is lost.
  datatype Status = Emptied | NoOrigin | Clash

  datatype Drained = Drained(record: Option<Doc>, queue: seq<Option<Doc>>, status: Status)

  // An entry that is not a document decodes to an empty one and is skipped.
  predicate Skipped(entry: Option<Doc>) { entry.None? || entry.value == map[] }

  function Drain(fallback: Doc, record: Option<Doc>, queue: seq<Option<Doc>>): Drained
    decreases |queue|
  {
    if queue == [] then Drained(record, [], Emptied)
    else if Skipped(queue[0]) then Drain(fallback, record, queue[1..])
    else if "origin" !in queue[0].value then Drained(record, queue[1..], NoOrigin)
    else
      var control := if record.Some? then record.value else fallback;
      var merged := Merge(control, queue[0].value - {"origin"});
      if merged.None? then Drained(record, queue[1..], Clash)
      else Drain(fallback, merged, queue[1..])
  }

  // The shared control record and its write queue, as the database holds them.
  class ControlStore {
    const fallback: Doc
    var record: Option<Doc>
    var queue: seq<Option<Doc>>

    constructor (defaults: Doc)
      ensures fallback == defaults && record == None && queue == []
    {
      fallback, record, queue := defaults, None, [];
    }

    method ReadControl() returns (control: Doc)
      ensures control == if record.Some? then record.value else fallback
    {
      control := if record.Some? then record.value else fallback;
    }

    // With flush the record is reset to the defaults and the queue is dropped.
    method FlushControl() returns (control: Doc)
      modifies this
      ensures control == fallback && record == Some(fallback) && queue == []
    {
      queue := [];
      control := fallback;
      WriteControl(control, true, "common");
    }

    method WriteControl(control: Doc, direct: bool, origin: string)
      modifies this
      ensures direct ==> record == Some(control) && queue == old(queue)
      ensures !direct ==> record == old(record) && queue == old(queue) + [Some(control["origin" := Str(origin)])]
    {
      if direct {
        record := Some(control);
      } else {
        queue := queue + [Some(control["origin" := Str(origin)])];
      }
    }

    method ExecuteControlWrites() returns (status: Status)
      modifies this
      ensures Drained(record, queue, status) == Drain(fallback, old(record), old(queue))
    {
      while queue != []
        invariant Drain(fallback, record, queue) == Drain(fallback, old(record), old(queue))
        decreases |queue|
      {
        var control := ReadControl();
        var command := queue[0];
        queue := queue[1..];
        if Skipped(command) {
          continue;
        }
        if "origin" !in command.value {
          return NoOrigin;
        }
        var merged := DeepUpdate(control, command.value - {"origin"});
        if merged.None? {
          return Clash;
        }
        WriteControl(merged.value, true, "writer");
      }
      return Emptied;
    }
  }

  // The patches a queue of writes holds, without their origin stamps.
  function Stamped(patches: seq<Doc>, origins: seq<string>): seq<Option<Doc>>
    requires |patches| == |origins|
  {
    seq(|patches|, i requires 0 <= i < |patches| => Some(patches[i]["origin" := Str(origins[i])]))
  }

  lemma StampedFirst(patches: seq<Doc>, origins: seq<string>)
    requires |patches| == |origins| && patches != [] && "origin" !in patches[0]
    ensures var queue := Stamped(patches, origins);
            && queue != [] && queue[1..] == Stamped(patches[1..], origins[1..])
            && !Skipped(queue[0]) && "origin" in queue[0].value && queue[0].value - {"origin"} == patches[0]
  {
    var queue := Stamped(patches, origins);
    assert "origin" in queue[0].value;
    assert queue[0].value - {"origin"} == patches[0];
  }

  // First in, first out, over one record.
  function MergeInTurn(base: Doc, patches: seq<Doc>): Option<Doc>
    decreases |patches|
  {
    if patches == [] then Some(base)
    else
      var merged := Merge(base, patches[0]);
      if merged.None? then None else MergeInTurn(merged.value, patches[1..])
  }

  // Queued writes drain in order: the queue empties exactly when no patch clashes,
  // and the record is then the patches merged in turn. A patch cannot set "origin".
  lemma {:induction false} DrainMergesInTurn(fallback: Doc, base: Doc, patches: seq<Doc>, origins: seq<string>)
    requires |patches| == |origins|
    requires forall patch | patch in patches :: "origin" !in patch
    ensures var drained := Drain(fallback, Some(base), Stamped(patches, origins));
            && (drained.status == Emptied <==> MergeInTurn(base, patches).Some?)
            && (drained.status == Emptied ==> drained.queue == [] && drained.record == MergeInTurn(base, patches))
            && drained.status != NoOrigin
    decreases |patches|
  {
    if patches != [] {
      StampedFirst(patches, origins);
      var merged := Merge(base, patches[0]);
      if merged.Some? {
        DrainMergesInTurn(fallback, merged.value, patches[1..], origins[1..]);
      }
    }
  }

  // The patches merged before the first that clashes.
  function MergedCount(base: Doc, patches: seq<Doc>): (n: nat)
    ensures n <= |patches|
    decreases |patches|
  {
    if patches == [] || Merge(base, patches[0]).None? then 0
    else 1 + MergedCount(Merge(base, patches[0]).value, patches[1..])
  }

  // The record is the patches before the first clash merged in turn; the clashing
  // patch is lost and those behind it stay queued.
  ghost predicate StoppedAtClash(drained: Drained, base: Doc, patches: seq<Doc>, origins: seq<string>)
    requires |patches| == |origins|
  {
    var n := MergedCount(base, patches);
    && drained.record.Some? && drained.record == MergeInTurn(base, patches[..n])
    && (drained.status == Emptied <==> n == |patches|)
    && drained.queue == if n == |patches| then [] else Stamped(patches[n + 1..], origins[n + 1..])
  }

  lemma StoppedFurther(drained: Drained, base: Doc, patches: seq<Doc>, origins: seq<string>)
    requires |patches| == |origins| && patches != [] && Merge(base, patches[0]).Some?
    requires StoppedAtClash(drained, Merge(base, patches[0]).value, patches[1..], origins[1..])
    ensures StoppedAtClash(drained, base, patches, origins)
  {
    var n := MergedCount(base, patches);
    assert patches[..n][1..] == patches[1..][..n - 1];
    assert patches[..n][0] == patches[0];
    assert n < |patches| ==> patches[1..][n..] == patches[n + 1..] && origins[1..][n..] == origins[n + 1..];
  }

  lemma StoppedAtOnce(drained: Drained, base: Doc, patches: seq<Doc>, origins: seq<string>)
    requires |patches| == |origins| && patches != [] && Merge(base, patches[0]).None?
    requires drained == Drained(Some(base), Stamped(patches[1..], origins[1..]), Clash)
    ensures StoppedAtClash(drained, base, patches, origins)
  {
    assert patches[..0] == [];
  }

  // However the drain ends, it stopped at the first clash.
  lemma {:induction false} DrainStopsAtClash(fallback: Doc, base: Doc, patches: seq<Doc>, origins: seq<string>)
    requires |patches| == |origins|
    requires forall patch | patch in patches :: "origin" !in patch
    ensures StoppedAtClash(Drain(fallback, Some(base), Stamped(patches, origins)), base, patches, origins)
    decreases |patches|
  {
    if patches == [] {
      assert patches[..0] == [];
    } else {
      StampedFirst(patches, origins);
      var drained, merged := Drain(fallback, Some(base), Stamped(patches, origins)), Merge(base, patches[0]);
      if merged.None? {
        StoppedAtOnce(drained, base, patches, origins);
      } else {
        DrainStopsAtClash(fallback, merged.value, patches[1..], origins[1..]);
        StoppedFurther(drained, base, patches, origins);
      }
    }
  }

  lemma {:induction false} MergeInTurnLast(base: Doc, patches: seq<Doc>)
    requires patches != []
    ensures MergeInTurn(base, patches)
      == Then(MergeInTurn(base, patches[..|patches| - 1]), Some(patches[|patches| - 1]))
    decreases |patches|
  {
    var merged := Merge(base, patches[0]);
    if |patches| > 1 && merged.Some? {
      MergeInTurnLast(merged.value, patches[1..]);
      assert patches[..|patches| - 1][1..] == patches[1..][..|patches| - 2];
    }
  }

  // Merging patches in turn is one merge of the patches merged with each other,
  // as partial values, whenever no patch before the last one clashes.
  lemma {:induction false} MergeInTurnIsOneMerge(base: Doc, patches: seq<Doc>)
    requires patches != []
    requires MergeInTurn(base, patches[..|patches| - 1]).Some?
    ensures MergeInTurn(base, patches) == Then(Some(base), MergeInTurn(map[], patches))
    decreases |patches|
  {
    var init, last := patches[..|patches| - 1], patches[|patches| - 1];
    MergeInTurnLast(base, patches);
    MergeInTurnLast(map[], patches);
    if init == [] {
      MergeIntoEmpty(last);
    } else {
      MergeInTurnLast(base, init);
      MergeInTurnIsOneMerge(base, init);
      MergeAssociative(base, MergeInTurn(map[], init).value, last);
    }
  }

  // Draining a queue of writes is a single deep merge of the one combined patch.
  lemma DrainIsOneMerge(fallback: Doc, base: Doc, patches: seq<Doc>, origins: seq<string>)
    requires |patches| == |origins| && patches != []
    requires forall patch | patch in patches :: "origin" !in patch
    ensures var drained := Drain(fallback, Some(base), Stamped(patches, origins));
            drained.status == Emptied ==>
              drained.queue == [] && drained.record == Then(Some(base), MergeInTurn(map[], patches))
  {
    DrainMergesInTurn(fallback, base, patches, origins);
    if MergeInTurn(base, patches).Some? {
      MergeInTurnLast(base, patches);
      MergeInTurnIsOneMerge(base, patches);
    }
  }

  // The entries of a queue that decode to something.
  function Worthwhile(queue: seq<Option<Doc>>): seq<Option<Doc>>
    decreases |queue|
  {
    if queue == [] then []
    else if queue[0].Some? && queue[0].value.Keys != {} then [queue[0]] + Worthwhile(queue[1..])
    else Worthwhile(queue[1..])
  }

  // Entries that do not decode, or decode to nothing, might as well not be queued.
  lemma {:induction false} DrainPassesOver(fallback: Doc, record: Option<Doc>, queue: seq<Option<Doc>>)
    ensures var drained, worth := Drain(fallback, record, queue), Drain(fallback, record, Worthwhile(queue));
            && drained.record == worth.record && drained.status == worth.status
            && Worthwhile(drained.queue) == worth.queue
    decreases |queue|
  {
    if queue != [] {
      var rest := Worthwhile(queue[1..]);
      assert ([queue[0]] + rest)[1..] == rest;
      DrainPassesOver(fallback, record, queue[1..]);
      if !Skipped(queue[0]) && "origin" in queue[0].value {
        var control := if record.Some? then record.value else fallback;
        DrainPassesOver(fallback, Merge(control, queue[0].value - {"origin"}), queue[1..]);
      }
    }
  }

  // A write without an origin stops the drain and is lost; what is behind it stays.
  lemma UnstampedStops(fallback: Doc, record: Option<Doc>, entry: Doc, rest: seq<Option<Doc>>)
    requires "origin" !in entry && entry.Keys != {}
    ensures Drain(fallback, record, [Some(entry)] + rest) == Drained(record, rest, NoOrigin)
  {
    assert ([Some(entry)] + rest)[1..] == rest;
  }

  // Without a record the queue is merged into the defaults.
  lemma MissingRecordIsDefault(fallback: Doc, patches: seq<Doc>, origins: seq<string>)
    requires |patches| == |origins| && patches != [] && "origin" !in patches[0]
    requires Merge(fallback, patches[0]).Some?
    ensures var queue := Stamped(patches, origins);
            Drain(fallback, None, queue) == Drain(fallback, Some(fallback), queue)
  {
    StampedFirst(patches, origins);
  }
}
