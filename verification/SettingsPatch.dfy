/** Applying a partial document to the settings file, and reporting what changed. */
module SettingsPatch {
  import opened Wrappers
  import opened Documents
  import opened SettingsSchema

  // Equality as the program's language has it: numbers and truth values compare
  // by value across their types.
  predicate Same(a: Json, b: Json) {
    match (a, b)
    case (Obj(f), Obj(g)) => f.Keys == g.Keys && forall k | k in f :: Same(f[k], g[k])
    case (List(xs), List(ys)) => |xs| == |ys| && forall i | 0 <= i < |xs| :: Same(xs[i], ys[i])
    case _ => if Numeric(a).Some? && Numeric(b).Some? then Numeric(a) == Numeric(b) else a == b
  }

  predicate SameAt(a: Option<Json>, b: Option<Json>) {
    a.Some? == b.Some? && (a.Some? ==> Same(a.value, b.value))
  }

  lemma {:induction false} SameReflexive(j: Json)
    ensures Same(j, j)
  {
    match j
    case Obj(fields) => forall k | k in fields ensures Same(fields[k], fields[k]) { SameReflexive(fields[k]); }
    case List(items) => forall i | 0 <= i < |items| ensures Same(items[i], items[i]) { SameReflexive(items[i]); }
    case _ =>
  }

  // ----- The paths a patch changes -----

  function Changes(base: Doc, patch: Doc): set<Path>
    decreases Obj(patch), 0
  {
    set k, q | k in patch && q in ChangesAt(Get(base, k), patch[k]) :: [k] + q
  }

  function ChangesAt(base: Option<Json>, v: Json): set<Path>
    decreases v, 1
  {
    if v.Obj? && base.Some? && base.value.Obj? then Changes(base.value.fields, v.fields)
    else if !SameAt(base, Some(v)) then {[]}
    else {}
  }

  // No mapping in the patch meets anything but a mapping in the document.
  predicate Fits(base: Doc, patch: Doc)
    decreases Obj(patch)
  {
    forall k | k in patch && patch[k].Obj? && k in base ::
      base[k].Obj? && Fits(base[k].fields, patch[k].fields)
  }

  lemma {:induction false} FitsMerges(base: Doc, patch: Doc)
    requires Fits(base, patch)
    ensures Merge(base, patch).Some?
    decreases Obj(patch)
  {
    forall k | k in patch ensures MergeValue(Get(base, k), patch[k]).Some? {
      if patch[k].Obj? {
        MergeIntoEmpty(patch[k].fields);
        if k in base {
          FitsMerges(base[k].fields, patch[k].fields);
        }
      }
    }
  }

  lemma NothingBelow(base: Doc, patch: Doc, k: string)
    requires k in patch
    ensures Changes(base, patch) == {} ==> ChangesAt(Get(base, k), patch[k]) == {}
  {
    if q :| q in ChangesAt(Get(base, k), patch[k]) {
      assert [k] + q in Changes(base, patch);
    }
  }

  lemma SameKeyByKey(d: Doc, d': Doc)
    requires forall k :: SameAt(Get(d, k), Get(d', k))
    ensures Same(Obj(d), Obj(d'))
  {
    forall k ensures (k in d <==> k in d') && (k in d ==> Same(d[k], d'[k])) {
      assert SameAt(Get(d, k), Get(d', k));
    }
  }

  // A patch that reports no change merges to an equal document.
  lemma {:induction false} NoChangesIsIdentity(base: Doc, patch: Doc)
    requires Changes(base, patch) == {}
    ensures Merge(base, patch).Some? && Same(Obj(base), Obj(Merge(base, patch).value))
    decreases Obj(patch)
  {
    forall k | k in patch
      ensures k in base && MergeValue(Get(base, k), patch[k]).Some?
      ensures Same(base[k], MergeValue(Get(base, k), patch[k]).value)
    {
      var inner := ChangesAt(Get(base, k), patch[k]);
      NothingBelow(base, patch, k);
      if patch[k].Obj? && k in base && base[k].Obj? {
        NoChangesIsIdentity(base[k].fields, patch[k].fields);
      } else {
        assert [] !in inner;
      }
    }
    MergeElim(base, patch);
    var merged := Merge(base, patch).value;
    forall k ensures SameAt(Get(base, k), Get(merged, k)) {
      assert Get(merged, k) == MergedAt(base, patch, k);
      if k in base { SameReflexive(base[k]); }
    }
    SameKeyByKey(base, merged);
  }

  // Every reported path holds something new after the merge, exactly when the
  // patch fits.
  lemma {:induction false} ReportedPathsDiffer(base: Doc, patch: Doc, p: Path)
    requires Fits(base, patch) && p in Changes(base, patch)
    ensures Merge(base, patch).Some?
    ensures Lookup(Obj(Merge(base, patch).value), p).Some?
    ensures !SameAt(Lookup(Obj(base), p), Lookup(Obj(Merge(base, patch).value), p))
    decreases p
  {
    FitsMerges(base, patch);
    MergeElim(base, patch);
    var merged := Merge(base, patch).value;
    var k, q :| k in patch && q in ChangesAt(Get(base, k), patch[k]) && p == [k] + q;
    assert p[0] == k && p[1..] == q;
    assert Get(merged, k) == MergedAt(base, patch, k);
    if patch[k].Obj? {
      if k in base {
        ReportedPathsDiffer(base[k].fields, patch[k].fields, q);
      } else {
        MergeIntoEmpty(patch[k].fields);
      }
    }
  }

  // A clash is reported although the merge, if it succeeds at all, leaves it alone.
  lemma {:induction false} ClashesAreReported(base: Doc, patch: Doc) returns (p: Path)
    requires !Fits(base, patch) && Merge(base, patch).Some?
    ensures p in Changes(base, patch)
    ensures Lookup(Obj(Merge(base, patch).value), p) == Lookup(Obj(base), p)
    decreases Obj(patch)
  {
    MergeElim(base, patch);
    var k :| k in patch && patch[k].Obj? && k in base && !(base[k].Obj? && Fits(base[k].fields, patch[k].fields));
    assert Get(Merge(base, patch).value, k) == MergedAt(base, patch, k);
    var q: Path := [];
    if base[k].Obj? {
      q := ClashesAreReported(base[k].fields, patch[k].fields);
    }
    assert q in ChangesAt(Get(base, k), patch[k]);
    p := [k] + q;
    assert p[1..] == q;
  }

  lemma ReportIsExactWhenFitting(base: Doc, patch: Doc)
    requires Merge(base, patch).Some?
    ensures (forall p | p in Changes(base, patch) ::
               !SameAt(Lookup(Obj(base), p), Lookup(Obj(Merge(base, patch).value), p)))
            <==> Fits(base, patch)
  {
    if Fits(base, patch) {
      forall p | p in Changes(base, patch)
        ensures !SameAt(Lookup(Obj(base), p), Lookup(Obj(Merge(base, patch).value), p))
      {
        ReportedPathsDiffer(base, patch, p);
      }
    } else {
      var p := ClashesAreReported(base, patch);
      if Lookup(Obj(base), p).Some? { SameReflexive(Lookup(Obj(base), p).value); }
    }
  }

  // An empty mapping over a scalar is reported although nothing changes.
  lemma EmptyMappingIsReported(k: string, n: int)
    ensures var base: Doc, patch: Doc := map[k := Int(n)], map[k := Obj(map[])];
            [k] in Changes(base, patch) && Merge(base, patch) == Some(base)
  {
    var base: Doc, patch: Doc := map[k := Int(n)], map[k := Obj(map[])];
    var none: Path := [];
    assert none in ChangesAt(Get(base, k), patch[k]);
    assert [k] + none == [k];
    MergeIntro(base, patch, base);
  }

  // Wherever the merge changed a path that is not a mapping on both sides, a
  // reported path leads there.
  lemma {:induction false} ChangesAreReported(base: Doc, patch: Doc, p: Path) returns (q: Path)
    requires Merge(base, patch).Some?
    requires var before, after := Lookup(Obj(base), p), Lookup(Obj(Merge(base, patch).value), p);
             !SameAt(before, after)
             && !(before.Some? && before.value.Obj? && after.Some? && after.value.Obj?)
    ensures q in Changes(base, patch) && q <= p
    decreases p
  {
    MergeElim(base, patch);
    var merged := Merge(base, patch).value;
    var k, rest := p[0], p[1..];
    assert Get(merged, k) == MergedAt(base, patch, k);
    if k !in patch {
      if Lookup(Obj(base), p).Some? { SameReflexive(Lookup(Obj(base), p).value); }
      assert false;
    } else if patch[k].Obj? && k in base && base[k].Obj? {
      var inner := ChangesAreReported(base[k].fields, patch[k].fields, rest);
      assert inner in ChangesAt(Get(base, k), patch[k]);
      q := [k] + inner;
      assert p == [k] + rest;
      assert q in Changes(base, patch);
    } else {
      assert !SameAt(Get(base, k), Some(patch[k])) by {
        assert Lookup(Obj(base), p) == if k in base then Lookup(base[k], rest) else None;
        assert Lookup(Obj(merged), p) == Lookup(merged[k], rest);
      }
      var none: Path := [];
      q := [k] + none;
      assert none in ChangesAt(Get(base, k), patch[k]);
      assert q in Changes(base, patch);
    }
  }

  lemma {:induction false} SameLookups(a: Json, b: Json, p: Path)
    requires Same(a, b)
    ensures SameAt(Lookup(a, p), Lookup(b, p))
    decreases p
  {
    if p != [] && a.Obj? && p[0] in a.fields {
      SameLookups(a.fields[p[0]], b.fields[p[0]], p[1..]);
    }
  }

  // For a fitting patch, an empty report means exactly that the merge changes nothing.
  lemma NoReportExactly(base: Doc, patch: Doc)
    requires Fits(base, patch)
    ensures Merge(base, patch).Some?
    ensures Changes(base, patch) == {} <==> Same(Obj(base), Obj(Merge(base, patch).value))
  {
    FitsMerges(base, patch);
    if Changes(base, patch) == {} {
      NoChangesIsIdentity(base, patch);
    } else {
      var p :| p in Changes(base, patch);
      ReportedPathsDiffer(base, patch, p);
      if Same(Obj(base), Obj(Merge(base, patch).value)) {
        SameLookups(Obj(base), Obj(Merge(base, patch).value), p);
      }
    }
  }

  // ----- Applying patches -----

  datatype Outcome = Changed(paths: set<Path>) | ReadOnly(path: string) | MergeError

  // The first protected path a stripped patch writes, if any.
  function ProtectedHit(patch: Doc): Option<string> {
    if "versions" in patch then Some("versions")
    else if "server_info" in patch then Some("server_info")
    else if "server" in patch && patch["server"].Obj? && "auth" in patch["server"].fields then Some("server.auth")
    else None
  }

  function Apply(settings: Doc, patch: Doc, allowProtected: bool): (Doc, Outcome) {
    var stripped := StripSentinels(patch);
    if !allowProtected && ProtectedHit(stripped).Some? then (settings, ReadOnly(ProtectedHit(stripped).value))
    else
      var changed := Changes(settings, stripped);
      if changed == {} then (settings, Changed({}))
      else
        var merged := Merge(settings, stripped);
        if merged.None? then (settings, MergeError) else (merged.value, Changed(changed))
  }

  const SERVER_AUTH: Path := ["server", "auth"]

  predicate ProtectedSame(a: Doc, b: Doc) {
    && Get(a, "versions") == Get(b, "versions")
    && Get(a, "server_info") == Get(b, "server_info")
    && Lookup(Obj(a), SERVER_AUTH) == Lookup(Obj(b), SERVER_AUTH)
  }

  // The whole server block replaced by something that is not a mapping: the
  // protected-path check does not see it.
  predicate ReplacesServer(patch: Doc) {
    var stripped := StripSentinels(patch);
    "server" in stripped && !stripped["server"].Obj?
  }

  // An accepted patch keeps every protected path, but for one way around: it may
  // replace the server block whole.
  lemma AcceptedPatchKeepsProtected(settings: Doc, patch: Doc)
    requires Apply(settings, patch, false).1.Changed?
    ensures ProtectedSame(settings, Apply(settings, patch, false).0)
            <==> !(ReplacesServer(patch) && Lookup(Obj(settings), SERVER_AUTH).Some?)
  {
    var stripped := StripSentinels(patch);
    var (after, outcome) := Apply(settings, patch, false);
    assert SERVER_AUTH[0] == "server" && SERVER_AUTH[1..] == ["auth"] && ["auth"][1..] == [];
    if Changes(settings, stripped) == {} {
      if ReplacesServer(patch) && Lookup(Obj(settings), SERVER_AUTH).Some? {
        assert Lookup(Obj(settings), SERVER_AUTH) == Lookup(settings["server"], ["auth"]);
        assert settings["server"].Obj? && !Same(settings["server"], stripped["server"]);
        var none: Path := [];
        assert none in ChangesAt(Get(settings, "server"), stripped["server"]);
        NothingBelow(settings, stripped, "server");
      }
    } else {
      MergeElim(settings, stripped);
      assert Get(after, "versions") == MergedAt(settings, stripped, "versions");
      assert Get(after, "server_info") == MergedAt(settings, stripped, "server_info");
      MergeAtPath(settings, stripped, SERVER_AUTH);
    }
  }

  // Such a patch exists for every settings document: a bare string for the server.
  lemma StringForServerDropsAuth(settings: Doc, text: string)
    requires text != REDACTED && Lookup(Obj(settings), SERVER_AUTH).Some?
    ensures var (after, outcome) := Apply(settings, map["server" := Str(text)], false);
            outcome.Changed? && Lookup(Obj(after), SERVER_AUTH).None? && !ProtectedSame(settings, after)
  {
    var patch: Doc := map["server" := Str(text)];
    assert Keeps(patch["server"]);
    assert StripSentinels(patch) == patch;
    assert SERVER_AUTH[0] == "server" && SERVER_AUTH[1..] == ["auth"] && ["auth"][1..] == [];
    assert Merge(settings, patch).Some?;
    NothingBelow(settings, patch, "server");
    assert settings["server"].Obj?;
    var none: Path := [];
    assert none in ChangesAt(Get(settings, "server"), patch["server"]);
    MergeElim(settings, patch);
    assert Get(Merge(settings, patch).value, "server") == MergedAt(settings, patch, "server");
  }

  function Settle(settings: Doc, patches: seq<Doc>): Doc
    decreases |patches|
  {
    if patches == [] then settings else Settle(Apply(settings, patches[0], false).0, patches[1..])
  }

  // Any sequence of patches, accepted or not, none of which replaces the server
  // block, leaves versions, server_info and server.auth as they were.
  lemma {:induction false} PatchesKeepProtected(settings: Doc, patches: seq<Doc>)
    requires forall i | 0 <= i < |patches| :: !ReplacesServer(patches[i])
    ensures ProtectedSame(settings, Settle(settings, patches))
    decreases |patches|
  {
    if patches != [] {
      if Apply(settings, patches[0], false).1.Changed? {
        AcceptedPatchKeepsProtected(settings, patches[0]);
      }
      PatchesKeepProtected(Apply(settings, patches[0], false).0, patches[1..]);
    }
  }

  // ----- Dotted paths -----

  function Split(s: string): (parts: Path)
    ensures parts != []
  {
    if s == "" then [""]
    else
      var rest := Split(s[1..]);
      if s[0] == '.' then [""] + rest
      else [[s[0]] + rest[0]] + rest[1..]
  }

  // A reported path as the program returns it: its keys with dots between them.
  function Dotted(p: Path): string
    requires p != []
  {
    if |p| == 1 then p[0] else p[0] + "." + Dotted(p[1..])
  }

  lemma {:induction false} SplitKey(key: string, rest: string)
    requires '.' !in key
    ensures Split(key) == [key]
    ensures Split(key + "." + rest) == [key] + Split(rest)
  {
    var s := key + "." + rest;
    if key == "" {
      assert s[1..] == rest;
    } else {
      SplitKey(key[1..], rest);
      assert s[1..] == key[1..] + "." + rest;
      assert [key[0]] + key[1..] == key;
    }
  }

  // Over keys without dots, splitting a reported path gives its keys back, so
  // looking it up finds what the report is about.
  lemma {:induction false} SplitDotted(p: Path)
    requires p != [] && forall i | 0 <= i < |p| :: '.' !in p[i]
    ensures Split(Dotted(p)) == p
  {
    if |p| == 1 {
      SplitKey(p[0], "");
    } else {
      SplitKey(p[0], Dotted(p[1..]));
      SplitDotted(p[1..]);
    }
  }

  // The settings document as the file holds it.
  class SettingsFile {
    var settings: Doc

    constructor (initial: Doc)
      ensures settings == initial
    {
      settings := initial;
    }

    method ApplyPatch(patch: Doc, allowProtected: bool) returns (outcome: Outcome)
      modifies this
      ensures (settings, outcome) == Apply(old(settings), patch, allowProtected)
    {
      var stripped := StripSentinels(patch);
      if !allowProtected {
        var hit := ProtectedHit(stripped);
        if hit.Some? {
          return ReadOnly(hit.value);
        }
      }
      var changed := Changes(settings, stripped);
      if changed != {} {
        var merged := DeepUpdate(settings, stripped);
        if merged.None? {
          return MergeError;
        }
        settings := merged.value;
      }
      return Changed(changed);
    }

    // Follows a dotted path down the document.
    method GetPath(dotted: string, default: Json) returns (value: Json)
      ensures var found := Lookup(Obj(settings), Split(dotted)); value == if found.Some? then found.value else default
    {
      var node := Obj(settings);
      var parts := Split(dotted);
      while parts != []
        invariant Lookup(node, parts) == Lookup(Obj(settings), Split(dotted))
        decreases |parts|
      {
        if !node.Obj? || parts[0] !in node.fields {
          return default;
        }
        node := node.fields[parts[0]];
        parts := parts[1..];
      }
      return node;
    }
  }
}
