/** What a patch to the settings does, path by path: what is stripped, what is refused, and what takes effect. */
module SettingsLaws {
  import opened Wrappers
  import opened Documents
  import opened SettingsSchema
  import opened SettingsPatch

  // ----- Secret keys -----

  const WORDS := {"pass", "token", "secret", "apikey", "api_key", "appkey", "app_key", "userkey", "user_key",
                  "auth_key", "p12", "private_key", "jwt"}

  // Some part of the key is one of the words, in whatever case it is written.
  ghost predicate HoldsWord(key: string) {
    exists i, j | 0 <= i <= j <= |key| :: Folded(key[i..j]) in WORDS
  }

  lemma SameWords()
    ensures SECRET_WORDS == WORDS
  {
  }

  lemma FoldedPart(key: string, i: nat, j: nat)
    requires i <= j <= |key|
    ensures Folded(key)[i..j] == Folded(key[i..j])
  {
  }

  // A key is secret if and only if it holds such a word and is none of four that only
  // look like it.
  lemma SecretExactly(key: string)
    ensures Secret(key)
            <==> HoldsWord(key) && key !in {"jwt_alg", "token_ttl", "auth_required", "password_set"}
  {
    SameWords();
    if HoldsWord(key) {
      var i, j :| 0 <= i <= j <= |key| && Folded(key[i..j]) in WORDS;
      FoldedPart(key, i, j);
      assert OccursAt(Folded(key), Folded(key[i..j]), i);
    }
    if w :| w in SECRET_WORDS && Contains(Folded(key), w) {
      var i :| 0 <= i <= |Folded(key)| - |w| && OccursAt(Folded(key), w, i);
      FoldedPart(key, i, i + |w|);
      assert Folded(key[i..i + |w|]) in WORDS;
    }
  }

  // ----- Stripping -----

  lemma StripAt(patch: Doc, k: string)
    requires k in patch
    ensures k in StripSentinels(patch) <==> Keeps(patch[k])
    ensures Keeps(patch[k]) ==>
              StripSentinels(patch)[k] == if patch[k].Obj? then Obj(StripSentinels(patch[k].fields)) else patch[k]
    ensures patch[k].Obj? ==>
              (Keeps(patch[k]) <==> StripSentinels(patch[k].fields) != map[] || patch[k].fields == map[])
  {
  }

  // At every path below the top a stripped patch holds every value but the sentinel
  // and mappings, and nothing that was not there.
  lemma {:induction false} StripKeepsValues(patch: Doc, p: Path, v: Json)
    requires p != [] && !v.Obj?
    ensures Lookup(Obj(StripSentinels(patch)), p) == Some(v)
            <==> Lookup(Obj(patch), p) == Some(v) && v != Str(REDACTED)
    decreases p
  {
    var k, rest, stripped := p[0], p[1..], StripSentinels(patch);
    if k in patch {
      StripAt(patch, k);
      if rest == [] {
        assert k in stripped ==> Lookup(stripped[k], rest) == Some(stripped[k]);
        assert Lookup(patch[k], rest) == Some(patch[k]);
      } else if patch[k].Obj? {
        StripKeepsValues(patch[k].fields, rest, v);
      }
    }
  }

  // A mapping stays if and only if it was empty or something below it stays.
  lemma StripKeepsMappings(patch: Doc, k: string)
    requires k in patch && patch[k].Obj?
    ensures k in StripSentinels(patch)
            <==> patch[k].fields == map[] || exists key :: key in StripSentinels(patch[k].fields)
    ensures k in StripSentinels(patch) ==> StripSentinels(patch)[k] == Obj(StripSentinels(patch[k].fields))
  {
    StripAt(patch, k);
    var inner := StripSentinels(patch[k].fields);
    if inner != map[] { assert inner.Keys != {}; }
  }

  // The sentinel occurs as a value below the mapping.
  predicate HoldsSentinel(patch: Doc)
    decreases Obj(patch)
  {
    exists k | k in patch :: patch[k] == Str(REDACTED) || (patch[k].Obj? && HoldsSentinel(patch[k].fields))
  }

  // Stripping changes a patch if and only if it holds the sentinel.
  lemma {:induction false} StripChangesExactly(patch: Doc)
    ensures StripSentinels(patch) == patch <==> !HoldsSentinel(patch)
    decreases Obj(patch)
  {
    var stripped := StripSentinels(patch);
    forall k | k in patch
      ensures k in stripped && stripped[k] == patch[k]
              <==> patch[k] != Str(REDACTED) && (patch[k].Obj? ==> !HoldsSentinel(patch[k].fields))
    {
      StripAt(patch, k);
      if patch[k].Obj? { StripChangesExactly(patch[k].fields); }
    }
    if !HoldsSentinel(patch) {
      forall k | k in patch ensures k in stripped && stripped[k] == patch[k] {
        assert patch[k] != Str(REDACTED);
      }
      assert stripped.Keys == patch.Keys;
    }
  }

  // ----- Refusing -----

  const PROTECTED: set<Path> := {["versions"], ["server_info"], ["server", "auth"]}

  lemma NamesOne(j: Json, k: string)
    requires j.Obj?
    ensures Lookup(j, [k]).Some? <==> k in j.fields
  {
    assert [k][1..] == [];
  }

  lemma NamesTwo(j: Json, k: string, l: string)
    requires j.Obj?
    ensures Lookup(j, [k, l]).Some? <==> k in j.fields && j.fields[k].Obj? && l in j.fields[k].fields
  {
    assert [k, l][1..] == [l];
    if k in j.fields && j.fields[k].Obj? { NamesOne(j.fields[k], l); }
  }

  // A patch is refused if and only if, the sentinels apart, it names a protected path
  // and may not; a refused patch changes nothing.
  lemma RefusedExactly(settings: Doc, patch: Doc, allowProtected: bool)
    ensures var (after, outcome) := Apply(settings, patch, allowProtected);
            && (outcome.ReadOnly? <==>
                  !allowProtected && exists p | p in PROTECTED :: Lookup(Obj(StripSentinels(patch)), p).Some?)
            && (!outcome.Changed? ==> after == settings)
  {
    var stripped := Obj(StripSentinels(patch));
    NamesOne(stripped, "versions");
    NamesOne(stripped, "server_info");
    NamesTwo(stripped, "server", "auth");
    assert ["versions"] in PROTECTED && ["server_info"] in PROTECTED && ["server", "auth"] in PROTECTED;
  }

  // ----- Taking effect -----

  // Where nothing is reported, the document already holds what the patch names.
  lemma {:induction false} UnreportedHolds(settings: Doc, patch: Doc, p: Path, v: Json)
    requires Changes(settings, patch) == {} && p != [] && !v.Obj? && Lookup(Obj(patch), p) == Some(v)
    ensures SameAt(Lookup(Obj(settings), p), Some(v))
    decreases p
  {
    var k, rest := p[0], p[1..];
    NothingBelow(settings, patch, k);
    assert [] !in ChangesAt(Get(settings, k), patch[k]);
    if rest == [] {
      assert patch[k] == v;
    } else if k in settings && settings[k].Obj? {
      UnreportedHolds(settings[k].fields, patch[k].fields, rest, v);
    }
  }

  // An accepted patch takes effect: every value it names, but the sentinel, is what
  // the settings then hold there.
  lemma AcceptedPatchTakesEffect(settings: Doc, patch: Doc, allowProtected: bool, p: Path, v: Json)
    requires Apply(settings, patch, allowProtected).1.Changed?
    requires p != [] && !v.Obj? && v != Str(REDACTED) && Lookup(Obj(patch), p) == Some(v)
    ensures SameAt(Lookup(Obj(Apply(settings, patch, allowProtected).0), p), Some(v))
  {
    var stripped := StripSentinels(patch);
    StripKeepsValues(patch, p, v);
    if Changes(settings, stripped) == {} {
      UnreportedHolds(settings, stripped, p, v);
    } else {
      MergeAtPath(settings, stripped, p);
      SameReflexive(v);
    }
  }

  lemma {:induction false} UntouchedNamesNothing(patch: Json, p: Path)
    requires Untouched(patch, p)
    ensures Lookup(patch, p).None?
    decreases p
  {
    if p[0] in patch.fields { UntouchedNamesNothing(patch.fields[p[0]], p[1..]); }
  }

  // And it touches nothing else: a path that the patch, stripped, does not lead to
  // holds what it did.
  lemma AcceptedPatchLeavesTheRest(settings: Doc, patch: Doc, allowProtected: bool, p: Path)
    requires Untouched(Obj(StripSentinels(patch)), p)
    ensures Lookup(Obj(Apply(settings, patch, allowProtected).0), p) == Lookup(Obj(settings), p)
  {
    var stripped := StripSentinels(patch);
    if Merge(settings, stripped).Some? {
      MergeAtPath(settings, stripped, p);
      UntouchedNamesNothing(Obj(stripped), p);
    }
  }
}
