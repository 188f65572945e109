/** Redacting the settings document, and merging a partial one back into it. */
module SettingsSchema {
  import opened Wrappers
  import opened Documents

  // ----- Which keys are secret -----

  const REDACTED := "***"

  // Case folding as a case-insensitive pattern sees the letters it contains.
  function Fold(c: char): char {
    if 'A' <= c <= 'Z' then (c as int + 32) as char
    else if c == '\U{017F}' then 's'
    else if c == '\U{212A}' then 'k'
    else if c == '\U{0130}' || c == '\U{0131}' then 'i'
    else c
  }

  predicate OccursAt(s: string, word: string, i: nat)
    requires i <= |s| - |word|
  {
    s[i..i + |word|] == word
  }

  predicate Contains(s: string, word: string) {
    exists i | 0 <= i <= |s| - |word| :: OccursAt(s, word, i)
  }

  const SECRET_WORDS := {"pass", "token", "secret", "apikey", "api_key", "appkey", "app_key",
                         "userkey", "user_key", "auth_key", "p12", "private_key", "jwt"}

  const NOT_SECRET := {"jwt_alg", "token_ttl", "auth_required", "password_set"}

  function Folded(key: string): string {
    seq(|key|, i requires 0 <= i < |key| => Fold(key[i]))
  }

  predicate Secret(key: string) {
    key !in NOT_SECRET && exists w | w in SECRET_WORDS :: Contains(Folded(key), w)
  }

  lemma MissingLetter(s: string, word: string, j: nat)
    requires j < |word| && word[j] !in s
    ensures !Contains(s, word)
  {
    forall i | 0 <= i <= |s| - |word| ensures !OccursAt(s, word, i) {
      assert s[i..i + |word|][j] == s[i + j];
    }
  }

  lemma ServerIsNotSecret()
    ensures !Secret("server")
  {
    var folded := Folded("server");
    assert folded == "server";
    forall w | w in SECRET_WORDS ensures !Contains(folded, w) {
      MissingLetter(folded, w, if w == "secret" then 2 else 0);
    }
  }

  predicate Scalar(j: Json) { !j.Obj? && !j.List? }

  function Numeric(j: Json): Option<real> {
    match j
    case Bool(b) => Some(if b then 1.0 else 0.0)
    case Int(n) => Some(n as real)
    case Float(r) => Some(r)
    case _ => None
  }

  // Equal to null, the empty string, zero or false, as the language compares them.
  predicate Falsy(j: Json) {
    j == Null || j == Str("") || Numeric(j) == Some(0.0)
  }

  // ----- Redaction -----

  function Walk(j: Json): Json
    decreases j, 1
  {
    match j
    case Obj(fields) => Obj(WalkDoc(fields))
    case List(items) => List(seq(|items|, i requires 0 <= i < |items| => Walk(items[i])))
    case _ => j
  }

  function WalkDoc(d: Doc): Doc
    decreases Obj(d), 0
  {
    map k | k in d :: WalkAt(k, d[k])
  }

  function WalkAt(k: string, v: Json): Json
    decreases v, 2
  {
    if Secret(k) && Scalar(v) then Str(if Falsy(v) then "" else REDACTED) else Walk(v)
  }

  function DropAuth(d: Doc): Doc {
    if "server" in d && d["server"].Obj? then d["server" := Obj(d["server"].fields - {"auth"})] else d
  }

  function Redact(settings: Doc): Doc {
    DropAuth(WalkDoc(settings))
  }

  lemma RedactAt(settings: Doc, k: string)
    requires k in settings
    ensures Redact(settings).Keys == settings.Keys
    ensures Redact(settings)[k] ==
      if k == "server" && settings[k].Obj? then Obj(WalkDoc(settings[k].fields - {"auth"}))
      else WalkAt(k, settings[k])
  {
    ServerIsNotSecret();
    if "server" in settings && settings["server"].Obj? {
      var server := settings["server"].fields;
      assert WalkDoc(settings)["server"] == WalkAt("server", settings["server"]) == Walk(settings["server"]);
      assert WalkDoc(server) - {"auth"} == WalkDoc(server - {"auth"});
    } else if "server" in settings {
      assert !Walk(settings["server"]).Obj?;
    }
  }

  lemma RedactDropsAuthFirst(settings: Doc)
    ensures Redact(settings) == WalkDoc(DropAuth(settings))
  {
    ServerIsNotSecret();
    forall k | k in settings ensures Redact(settings)[k] == WalkDoc(DropAuth(settings))[k] {
      RedactAt(settings, k);
      var dropped := DropAuth(settings)[k];
      assert WalkDoc(DropAuth(settings))[k] == WalkAt(k, dropped);
      assert dropped.Obj? ==> WalkAt(k, dropped) == Obj(WalkDoc(dropped.fields));
    }
    assert Redact(settings).Keys == settings.Keys;
  }

  // ----- Stripping the sentinel from a patch -----

  predicate Keeps(v: Json)
    decreases v, 1
  {
    if v.Obj? then StripSentinels(v.fields) != map[] || v.fields == map[] else v != Str(REDACTED)
  }

  function StripSentinels(patch: Doc): Doc
    decreases Obj(patch), 0
  {
    map k | k in patch && Keeps(patch[k]) ::
      if patch[k].Obj? then Obj(StripSentinels(patch[k].fields)) else patch[k]
  }

  // ----- Redaction is idempotent and reveals nothing secret -----

  lemma {:induction false} WalkIdempotent(j: Json)
    ensures Walk(Walk(j)) == Walk(j)
  {
    match j
    case Obj(fields) =>
      var once := WalkDoc(fields);
      forall k | k in fields ensures WalkAt(k, once[k]) == once[k] {
        WalkIdempotent(fields[k]);
        assert Scalar(Walk(fields[k])) == Scalar(fields[k]);
        assert |REDACTED| == 3 && once[k] == WalkAt(k, fields[k]);
      }
      assert WalkDoc(once) == once;
    case List(items) =>
      var once := Walk(j).items;
      forall i | 0 <= i < |items| ensures Walk(once[i]) == once[i] {
        WalkIdempotent(items[i]);
      }
      assert Walk(Walk(j)).items == once;
    case _ =>
  }

  lemma RedactIdempotent(settings: Doc)
    ensures Redact(Redact(settings)) == Redact(settings)
  {
    RedactDropsAuthFirst(settings);
    var d := DropAuth(settings);
    WalkIdempotent(Obj(d));
    assert DropAuth(WalkDoc(d)) == WalkDoc(d) by {
      if "server" in d && d["server"].Obj? {
        assert WalkAt("server", d["server"]) == Obj(WalkDoc(d["server"].fields));
        assert WalkDoc(d)["server"].fields - {"auth"} == WalkDoc(d)["server"].fields;
      }
    }
    RedactDropsAuthFirst(Redact(settings));
  }

  // Equal but for secret scalars, which need only be both set or both unset.
  predicate SameButSecrets(a: Json, b: Json)
    decreases a, 0
  {
    match (a, b)
    case (Obj(f), Obj(g)) => f.Keys == g.Keys && forall k | k in f :: SameButSecretsAt(k, f[k], g[k])
    case (List(xs), List(ys)) => |xs| == |ys| && forall i | 0 <= i < |xs| :: SameButSecrets(xs[i], ys[i])
    case _ => a == b
  }

  predicate SameButSecretsAt(k: string, a: Json, b: Json)
    decreases a, 1
  {
    if Secret(k) && Scalar(a) && Scalar(b) then Falsy(a) == Falsy(b) else SameButSecrets(a, b)
  }

  // Two documents look the same redacted exactly when they differ in nothing but
  // the values of secrets that are set.
  lemma {:induction false} WalkRevealsOnlyPresence(a: Json, b: Json)
    ensures Walk(a) == Walk(b) <==> SameButSecrets(a, b)
  {
    if a.Obj? && b.Obj? {
      var f, g := a.fields, b.fields;
      if f.Keys == g.Keys {
        forall k | k in f ensures WalkAt(k, f[k]) == WalkAt(k, g[k]) <==> SameButSecretsAt(k, f[k], g[k]) {
          WalkRevealsOnlyPresence(f[k], g[k]);
        }
        assert (forall k | k in f :: WalkDoc(f)[k] == WalkDoc(g)[k]) ==> WalkDoc(f) == WalkDoc(g);
      } else {
        assert WalkDoc(f).Keys == f.Keys && WalkDoc(g).Keys == g.Keys;
      }
    } else if a.List? && b.List? {
      var xs, ys := a.items, b.items;
      if |xs| == |ys| {
        forall i | 0 <= i < |xs| ensures Walk(a).items[i] == Walk(b).items[i] <==> SameButSecrets(xs[i], ys[i]) {
          WalkRevealsOnlyPresence(xs[i], ys[i]);
        }
        assert (forall i | 0 <= i < |xs| :: Walk(a).items[i] == Walk(b).items[i]) ==> Walk(a).items == Walk(b).items;
      } else {
        assert |Walk(a).items| != |Walk(b).items|;
      }
    }
  }

  lemma RedactRevealsOnlyPresence(a: Doc, b: Doc)
    ensures Redact(a) == Redact(b) <==> SameButSecrets(Obj(DropAuth(a)), Obj(DropAuth(b)))
  {
    RedactDropsAuthFirst(a);
    RedactDropsAuthFirst(b);
    WalkRevealsOnlyPresence(Obj(DropAuth(a)), Obj(DropAuth(b)));
  }

  // ----- Merging a redacted document back -----

  // Merging the stripped value w onto v leaves `after`.
  ghost predicate Back(v: Json, w: Json, after: Json) {
    (if !Keeps(w) then Some(v)
     else MergeValue(Some(v), if w.Obj? then Obj(StripSentinels(w.fields)) else w)) == Some(after)
  }

  lemma BackIntro(d: Doc, redacted: Doc, after: Doc)
    requires redacted.Keys <= d.Keys && after.Keys == d.Keys
    requires forall k | k in redacted :: Back(d[k], redacted[k], after[k])
    requires forall k | k in d && k !in redacted :: after[k] == d[k]
    ensures Merge(d, StripSentinels(redacted)) == Some(after)
  {
    var patch := StripSentinels(redacted);
    forall k ensures MergedAt(d, patch, k) == Get(after, k) {
      if k in redacted {
        assert Back(d[k], redacted[k], after[k]);
      }
    }
    MergeIntro(d, patch, after);
  }

  // What the round trip really leaves: a list comes back redacted, an unset
  // secret as the empty string, everything else as it was.
  function Restored(j: Json): Json
    decreases j, 1
  {
    if j.Obj? then Obj(RestoredDoc(j.fields)) else Walk(j)
  }

  function RestoredAt(k: string, v: Json): Json
    decreases v, 2
  {
    if Secret(k) && Scalar(v) then (if Falsy(v) then Str("") else v) else Restored(v)
  }

  function RestoredDoc(d: Doc): Doc
    decreases Obj(d), 0
  {
    map k | k in d :: RestoredAt(k, d[k])
  }

  lemma MergeNothing(d: Doc)
    ensures Merge(d, map[]) == Some(d)
  {
    MergeIntro(d, map[], d);
  }

  lemma {:induction false} KeyBack(k: string, v: Json)
    ensures Back(v, WalkAt(k, v), RestoredAt(k, v))
    decreases v, 1
  {
    if v.Obj? {
      WalkBack(v.fields);
      MergeNothing(v.fields);
    }
  }

  lemma {:induction false} WalkBack(d: Doc)
    ensures Merge(d, StripSentinels(WalkDoc(d))) == Some(RestoredDoc(d))
    decreases Obj(d), 0
  {
    forall k | k in d ensures Back(d[k], WalkDoc(d)[k], RestoredDoc(d)[k]) {
      KeyBack(k, d[k]);
    }
    BackIntro(d, WalkDoc(d), RestoredDoc(d));
  }

  // The local auth block is absent from the patch, so it stays as it is.
  function RestoredServer(server: Doc): Doc {
    if "auth" in server then RestoredDoc(server)["auth" := server["auth"]] else RestoredDoc(server)
  }

  lemma ServerBack(server: Doc)
    ensures Back(Obj(server), Obj(WalkDoc(server - {"auth"})), Obj(RestoredServer(server)))
  {
    var redacted := WalkDoc(server - {"auth"});
    forall k | k in redacted ensures Back(server[k], redacted[k], RestoredServer(server)[k]) {
      KeyBack(k, server[k]);
    }
    BackIntro(server, redacted, RestoredServer(server));
    MergeNothing(server);
  }

  function RestoredSettings(settings: Doc): Doc {
    if "server" in settings && settings["server"].Obj? then
      RestoredDoc(settings)["server" := Obj(RestoredServer(settings["server"].fields))]
    else RestoredDoc(settings)
  }

  // Merging a stripped, redacted copy back always succeeds, with this result.
  lemma RedactBack(settings: Doc)
    ensures Merge(settings, StripSentinels(Redact(settings))) == Some(RestoredSettings(settings))
  {
    var redacted, after := Redact(settings), RestoredSettings(settings);
    forall k | k in settings ensures Back(settings[k], redacted[k], after[k]) {
      RedactAt(settings, k);
      if k == "server" && settings[k].Obj? {
        ServerBack(settings[k].fields);
      } else {
        KeyBack(k, settings[k]);
      }
    }
    BackIntro(settings, redacted, after);
  }

  // The document is as it was, but for unset secrets that became the empty string.
  predicate OnlyBlanked(before: Json, after: Json)
    decreases before, 0
  {
    if before.Obj? && after.Obj? then
      && before.fields.Keys == after.fields.Keys
      && forall k | k in before.fields :: OnlyBlankedAt(k, before.fields[k], after.fields[k])
    else before == after
  }

  predicate OnlyBlankedAt(k: string, before: Json, after: Json)
    decreases before, 1
  {
    (Secret(k) && Falsy(before) && after == Str("")) || OnlyBlanked(before, after)
  }

  // No secret inside, except one that already reads like a redacted one.
  predicate Inert(j: Json)
    decreases j, 0
  {
    match j
    case Obj(fields) => forall k | k in fields :: InertAt(k, fields[k])
    case List(items) => forall i | 0 <= i < |items| :: Inert(items[i])
    case _ => true
  }

  predicate InertAt(k: string, v: Json)
    decreases v, 1
  {
    if Secret(k) && Scalar(v) then v == Str("") || v == Str(REDACTED) else Inert(v)
  }

  // Every list in the document, wherever mappings lead to it, is inert.
  predicate ListsInert(j: Json) {
    match j
    case Obj(fields) => forall k | k in fields :: ListsInert(fields[k])
    case List(_) => Inert(j)
    case _ => true
  }

  lemma {:induction false} InertIsUnchanged(j: Json)
    ensures Walk(j) == j <==> Inert(j)
  {
    match j
    case Obj(fields) =>
      forall k | k in fields ensures WalkAt(k, fields[k]) == fields[k] <==> InertAt(k, fields[k]) {
        InertIsUnchanged(fields[k]);
        assert |REDACTED| == 3;
      }
      assert (forall k | k in fields :: WalkDoc(fields)[k] == fields[k]) ==> WalkDoc(fields) == fields;
    case List(items) =>
      forall i | 0 <= i < |items| ensures Walk(items[i]) == items[i] <==> Inert(items[i]) {
        InertIsUnchanged(items[i]);
      }
      assert (forall i | 0 <= i < |items| :: Walk(j).items[i] == items[i]) ==> Walk(j).items == items;
    case _ =>
  }

  lemma {:induction false} RestoredOnlyBlanks(k: string, v: Json)
    ensures OnlyBlankedAt(k, v, RestoredAt(k, v)) <==> ListsInert(v)
    decreases v
  {
    match v
    case Obj(fields) =>
      forall j | j in fields ensures OnlyBlankedAt(j, fields[j], RestoredDoc(fields)[j]) <==> ListsInert(fields[j]) {
        RestoredOnlyBlanks(j, fields[j]);
      }
      assert RestoredAt(k, v) == Obj(RestoredDoc(fields));
    case List(items) => InertIsUnchanged(v);
    case _ =>
  }

  lemma {:induction false} NothingBlanked(j: Json)
    ensures OnlyBlanked(j, j)
  {
    if j.Obj? {
      forall k | k in j.fields ensures OnlyBlanked(j.fields[k], j.fields[k]) {
        NothingBlanked(j.fields[k]);
      }
    }
  }

  lemma ServerOnlyBlanks(server: Doc)
    ensures OnlyBlanked(Obj(server), Obj(RestoredServer(server))) <==> ListsInert(Obj(server - {"auth"}))
  {
    var after, dropped := RestoredServer(server), server - {"auth"};
    forall k | k in server
      ensures OnlyBlankedAt(k, server[k], after[k]) <==> (k in dropped ==> ListsInert(dropped[k]))
    {
      if k == "auth" {
        NothingBlanked(server[k]);
      } else {
        RestoredOnlyBlanks(k, server[k]);
      }
    }
    assert after.Keys == server.Keys;
  }

  // Redacting, stripping and merging back changes nothing but unset secrets,
  // exactly when no list the client sees holds a secret.
  lemma RedactedRoundTrip(settings: Doc)
    ensures var after := Merge(settings, StripSentinels(Redact(settings)));
            after.Some? && (OnlyBlanked(Obj(settings), Obj(after.value)) <==> ListsInert(Obj(DropAuth(settings))))
  {
    RedactBack(settings);
    var after, dropped := RestoredSettings(settings), DropAuth(settings);
    forall k | k in settings ensures OnlyBlankedAt(k, settings[k], after[k]) <==> ListsInert(dropped[k]) {
      if k == "server" && settings[k].Obj? {
        ServerIsNotSecret();
        ServerOnlyBlanks(settings[k].fields);
      } else {
        RestoredOnlyBlanks(k, settings[k]);
      }
    }
    assert after.Keys == settings.Keys == dropped.Keys;
  }

  lemma TokenIsSecret()
    ensures Secret("token")
  {
    assert Folded("token") == "token";
    assert OccursAt(Folded("token"), "token", 0);
    assert Contains(Folded("token"), "token") && "token" in SECRET_WORDS;
  }

  // One such list: its secret comes back as the sentinel.
  lemma ListSecretIsOverwritten()
    ensures var settings: Doc := map["x" := List([Obj(map["token" := Str("abc")])])];
            var after := Merge(settings, StripSentinels(Redact(settings)));
            after.Some? && !OnlyBlanked(Obj(settings), Obj(after.value))
  {
    var secret: Doc := map["token" := Str("abc")];
    var settings: Doc := map["x" := List([Obj(secret)])];
    TokenIsSecret();
    assert !InertAt("token", secret["token"]);
    assert !Inert(Obj(secret));
    assert [Obj(secret)][0] == Obj(secret);
    assert !Inert(settings["x"]);
    assert !ListsInert(Obj(DropAuth(settings)));
    RedactedRoundTrip(settings);
  }
}
