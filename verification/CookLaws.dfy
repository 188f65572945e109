/** What a state snapshot does to the archive, and how soon a sample is stored. */
module CookLaws {
  import opened Wrappers
  import opened CookArchive

  predicate Cooks(mode: Option<string>) {
    mode.Some? && mode.value !in {"Stop", "Error", "Monitor", "Manual"}
  }

  predicate Ends(mode: Option<string>) { mode.Some? && mode.value in {"Stop", "Error"} }

  // The interval since the last sample is over.
  predicate Due(a: Archive, s: Snapshot) { s.now - a.cook.lastSample >= s.interval }

  // A cooking snapshot samples the open cook if and only if the interval is over.
  lemma CookingSnapshotSamples(a: Archive, s: Snapshot)
    requires Tracked(a) && Cooks(s.mode) && a.cook.id.Some?
    ensures var a', id := Track(a, s), a.cook.id.value;
            && a'.cook.id == a.cook.id && a'.cloud.heads == a.cloud.heads
            && (Due(a, s) ==> a'.log == a.log[id := a.log[id] + [s.row]] && a'.cook.lastSample == s.now)
            && (!Due(a, s) ==> a' == a)
  {
  }

  // The first cooking snapshot begins a cook under its new id, with an active
  // document of its own, and samples it at once.
  lemma FirstSnapshotStarts(a: Archive, s: Snapshot)
    requires Tracked(a) && Cooks(s.mode) && a.cook.id.None? && s.interval <= s.now
    ensures var a' := Track(a, s);
            && a'.cook.id == Some(s.newId)
            && (s.first.Stored? ==>
                  && a'.log == a.log[s.newId := [s.row]] && a'.cook.lastSample == s.now
                  && a'.cloud.heads == a.cloud.heads[s.newId := Active])
            && (!s.first.Stored? ==> a'.log == a.log[s.newId := []] && a'.cook.buffer == [])
            && a'.cook.lastFlush == s.now
  {
    if s.first.Stored? {
      var begun := Start(a, s.newId, s.now, s.first).0;
      assert begun.log[s.newId] + [s.row] == [s.row];
      assert begun.log[s.newId := [s.row]] == a.log[s.newId := [s.row]];
    }
  }

  // Stop ends the open cook as done and Error as failed, once both uploads are
  // through; until then the cook stays open.
  lemma FinalSnapshotEnds(a: Archive, s: Snapshot)
    requires Tracked(a) && Ends(s.mode) && a.cook.id.Some?
    ensures var a', id := Track(a, s), a.cook.id.value;
            && a'.log == a.log
            && (s.first.Stored? && s.second.Stored? ==>
                  && a'.cook == NO_COOK
                  && a'.cloud.heads == a.cloud.heads[id := Ended(s.mode == Some("Error"))])
            && (a'.cook.id.None? ==> id in a'.cloud.heads && a'.cloud.heads[id] == Ended(s.mode == Some("Error")))
            && (a'.cook.id.Some? ==> a'.cook.id == a.cook.id)
  {
  }

  // Any other snapshot changes nothing.
  lemma OtherSnapshotsDoNothing(a: Archive, s: Snapshot)
    requires Tracked(a) && !Cooks(s.mode) && (Ends(s.mode) ==> a.cook.id.None?)
    ensures Track(a, s) == a
  {
  }

  // ----- How soon a sample is stored -----

  // A sample that waits to be stored was taken within two minutes of the last flush.
  ghost predicate Prompt(a: Archive) {
    a.cook.id.Some? ==>
      && (a.cook.buffer != [] && !StoredWhole(a) ==> a.cook.lastSample - a.cook.lastFlush < 120.0)
      && |a.cook.buffer| < 360
  }

  lemma FlushStores(a: Archive, now: real)
    requires a.cook.id.Some?
    ensures var a' := Flush(a, now, Stored).0;
            && StoredWhole(a') && a'.cook.lastSample == a.cook.lastSample && a'.cook.id == a.cook.id
            && (|a.cook.buffer| <= 360 ==> |a'.cook.buffer| < 360)
            && (a.cook.buffer != [] ==> a'.cook.lastFlush == now)
  {
  }

  lemma SamplePrompt(a: Archive, row: Row, interval: real, now: real)
    requires Tracked(a) && a.cook.id.Some? && Prompt(a)
    ensures Prompt(Sample(a, row, interval, now, Stored).0)
  {
    if now - a.cook.lastSample >= interval {
      var id := a.cook.id.value;
      FlushStores(a.(cook := a.cook.(lastSample := now, buffer := a.cook.buffer + [row]),
                     log := a.log[id := a.log[id] + [row]]), now);
    }
  }

  lemma AdvancePrompt(a: Archive, m: Moment)
    requires Tracked(a) && Prompt(a) && (m.Published? ==> m.s.first.Stored? && m.s.second.Stored?)
    ensures Prompt(Advance(a, m))
  {
    if m.Published? && PhaseOf(m.s.mode).Cooking? {
      if a.cook.id.Some? {
        SamplePrompt(a, m.s.row, m.s.interval, m.s.now);
      } else {
        SamplePrompt(Start(a, m.s.newId, m.s.now, Stored).0, m.s.row, m.s.interval, m.s.now);
      }
    }
  }

  // While uploads go through, over any run.
  lemma {:induction false} SamplesAreStoredPromptly(a: Archive, moments: seq<Moment>)
    requires Tracked(a) && Prompt(a)
    requires forall m | m in moments && m.Published? :: m.s.first.Stored? && m.s.second.Stored?
    ensures Prompt(AdvanceAll(a, moments))
    decreases |moments|
  {
    if moments != [] {
      AdvancePrompt(a, moments[0]);
      SamplesAreStoredPromptly(Advance(a, moments[0]), moments[1..]);
    }
  }
}
