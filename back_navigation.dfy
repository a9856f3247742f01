/**
 * The navigation trail kept in session storage by the route watcher of
 * `useCustomBackNavigation`: two slots, the current URI and the one before it.
 */
module BackNavigation {
  import opened Wrappers
  import opened WebStorage

  const CurrentKey: string := "currentURI"
  const PrevKey: string := "prevURI"

  /**
   * The storage after the watcher has seen the route path `path`: the previous
   * slot takes the old current URI when that was present (non-null, non-empty),
   * otherwise `path` itself; the current slot takes `path`; no other key changes.
   */
  function TrailStep(items: map<string, string>, path: string): (r: map<string, string>)
    ensures CurrentKey in r && r[CurrentKey] == path
    ensures PrevKey in r
    ensures CurrentKey in items && items[CurrentKey] != "" ==> r[PrevKey] == items[CurrentKey]
    ensures (CurrentKey !in items || items[CurrentKey] == "") ==> r[PrevKey] == path
    ensures r.Keys == items.Keys + {CurrentKey, PrevKey}
    ensures forall k :: k in items && k != CurrentKey && k != PrevKey ==> r[k] == items[k]
  {
    var prevURI := if CurrentKey in items then Some(items[CurrentKey]) else None;
    items[PrevKey := if Present(prevURI) then prevURI.value else path][CurrentKey := path]
  }

  /** The storage after the watcher has seen each path of `paths` in turn. */
  function Trail(items: map<string, string>, paths: seq<string>): map<string, string>
    decreases |paths|
  {
    if paths == [] then items else TrailStep(Trail(items, paths[..|paths| - 1]), paths[|paths| - 1])
  }

  /** The watcher callback: rotates the two slots for the new route path. */
  method Observe(storage: SessionStorage, path: string)
    modifies storage
    ensures storage.items == TrailStep(old(storage.items), path)
  {
    var prevURI := storage.GetItem(CurrentKey);
    storage.SetItem(PrevKey, if Present(prevURI) then prevURI.value else path);
    storage.SetItem(CurrentKey, path);
  }

  /**
   * `useCustomBackNavigation()`: installs the watcher with `immediate: true`, so
   * the path of the route at installation time is observed at once.
   */
  method UseCustomBackNavigation(storage: SessionStorage, routePath: string)
    modifies storage
    ensures storage.items == TrailStep(old(storage.items), routePath)
  {
    Observe(storage, routePath);
  }

  /** The first observation on empty slots seeds both with the observed path. */
  lemma FirstObservationSeedsBoth(items: map<string, string>, p: string)
    requires CurrentKey !in items
    ensures TrailStep(items, p)[PrevKey] == p && TrailStep(items, p)[CurrentKey] == p
  {
  }

  /**
   * After a run of non-empty paths, the current slot holds the last one and the
   * previous slot the one before it (or, after a single path, what the first
   * step put there).
   */
  lemma TrailHoldsLastTwo(items: map<string, string>, paths: seq<string>)
    requires |paths| > 0
    requires forall i :: 0 <= i < |paths| ==> paths[i] != ""
    ensures CurrentKey in Trail(items, paths) && PrevKey in Trail(items, paths)
    ensures Trail(items, paths)[CurrentKey] == paths[|paths| - 1]
    ensures |paths| >= 2 ==> Trail(items, paths)[PrevKey] == paths[|paths| - 2]
    ensures |paths| == 1 ==> Trail(items, paths)[PrevKey] == TrailStep(items, paths[0])[PrevKey]
  {
  }

  /**
   * However many paths the watcher observes, only the two slots are written:
   * every other key keeps its value and no other key appears.
   */
  lemma {:induction false} TrailWritesOnlyTwoSlots(items: map<string, string>, paths: seq<string>)
    ensures Trail(items, paths).Keys == items.Keys + (if paths == [] then {} else {CurrentKey, PrevKey})
    ensures forall k :: k in items && k != CurrentKey && k != PrevKey ==> Trail(items, paths)[k] == items[k]
    decreases |paths|
  {
    if paths != [] {
      TrailWritesOnlyTwoSlots(items, paths[..|paths| - 1]);
    }
  }

  /** Observing A, B, C on empty storage gives (A, A), then (A, B), then (B, C). */
  lemma ThreeStepTrail(a: string, b: string, c: string)
    requires a != "" && b != "" && c != ""
    ensures var s1 := TrailStep(map[], a);
            s1[PrevKey] == a && s1[CurrentKey] == a
    ensures var s2 := TrailStep(TrailStep(map[], a), b);
            s2[PrevKey] == a && s2[CurrentKey] == b
    ensures var s3 := TrailStep(TrailStep(TrailStep(map[], a), b), c);
            s3[PrevKey] == b && s3[CurrentKey] == c
    ensures TrailStep(TrailStep(TrailStep(map[], a), b), c).Keys == {PrevKey, CurrentKey}
  {
  }
}
