/**
 * The router's global `beforeEach` guard and its `scrollBehavior`. Router
 * effects are returned as values: the guard's outcome says whether `next()` is
 * called or the navigation is cancelled with a delayed `router.replace`.
 */
module Router {
  import opened Wrappers
  import opened WebStorage
  import opened BackNavigation

  const Root: string := "/"

  /** Previous URIs from which a same-path (back) navigation is sent to the root. */
  const MoveMainTarget: set<string> := {
    "/communication/partner/complete",
    "/communication/visit-before-inquire/complete",
    "/communication/visit-after-inquire/write",
    "/communication/visit-after-inquire/complete",
    "/login/email"
  }

  /** Delay before the forced `router.replace('/')`, in milliseconds. */
  const RedirectDelayMs: nat := 200

  /** Which of the guard's two cancelling branches returned. */
  datatype CancelReason = PrevInDenylist | CurrentIsRoot

  /**
   * `Allow`: the guard calls `next()` once. `CancelAndRedirect`: it returns
   * without calling `next()` and schedules one `router.replace(target)` after
   * `delayMs` milliseconds.
   */
  datatype Outcome =
    | Allow
    | CancelAndRedirect(delayMs: nat, target: string, reason: CancelReason)

  /** The guard's decision over the two stored slots and the two route paths. */
  function Decide(prevURI: Option<string>, currentURI: Option<string>, toPath: string, fromPath: string): (r: Outcome)
    ensures toPath != fromPath ==> r == Allow
    ensures r.CancelAndRedirect? ==> r.delayMs == RedirectDelayMs && r.target == Root
    ensures r.CancelAndRedirect? && r.reason == PrevInDenylist <==>
              prevURI.Some? && prevURI.value in MoveMainTarget && toPath == fromPath
    ensures r.CancelAndRedirect? && r.reason == CurrentIsRoot <==>
              !(prevURI.Some? && prevURI.value in MoveMainTarget) && currentURI == Some(Root) && toPath == fromPath
    ensures r == Allow <==>
              toPath != fromPath || (!(prevURI.Some? && prevURI.value in MoveMainTarget) && currentURI != Some(Root))
  {
    if Present(prevURI) && prevURI.value in MoveMainTarget && toPath == fromPath then
      CancelAndRedirect(RedirectDelayMs, Root, PrevInDenylist)
    else if currentURI == Some(Root) && toPath == fromPath then
      CancelAndRedirect(RedirectDelayMs, Root, CurrentIsRoot)
    else
      Allow
  }

  /**
   * `router.beforeEach((to, from, next) => ...)`: reads the previous slot, and
   * the current slot only when the first rule does not fire. There is no
   * modifies clause: the guard never writes the storage.
   */
  method BeforeEach(storage: SessionStorage, toPath: string, fromPath: string) returns (r: Outcome)
    ensures r == Decide(storage.GetItem(PrevKey), storage.GetItem(CurrentKey), toPath, fromPath)
  {
    var prevURI := storage.GetItem(PrevKey);
    if Present(prevURI) && prevURI.value in MoveMainTarget && toPath == fromPath {
      return CancelAndRedirect(RedirectDelayMs, Root, PrevInDenylist);
    }
    var currentURI := storage.GetItem(CurrentKey);
    if currentURI == Some(Root) && toPath == fromPath {
      return CancelAndRedirect(RedirectDelayMs, Root, CurrentIsRoot);
    }
    return Allow;
  }

  /** A missing previous slot never triggers the denylist redirect. */
  lemma NullPrevNeverDenylisted(currentURI: Option<string>, toPath: string, fromPath: string)
    ensures Decide(None, currentURI, toPath, fromPath) != CancelAndRedirect(RedirectDelayMs, Root, PrevInDenylist)
  {
  }

  /**
   * After the trail has recorded a denylisted page `d` followed by any page
   * `p`, a same-path navigation is cancelled by the first rule.
   */
  lemma BackFromDenylistedPage(items: map<string, string>, d: string, p: string, path: string)
    requires d in MoveMainTarget
    ensures var s := TrailStep(TrailStep(items, d), p);
            Decide(Some(s[PrevKey]), Some(s[CurrentKey]), path, path)
              == CancelAndRedirect(RedirectDelayMs, Root, PrevInDenylist)
  {
    assert d != "";
  }

  /**
   * After the trail has recorded the root as its current page, a same-path
   * navigation is cancelled, whatever the previous page was.
   */
  lemma SamePathOnRootCancelled(items: map<string, string>, path: string)
    ensures var s := TrailStep(items, Root);
            Decide(Some(s[PrevKey]), Some(s[CurrentKey]), path, path).CancelAndRedirect?
  {
  }

  /** A saved scroll position, or the position the router scrolls to. */
  datatype Position = Position(top: int, left: int)

  /**
   * `ScrollNow(pos)`: the position is returned synchronously.
   * `ScrollAfter(delayMs, pos)`: a promise resolving to `pos` after `delayMs`.
   */
  datatype ScrollResult = ScrollNow(pos: Position) | ScrollAfter(delayMs: nat, pos: Position)

  /** `scrollBehavior(to, from, savedPosition)`. */
  function ScrollBehavior(toPath: string, savedPosition: Option<Position>): (r: ScrollResult)
    ensures savedPosition.None? ==> r == ScrollNow(Position(0, 0))
    ensures savedPosition.Some? ==> r.ScrollAfter? && r.pos == savedPosition.value
    ensures savedPosition.Some? && toPath == Root ==> r.delayMs == 2000
    ensures savedPosition.Some? && toPath != Root ==> r.delayMs == 1000
  {
    match savedPosition
    case Some(pos) => ScrollAfter(if toPath == Root then 2000 else 1000, pos)
    case None => ScrollNow(Position(0, 0))
  }
}
