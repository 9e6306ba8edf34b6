/**
 * `OnboardingViewController`: two pages, blue then red, paged by a page
 * view controller, with a page control showing where the user is.
 */
module Onboarding {
  import opened Common
  import opened Seqs

  /**
   * A view controller the page view controller may hand over: one of the two
   * onboarding pages, or some other controller (`Foreign`), compared by
   * identity.
   */
  datatype Screen = BluePage | RedPage | Foreign(n: nat)

  const Pages: seq<Screen> := [BluePage, RedPage]

  /** `viewControllerBefore`: the previous page, `None` on the first page or for a foreign controller. */
  function Before(s: Screen): (r: Option<Screen>)
    ensures s !in Pages ==> r.None?
    ensures r.Some? <==> s in Pages && FirstIndexOf(Pages, s).value > 0
    ensures r.Some? ==> r.value == Pages[FirstIndexOf(Pages, s).value - 1]
  {
    match FirstIndexOf(Pages, s)
    case None => None
    case Some(i) => if i - 1 >= 0 then Some(Pages[i - 1]) else None
  }

  /** `viewControllerAfter`: the next page, `None` on the last page or for a foreign controller. */
  function After(s: Screen): (r: Option<Screen>)
    ensures s !in Pages ==> r.None?
    ensures r.Some? <==> s in Pages && FirstIndexOf(Pages, s).value + 1 < |Pages|
    ensures r.Some? ==> r.value == Pages[FirstIndexOf(Pages, s).value + 1]
  {
    match FirstIndexOf(Pages, s)
    case None => None
    case Some(i) => if i + 1 < |Pages| then Some(Pages[i + 1]) else None
  }

  /** Paging is bounded and consistent: forward from `p` reaches `q` exactly when back from `q` reaches `p`. */
  lemma {:induction false} BeforeAfterInverse(p: Screen, q: Screen)
    ensures After(p) == Some(q) <==> Before(q) == Some(p)
    ensures Before(Pages[0]).None? && After(Pages[|Pages| - 1]).None?
  {
  }

  /** What is on screen and what the page control says. */
  datatype Pager = Pager(shown: Screen, currentPage: int, numberOfPages: int)

  /** `viewDidLoad`: the first page is shown; the control counts the pages and points at the first. */
  function ViewDidLoad(): (r: Pager)
    ensures r.shown == Pages[0] && r.numberOfPages == |Pages| && r.currentPage == 0
  {
    Pager(Pages[0], 0, |Pages|)
  }

  /**
   * `didFinishAnimating`: the control moves to the index of the controller
   * now shown, whatever `finished` and `completed` say; a controller not
   * among the pages leaves it alone.
   */
  function DidFinishAnimating(p: Pager, shown: Screen, finished: bool, completed: bool): (r: Pager)
    ensures r.shown == shown && r.numberOfPages == p.numberOfPages
    ensures shown in Pages ==> 0 <= r.currentPage < |Pages| && Pages[r.currentPage] == shown
    ensures shown !in Pages ==> r.currentPage == p.currentPage
  {
    match FirstIndexOf(Pages, shown)
    case None => p.(shown := shown)
    case Some(i) => p.(shown := shown, currentPage := i)
  }

  /** The page control agrees with the page on screen. */
  predicate InSync(p: Pager) {
    0 <= p.currentPage < |Pages| && Pages[p.currentPage] == p.shown && p.numberOfPages == |Pages|
  }

  /**
   * One swipe: the data source offers the neighbouring page; a completed
   * transition shows it, an abandoned one leaves the old page; then the
   * delegate is told.
   */
  function Swipe(p: Pager, forward: bool, completed: bool): Pager {
    var offered := if forward then After(p.shown) else Before(p.shown);
    var shown := if completed && offered.Some? then offered.value else p.shown;
    DidFinishAnimating(p, shown, true, completed)
  }

  /** Loading starts in sync and every swipe, completed or abandoned, keeps the control in sync. */
  lemma {:induction false} SwipesKeepSync(p: Pager, forward: bool, completed: bool)
    ensures InSync(ViewDidLoad())
    ensures InSync(p) ==> InSync(Swipe(p, forward, completed))
    ensures InSync(p) && !completed ==> Swipe(p, forward, completed) == p
  {
  }
}
