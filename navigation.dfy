/** The site's navigation store (`store/navigation.ts`): the page shown and
    whether the mobile menu is open. Each action replaces the named fields
    and leaves the rest as they were. */
module Navigation {

  /** The store's declared `Page` union. `Apps.tsx:56` also stores
      'calculator' and 'ratcatcher' (from the project list at `Apps.tsx:17`
      and `:25`), which this datatype leaves out. */
  datatype Page = Home | About | Apps

  datatype NavState = NavState(currentPage: Page, isMenuOpen: bool)

  /** The store as created: the home page, menu closed. */
  function Initial(): (s: NavState)
    ensures s.currentPage == Home && !s.isMenuOpen
  {
    NavState(Home, false)
  }

  /** `setCurrentPage`: show `page` and close the menu. */
  function PageSet(s: NavState, page: Page): (r: NavState)
    ensures r.currentPage == page && !r.isMenuOpen
  {
    NavState(page, false)
  }

  /** `setIsMenuOpen`: exactly the flag changes. */
  function MenuSet(s: NavState, isOpen: bool): (r: NavState)
    ensures r.isMenuOpen == isOpen && r.currentPage == s.currentPage
  {
    s.(isMenuOpen := isOpen)
  }

  /** `toggleMenu`: the flag flips, the page stays. */
  function MenuToggled(s: NavState): (r: NavState)
    ensures r.isMenuOpen != s.isMenuOpen && r.currentPage == s.currentPage
  {
    s.(isMenuOpen := !s.isMenuOpen)
  }

  /** Toggling twice restores the state. */
  lemma ToggleTwice(s: NavState)
    ensures MenuToggled(MenuToggled(s)) == s
  {
  }

  /** Setting the flag twice is setting it once, and the last setting wins. */
  lemma MenuSetIdempotent(s: NavState, a: bool, b: bool)
    ensures MenuSet(MenuSet(s, a), a) == MenuSet(s, a)
    ensures MenuSet(MenuSet(s, a), b) == MenuSet(s, b)
  {
  }

  /** Toggling agrees with setting the flag to its negation. */
  lemma ToggleIsSetNegation(s: NavState)
    ensures MenuToggled(s) == MenuSet(s, !s.isMenuOpen)
  {
  }

  /** Choosing a page forgets the menu: whatever the flag was, the result
      is the same, and choosing the same page again changes nothing. */
  lemma PageSetClosesMenu(s: NavState, page: Page, b: bool)
    ensures PageSet(MenuSet(s, b), page) == PageSet(s, page)
    ensures PageSet(MenuToggled(s), page) == PageSet(s, page)
    ensures PageSet(PageSet(s, page), page) == PageSet(s, page)
  {
  }

  /** A sequence of store actions. */
  datatype Action = SetCurrentPage(page: Page) | SetIsMenuOpen(isOpen: bool) | ToggleMenu

  function Applied(s: NavState, a: Action): NavState
  {
    match a
    case SetCurrentPage(p) => PageSet(s, p)
    case SetIsMenuOpen(b) => MenuSet(s, b)
    case ToggleMenu => MenuToggled(s)
  }

  function Run(s: NavState, actions: seq<Action>): NavState
    decreases |actions|
  {
    if actions == [] then s else Run(Applied(s, actions[0]), actions[1..])
  }

  /** Only `setCurrentPage` moves between pages: after any run of actions
      the page is the one most recently chosen, or the starting page when
      none was chosen. */
  function LastChosen(start: Page, actions: seq<Action>): Page
    decreases |actions|
  {
    if actions == [] then start
    else if actions[|actions| - 1].SetCurrentPage? then actions[|actions| - 1].page
    else LastChosen(start, actions[..|actions| - 1])
  }

  /** Running the actions from `s` shows the page chosen last. */
  lemma {:induction false} RunShowsLastChosen(s: NavState, actions: seq<Action>)
    ensures Run(s, actions).currentPage == LastChosen(s.currentPage, actions)
    decreases |actions|
  {
    if actions != [] {
      RunShowsLastChosen(Applied(s, actions[0]), actions[1..]);
      LastChosenShift(s.currentPage, actions);
    }
  }

  /** Peeling the first action off instead of the last. */
  lemma {:induction false} LastChosenShift(start: Page, actions: seq<Action>)
    requires actions != []
    ensures LastChosen(start, actions) == LastChosen(Applied(NavState(start, false), actions[0]).currentPage, actions[1..])
    decreases |actions|
  {
    if |actions| > 1 {
      var front := actions[..|actions| - 1];
      assert front[0] == actions[0];
      assert front[1..] == actions[1..][..|actions[1..]| - 1];
      LastChosenShift(start, front);
    }
  }

  /** The store object: its two fields are replaced by the actions. */
  class NavigationStore {
    var currentPage: Page
    var isMenuOpen: bool

    function State(): NavState
      reads this
    {
      NavState(currentPage, isMenuOpen)
    }

    constructor ()
      ensures State() == Initial()
    {
      currentPage := Home;
      isMenuOpen := false;
    }

    method SetCurrentPage(page: Page)
      modifies this
      ensures State() == PageSet(old(State()), page)
    {
      currentPage := page;
      isMenuOpen := false;
    }

    method SetIsMenuOpen(isOpen: bool)
      modifies this
      ensures State() == MenuSet(old(State()), isOpen)
    {
      isMenuOpen := isOpen;
    }

    method ToggleMenu()
      modifies this
      ensures State() == MenuToggled(old(State()))
    {
      isMenuOpen := !isMenuOpen;
    }
  }
}
