/** The application shell of src/App.tsx: the closed set of pages, the
    navigation controller with its transition lock and deferred commit, and
    the page switch that renders the current page. */
module Navigation {
  import opened Options

  /** The five pages of the site (the PageType union). */
  datatype PageId = Home | Experience | Skills | Projects | Contact

  /** The string id under which each page travels through onNavigate. */
  function PageName(p: PageId): string
  {
    match p
    case Home => "home"
    case Experience => "experience"
    case Skills => "skills"
    case Projects => "projects"
    case Contact => "contact"
  }

  /** The page the shell renders for a stored page id: the page with that
      name, and the home page for any string that names no page. */
  function RenderPage(current: string): (p: PageId)
    ensures current == PageName(p) || (p == Home && forall q :: current != PageName(q))
  {
    if current == "home" then Home
    else if current == "experience" then Experience
    else if current == "skills" then Skills
    else if current == "projects" then Projects
    else if current == "contact" then Contact
    else Home
  }

  /** Rendering the name of a page renders that page, so no two pages share a name. */
  lemma RenderPageName(p: PageId)
    ensures RenderPage(PageName(p)) == p
  {
  }

  /** The navigation controller: the current page, the transition lock and
      the commit that the 500 ms timer will run, if one is pending. */
  class App {
    var currentPage: string
    var isTransitioning: bool
    var scheduledCommit: Option<string>

    /** The lock is held exactly while a commit is pending, and a pending
        commit always moves to a page other than the current one. */
    ghost predicate Valid()
      reads this
    {
      (isTransitioning <==> scheduledCommit.Some?) &&
      (scheduledCommit.Some? ==> scheduledCommit.value != currentPage)
    }

    /** The shell starts on the home page with no transition in flight. */
    constructor ()
      ensures Valid()
      ensures currentPage == PageName(Home) && !isTransitioning && scheduledCommit == None
    {
      currentPage := "home";
      isTransitioning := false;
      scheduledCommit := None;
    }

    /** handleNavigate: a request for the current page, or any request while a
        transition is in flight, is dropped; otherwise the lock is taken and the
        commit to the requested page is scheduled. The page itself does not
        change yet. */
    method HandleNavigate(page: string)
      requires Valid()
      modifies this
      ensures Valid()
      ensures old(page == currentPage || isTransitioning) ==>
        currentPage == old(currentPage) && isTransitioning == old(isTransitioning) &&
        scheduledCommit == old(scheduledCommit)
      ensures old(page != currentPage && !isTransitioning) ==>
        currentPage == old(currentPage) && isTransitioning && scheduledCommit == Some(page)
    {
      if page == currentPage || isTransitioning {
        return;
      }
      isTransitioning := true;
      scheduledCommit := Some(page);
    }

    /** The deferred commit fires: the requested page becomes current (stored
        without checking that it names a page) and the lock is released. With
        no commit pending there is no timer, and nothing happens. */
    method CommitFires()
      requires Valid()
      modifies this
      ensures Valid()
      ensures old(scheduledCommit).Some? ==>
        currentPage == old(scheduledCommit).value && currentPage != old(currentPage) &&
        !isTransitioning && scheduledCommit == None
      ensures old(scheduledCommit).None? ==>
        currentPage == old(currentPage) && isTransitioning == old(isTransitioning) &&
        scheduledCommit == None
    {
      if scheduledCommit.Some? {
        currentPage := scheduledCommit.value;
        isTransitioning := false;
        scheduledCommit := None;
      }
    }

    /** The page the switch in renderPage shows. */
    function Rendered(): (p: PageId)
      reads this
      ensures currentPage == PageName(p) || (p == Home && forall q :: currentPage != PageName(q))
    {
      RenderPage(currentPage)
    }

    /** The full-screen transition overlay is mounted exactly while the lock is held. */
    predicate OverlayShown()
      reads this
    {
      isTransitioning
    }
  }
}
