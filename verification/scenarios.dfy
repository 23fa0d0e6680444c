/** Client code that drives the components through whole interactions, using
    only their contracts: the navigation lock, a bubble click reaching the
    shell, a drag across the angle seam, and stray events. */
module Scenarios {
  import opened Options
  import opened Navigation
  import opened GearScroll
  import GearPages
  import Bubbles

  /** 1 when a commit changed the page, 0 when it left it. */
  function Changed(before: string, after: string): nat
  {
    if before != after then 1 else 0
  }

  /** Two requests for "skills" before the timer fires: the second is
      dropped, so the page changes exactly once, to "skills". */
  method DoubleRequestCommitsOnce() returns (changes: nat, finalPage: string)
    ensures changes == 1 && finalPage == PageName(Skills)
  {
    var app := new App();
    app.HandleNavigate("skills");
    app.HandleNavigate("skills");
    var before := app.currentPage;
    app.CommitFires();
    changes := Changed(before, app.currentPage);
    before := app.currentPage;
    app.CommitFires();
    changes := changes + Changed(before, app.currentPage);
    finalPage := app.currentPage;
  }

  /** From home, request "projects": until the commit the lock is held and
      home is still shown; after it, projects is shown and the lock is free. */
  method HomeToProjects() returns (midPage: PageId, midLocked: bool, endPage: PageId, endLocked: bool)
    ensures midPage == Home && midLocked
    ensures endPage == Projects && !endLocked
  {
    var app := new App();
    app.HandleNavigate("projects");
    RenderPageName(Home);
    midPage, midLocked := app.Rendered(), app.OverlayShown();
    app.CommitFires();
    RenderPageName(Projects);
    endPage, endLocked := app.Rendered(), app.OverlayShown();
  }

  /** Asking for the page already shown never takes the lock. */
  method SelfNavigationIgnored() returns (locked: bool, page: PageId)
    ensures !locked && page == Home
  {
    var app := new App();
    app.HandleNavigate("home");
    RenderPageName(Home);
    locked, page := app.OverlayShown(), app.Rendered();
  }

  /** On the Projects page, clicking "skills" plays the expansion and, when
      its timer fires, asks the shell for "skills", which shows it after the
      commit; clicking "projects" on that bar asks for a reload instead. */
  method BubbleClickReachesShell(container: GearPages.ScrollContainer?, angleOf: (real, real) -> Degrees)
    returns (reloadOnOwnPage: bool, overlayAfterClick: bool, forwarded: Option<string>, shown: PageId)
    ensures reloadOnOwnPage && overlayAfterClick
    ensures forwarded == Some("skills") && shown == Skills
  {
    var app := new App();
    app.HandleNavigate("projects");
    app.CommitFires();
    var page := new GearPages.GearPage.Projects(container, angleOf);
    reloadOnOwnPage := page.nav.HandleBubbleClick("projects");
    var reload := page.nav.HandleBubbleClick("skills");
    overlayAfterClick := page.nav.OverlayShown();
    forwarded := page.nav.TimerFires();
    app.HandleNavigate(forwarded.value);
    app.CommitFires();
    RenderPageName(Skills);
    shown := app.Rendered();
  }

  /** A drag that crosses the seam from 170 to -170 degrees turns the gear by
      20 degrees, not -340, and scrolls the Skills page down by 60 pixels. */
  method SeamCrossingScrollsDown() returns (spin: real, scrolled: real)
    ensures spin == 20.0 && scrolled == 60.0
  {
    var angleOf: (real, real) -> Degrees := (dy: real, dx: real) => if dy < 0.0 then -170.0 else 170.0;
    var container := new GearPages.ScrollContainer(0.0, 0.0);
    var page := new GearPages.GearPage.Skills(container, angleOf);
    var control := Rect(0.0, 0.0, 10.0, 10.0);
    page.gear.MouseDown(Some(control), Point(10.0, 10.0));
    assert page.gear.lastAngle == 170.0;
    page.GearMouseMove(Point(10.0, 0.0));
    assert page.gear.lastAngle == -170.0;
    assert NormalizeDelta(170.0, -170.0) == 20.0;
    spin, scrolled := page.gear.rotation, container.scrollTop;
  }

  /** A move with no drag in progress, and a touch after the drag ended, emit
      nothing and leave the gear where it was. */
  method StrayMovesIgnored(angleOf: (real, real) -> Degrees, p: Point, q: Point)
    returns (first: Option<ScrollCommand>, second: Option<ScrollCommand>, rotation: real)
    ensures first == None && second == None && rotation == 0.0
  {
    var gear := new Gear(angleOf);
    first := gear.MouseMove(p);
    gear.TouchStart(Some(Rect(0.0, 0.0, 2.0, 2.0)), [p]);
    gear.TouchEnd();
    second := gear.TouchMove([q]);
    rotation := gear.rotation;
  }
}
