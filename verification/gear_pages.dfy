/** The three scrolling pages of src/pages (Projects, Experience, Skills).
    Each owns a scroll container, a gear whose onScroll is the page's
    handleGearScroll, and a bubble bar told the page's own id. */
module GearPages {
  import opened Options
  import opened GearScroll
  import Navigation
  import Bubbles

  /** The vertical offset a scroll command asks for: the amount itself going
      down, its negation going up. */
  function ScrollOffset(direction: Direction, amount: real): (top: real)
    ensures Abs(top) == Abs(amount)
    ensures amount > 0.0 ==> (top > 0.0 <==> direction == Down)
  {
    if direction == Down then amount else -amount
  }

  /** End to end: a move whose corrected delta leaves the dead zone scrolls
      the page by exactly the gain times that delta, and one inside it
      scrolls nothing. */
  lemma GearDeltaScrollsPage(d: real)
    ensures Abs(d) > DEAD_ZONE ==>
      Emit(d).Some? && ScrollOffset(Emit(d).value.direction, Emit(d).value.amount) == GAIN * d
    ensures Abs(d) <= DEAD_ZONE ==> Emit(d) == None
  {
  }

  /** The scrollable element of a page (only its scroll position is modelled). */
  class ScrollContainer {
    var scrollTop: real
    var scrollLeft: real

    constructor (scrollTop: real, scrollLeft: real)
      ensures this.scrollTop == scrollTop && this.scrollLeft == scrollLeft
    {
      this.scrollTop := scrollTop;
      this.scrollLeft := scrollLeft;
    }

    /** scrollBy({ top }): moves the vertical position, leaves the horizontal one. */
    method ScrollBy(top: real)
      modifies this
      ensures scrollTop == old(scrollTop) + top && scrollLeft == old(scrollLeft)
    {
      scrollTop := scrollTop + top;
    }
  }

  /** A page with the gear control. `container` is null until the element
      is mounted. */
  class GearPage {
    const id: Navigation.PageId
    const container: ScrollContainer?
    const gear: Gear
    const nav: Bubbles.BubbleNavigation

    /** ProjectsPage: its bar is told "projects". */
    constructor Projects(container: ScrollContainer?, angleOf: (real, real) -> Degrees)
      ensures id == Navigation.Projects && nav.currentPage == Navigation.PageName(id)
      ensures this.container == container && fresh(gear) && fresh(nav)
      ensures gear.Valid() && gear.angleOf == angleOf && !gear.isDragging && gear.rotation == 0.0
      ensures nav.expandingBubble == None && nav.scheduled == []
    {
      id := Navigation.Projects;
      this.container := container;
      gear := new Gear(angleOf);
      nav := new Bubbles.BubbleNavigation("projects");
    }

    /** ExperiencePage: its bar is told "experience". */
    constructor Experience(container: ScrollContainer?, angleOf: (real, real) -> Degrees)
      ensures id == Navigation.Experience && nav.currentPage == Navigation.PageName(id)
      ensures this.container == container && fresh(gear) && fresh(nav)
      ensures gear.Valid() && gear.angleOf == angleOf && !gear.isDragging && gear.rotation == 0.0
      ensures nav.expandingBubble == None && nav.scheduled == []
    {
      id := Navigation.Experience;
      this.container := container;
      gear := new Gear(angleOf);
      nav := new Bubbles.BubbleNavigation("experience");
    }

    /** SkillsPage: its bar is told "skills". */
    constructor Skills(container: ScrollContainer?, angleOf: (real, real) -> Degrees)
      ensures id == Navigation.Skills && nav.currentPage == Navigation.PageName(id)
      ensures this.container == container && fresh(gear) && fresh(nav)
      ensures gear.Valid() && gear.angleOf == angleOf && !gear.isDragging && gear.rotation == 0.0
      ensures nav.expandingBubble == None && nav.scheduled == []
    {
      id := Navigation.Skills;
      this.container := container;
      gear := new Gear(angleOf);
      nav := new Bubbles.BubbleNavigation("skills");
    }

    /** handleGearScroll: with the container mounted, scrolls it vertically by
        the command's signed offset; without it, does nothing. */
    method HandleGearScroll(direction: Direction, amount: real)
      modifies container
      ensures container != null ==>
        container.scrollTop == old(container.scrollTop) + ScrollOffset(direction, amount) &&
        container.scrollLeft == old(container.scrollLeft)
    {
      if container != null {
        var scrollAmount := if direction == Down then amount else -amount;
        container.ScrollBy(scrollAmount);
      }
    }

    /** A pointer move reaching the page's gear, whose onScroll is wired to
        HandleGearScroll: while dragging, a delta outside the dead zone scrolls
        the mounted container by the gain times the delta; otherwise the
        scroll position stays. */
    method GearMouseMove(p: Point)
      requires gear.Valid()
      modifies gear, container
      ensures gear.Valid()
      ensures gear.isDragging == old(gear.isDragging) && gear.center == old(gear.center)
      ensures !old(gear.isDragging) ==>
        gear.rotation == old(gear.rotation) && gear.lastAngle == old(gear.lastAngle)
      ensures old(gear.isDragging) ==>
        gear.lastAngle == gear.AngleAt(p) &&
        gear.rotation == old(gear.rotation) + NormalizeDelta(old(gear.lastAngle), gear.lastAngle)
      ensures container != null ==> container.scrollLeft == old(container.scrollLeft)
      ensures container != null ==>
        container.scrollTop == old(container.scrollTop) +
        (var d := NormalizeDelta(old(gear.lastAngle), gear.lastAngle);
         if old(gear.isDragging) && Abs(d) > DEAD_ZONE then GAIN * d else 0.0)
    {
      var emitted := gear.MouseMove(p);
      if emitted.Some? {
        HandleGearScroll(emitted.value.direction, emitted.value.amount);
      }
      GearDeltaScrollsPage(NormalizeDelta(old(gear.lastAngle), gear.lastAngle));
    }
  }
}
