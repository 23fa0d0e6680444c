/** The bubble navigation bar of src/components/BubbleNavigation.tsx: the
    fixed list of items, which item is highlighted, and the click handler
    that either reloads the page or plays the expanding-bubble effect and
    forwards the request after a delay. */
module Bubbles {
  import opened Options
  import opened Navigation

  /** The ids of the navigation items, in display order. */
  const NAV_ITEM_IDS: seq<string> := ["home", "experience", "skills", "projects", "contact"]

  /** The items are exactly the five pages, each listed once. */
  lemma NavItemsArePages()
    ensures forall p: PageId :: PageName(p) in NAV_ITEM_IDS
    ensures forall i :: 0 <= i < |NAV_ITEM_IDS| ==> PageName(RenderPage(NAV_ITEM_IDS[i])) == NAV_ITEM_IDS[i]
    ensures forall i, j :: 0 <= i < j < |NAV_ITEM_IDS| ==> NAV_ITEM_IDS[i] != NAV_ITEM_IDS[j]
  {
  }

  /** An item is highlighted when its id is the page the bar was given. */
  predicate IsActive(itemId: string, currentPage: string)
  {
    currentPage == itemId
  }

  /** At most one item is highlighted, and on a page that is one of the five
      exactly the item with that page's id is. */
  lemma {:induction false} OneActiveItem(currentPage: string)
    ensures forall i, j ::
      (0 <= i < |NAV_ITEM_IDS| && 0 <= j < |NAV_ITEM_IDS| &&
       IsActive(NAV_ITEM_IDS[i], currentPage) && IsActive(NAV_ITEM_IDS[j], currentPage)) ==> i == j
    ensures forall p: PageId :: currentPage == PageName(p) ==>
      exists i :: 0 <= i < |NAV_ITEM_IDS| && IsActive(NAV_ITEM_IDS[i], currentPage)
  {
    NavItemsArePages();
    forall p: PageId | currentPage == PageName(p)
      ensures exists i :: 0 <= i < |NAV_ITEM_IDS| && IsActive(NAV_ITEM_IDS[i], currentPage)
    {
      var i :| 0 <= i < |NAV_ITEM_IDS| && NAV_ITEM_IDS[i] == PageName(p);
      assert IsActive(NAV_ITEM_IDS[i], currentPage);
    }
  }

  /** One bar: the page it is shown on, the item whose expansion effect is
      playing, and the navigations its timers will still deliver, oldest first
      (every timer has the same 500 ms delay, so they fire in click order). */
  class BubbleNavigation {
    const currentPage: string
    var expandingBubble: Option<string>
    var scheduled: seq<string>

    constructor (currentPage: string)
      ensures this.currentPage == currentPage
      ensures expandingBubble == None && scheduled == []
    {
      this.currentPage := currentPage;
      expandingBubble := None;
      scheduled := [];
    }

    /** handleBubbleClick: clicking the item of the current page asks for a
        full reload and changes nothing; clicking any other item starts its
        expansion effect and schedules its own navigation. There is no lock:
        every such click schedules one more. */
    method HandleBubbleClick(pageId: string) returns (reload: bool)
      modifies this
      ensures reload <==> pageId == currentPage
      ensures reload ==> expandingBubble == old(expandingBubble) && scheduled == old(scheduled)
      ensures !reload ==> expandingBubble == Some(pageId) && scheduled == old(scheduled) + [pageId]
    {
      if pageId == currentPage {
        reload := true;
        return;
      }
      reload := false;
      expandingBubble := Some(pageId);
      scheduled := scheduled + [pageId];
    }

    /** The oldest pending timer fires: it calls onNavigate with the page it
        was scheduled for, once, and clears the expansion effect. With no timer
        pending nothing fires. */
    method TimerFires() returns (navigate: Option<string>)
      modifies this
      ensures old(scheduled) == [] ==>
        navigate == None && expandingBubble == old(expandingBubble) && scheduled == []
      ensures old(scheduled) != [] ==>
        navigate == Some(old(scheduled)[0]) && expandingBubble == None &&
        scheduled == old(scheduled)[1..]
    {
      if scheduled == [] {
        navigate := None;
        return;
      }
      navigate := Some(scheduled[0]);
      scheduled := scheduled[1..];
      expandingBubble := None;
    }

    /** The transition overlay is mounted exactly while an item is expanding. */
    predicate OverlayShown()
      reads this
    {
      expandingBubble.Some?
    }
  }
}
