/** Swiping between tabs on the display page, src/pages/Display.tsx:
    the gesture test of the touch handlers (46-57) and `handleSwipe` (18-25). */
module DisplayPage {
  import opened Wrappers
  import opened TeleprompterTypes
  import Seqs
  import Store
  import Provider

  datatype Direction = Left | Right

  /** `tabs.findIndex(t => t.id === activeTab)`: -1 when no tab matches. */
  function TabIndex(tabs: seq<Tab>, id: TabId): (r: int)
    ensures -1 <= r < |tabs|
    ensures r >= 0 ==> tabs[r].id == id && forall j :: 0 <= j < r ==> tabs[j].id != id
    ensures r == -1 <==> forall j :: 0 <= j < |tabs| ==> tabs[j].id != id
  {
    Seqs.FindIndex(tabs, HasId(id))
  }

  /** The id `handleSwipe` passes to `setActiveTab`, if it calls it: a left
      swipe goes to the next tab unless the current one is last, a right
      swipe to the previous one unless it is first. An unknown active id has
      index -1, so a left swipe then selects the first tab. */
  function SwipeTarget(tabs: seq<Tab>, activeTab: TabId, dir: Direction): (r: Option<TabId>)
    ensures r.Some? ==> exists i :: 0 <= i < |tabs| && tabs[i].id == r.value
    ensures var i := TabIndex(tabs, activeTab);
      && (dir == Left && 0 <= i < |tabs| - 1 ==> r == Some(tabs[i + 1].id))
      && (dir == Right && i > 0 ==> r == Some(tabs[i - 1].id))
      && (dir == Left && i == |tabs| - 1 ==> r.None?)
      && (dir == Right && i <= 0 ==> r.None?)
      && (dir == Left && i == -1 && tabs != [] ==> r == Some(tabs[0].id))
  {
    var i := TabIndex(tabs, activeTab);
    if dir == Left && i < |tabs| - 1 then Some(tabs[i + 1].id)
    else if dir == Right && i > 0 then Some(tabs[i - 1].id)
    else None
  }

  /** The store state after a swipe: only `activeTab` can change, and only
      to the id of an existing tab. */
  function HandleSwipe(s: TeleprompterState, dir: Direction): (r: TeleprompterState)
    ensures r.(activeTab := s.activeTab) == s
    ensures r.activeTab == SwipeTarget(s.tabs, s.activeTab, dir).GetOr(s.activeTab)
    ensures r.activeTab == s.activeTab || exists i :: 0 <= i < |s.tabs| && s.tabs[i].id == r.activeTab
  {
    match SwipeTarget(s.tabs, s.activeTab, dir)
    case Some(id) => Store.SetActiveTab(s, id)
    case None => s
  }

  /** With distinct tab ids, a left swipe followed by a right swipe returns to
      the tab one started from, unless it was the last. */
  lemma LeftThenRightReturns(s: TeleprompterState, i: nat)
    requires forall a, b :: 0 <= a < b < |s.tabs| ==> s.tabs[a].id != s.tabs[b].id
    requires i < |s.tabs| - 1 && s.tabs[i].id == s.activeTab
    ensures HandleSwipe(HandleSwipe(s, Left), Right) == s
  {
    assert TabIndex(s.tabs, s.activeTab) == i;
    var moved := HandleSwipe(s, Left);
    assert moved.activeTab == s.tabs[i + 1].id;
    assert TabIndex(moved.tabs, moved.activeTab) == i + 1;
  }

  /** The touch-end test: a swipe fires when the horizontal travel exceeds 50
      pixels; moving the finger leftwards (start right of end) is `Left`.
      Without a recorded start the difference is `NaN` and nothing fires. */
  function SwipeDirection(startX: Option<real>, endX: real): (r: Option<Direction>)
    ensures r == Some(Left) <==> startX.Some? && startX.value - endX > 50.0
    ensures r == Some(Right) <==> startX.Some? && endX - startX.value > 50.0
  {
    match startX
    case None => None
    case Some(x) =>
      var diff := x - endX;
      var magnitude := if diff < 0.0 then -diff else diff;
      if magnitude > 50.0 then Some(if diff > 0.0 then Left else Right) else None
  }

  /** The display area, which remembers where the last touch started. */
  class SwipeArea {
    var touchStartX: Option<real>

    constructor ()
      ensures touchStartX == None
    {
      touchStartX := None;
    }

    /** `onTouchStart`: stash the first touch's x coordinate. */
    method TouchStart(x: real)
      modifies this
      ensures touchStartX == Some(x)
    {
      touchStartX := Some(x);
    }

    /** `onTouchEnd`: a swipe that selects a tab commits `setActiveTab`;
        anything else leaves the store as it was. The stash is kept. */
    method TouchEnd(endX: real, store: Provider.TeleprompterProvider)
      requires store.Valid()
      modifies store, store.storage
      ensures store.Valid()
      ensures var dir := SwipeDirection(touchStartX, endX);
        if dir.Some? && SwipeTarget(old(store.state.tabs), old(store.state.activeTab), dir.value).Some?
        then store.CommittedSince(old(store.outbox), HandleSwipe(old(store.state), dir.value))
        else store.state == old(store.state) && store.outbox == old(store.outbox)
             && store.storage.slot == old(store.storage.slot)
    {
      var dir := SwipeDirection(touchStartX, endX);
      if dir.Some? {
        var target := SwipeTarget(store.state.tabs, store.state.activeTab, dir.value);
        if target.Some? {
          store.SetActiveTab(target.value);
        }
      }
    }
  }
}
