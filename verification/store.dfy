/** The provider's state updaters (src/contexts/TeleprompterContext.tsx,
    108-155): each is a pure function from the previous state to the next. */
module Store {
  import opened TeleprompterTypes
  import Seqs

  /** `setActiveTab`: overwrites `activeTab` with any id, known or not. */
  function SetActiveTab(s: TeleprompterState, tabId: TabId): (r: TeleprompterState)
    ensures r.activeTab == tabId
    ensures r.(activeTab := s.activeTab) == s
  {
    s.(activeTab := tabId)
  }

  /** `setDisplayTab`: overwrites `displayTab` with any id, known or not. */
  function SetDisplayTab(s: TeleprompterState, tabId: TabId): (r: TeleprompterState)
    ensures r.displayTab == tabId
    ensures r.(displayTab := s.displayTab) == s
  {
    s.(displayTab := tabId)
  }

  /** The `tabs.map` of `updateTabContent`: every tab keeps its place, id,
      label, icon and placeholder; exactly the tabs whose id matches get the
      new content. */
  function ReplaceContent(tabs: seq<Tab>, tabId: TabId, content: string): (r: seq<Tab>)
    ensures |r| == |tabs|
    ensures forall i :: 0 <= i < |tabs| ==>
      && r[i].id == tabs[i].id && r[i].name == tabs[i].name
      && r[i].icon == tabs[i].icon && r[i].placeholder == tabs[i].placeholder
    ensures forall i :: 0 <= i < |tabs| ==>
      r[i].content == (if tabs[i].id == tabId then content else tabs[i].content)
  {
    if tabs == [] then []
    else
      var head := if tabs[0].id == tabId then tabs[0].(content := content) else tabs[0];
      [head] + ReplaceContent(tabs[1..], tabId, content)
  }

  /** `updateTabContent`: only `tabs` changes, as `ReplaceContent` says. */
  function UpdateTabContent(s: TeleprompterState, tabId: TabId, content: string): (r: TeleprompterState)
    ensures r.tabs == ReplaceContent(s.tabs, tabId, content)
    ensures r.(tabs := s.tabs) == s
  {
    s.(tabs := ReplaceContent(s.tabs, tabId, content))
  }

  /** An id that no tab has leaves the tab list equal. */
  lemma UpdateUnknownTabKeepsTabs(s: TeleprompterState, tabId: TabId, content: string)
    requires forall i :: 0 <= i < |s.tabs| ==> s.tabs[i].id != tabId
    ensures UpdateTabContent(s, tabId, content) == s
  {
    var r := ReplaceContent(s.tabs, tabId, content);
    assert forall i :: 0 <= i < |s.tabs| ==> r[i] == s.tabs[i];
  }

  /** Writing the same content twice is writing it once. */
  lemma UpdateTabContentIdempotent(s: TeleprompterState, tabId: TabId, content: string)
    ensures UpdateTabContent(UpdateTabContent(s, tabId, content), tabId, content)
         == UpdateTabContent(s, tabId, content)
  {
    var once := ReplaceContent(s.tabs, tabId, content);
    var twice := ReplaceContent(once, tabId, content);
    assert forall i :: 0 <= i < |once| ==> twice[i] == once[i];
  }

  /** Edits of two different tabs commute. */
  lemma UpdateDistinctTabsCommute(s: TeleprompterState, a: TabId, ca: string, b: TabId, cb: string)
    requires a != b
    ensures UpdateTabContent(UpdateTabContent(s, a, ca), b, cb)
         == UpdateTabContent(UpdateTabContent(s, b, cb), a, ca)
  {
    var ab := ReplaceContent(ReplaceContent(s.tabs, a, ca), b, cb);
    var ba := ReplaceContent(ReplaceContent(s.tabs, b, cb), a, ca);
    assert forall i :: 0 <= i < |s.tabs| ==> ab[i] == ba[i];
  }

  /** `addPrayerRequest`: appends one request built from the arguments; the
      fresh id and the clock reading are supplied by the caller. Neither the
      type nor the emptiness of the content is checked. */
  function AddPrayerRequest(s: TeleprompterState, prayerType: PrayerType, content: string,
                            freshId: string, now: int): (r: TeleprompterState)
    ensures |r.prayerRequests| == |s.prayerRequests| + 1
    ensures r.prayerRequests[..|s.prayerRequests|] == s.prayerRequests
    ensures r.prayerRequests[|s.prayerRequests|] == PrayerRequest(freshId, prayerType, content, now)
    ensures r.(prayerRequests := s.prayerRequests) == s
  {
    s.(prayerRequests := s.prayerRequests + [PrayerRequest(freshId, prayerType, content, now)])
  }

  /** The predicate of `removePrayerRequest`'s `filter`. */
  function KeepUnless(id: string): PrayerRequest -> bool {
    (p: PrayerRequest) => p.id != id
  }

  /** `removePrayerRequest`: drops every request with that id and keeps the
      others, in order and with their multiplicities. */
  function RemovePrayerRequest(s: TeleprompterState, id: string): (r: TeleprompterState)
    ensures forall p :: p in r.prayerRequests <==> p in s.prayerRequests && p.id != id
    ensures forall p :: multiset(r.prayerRequests)[p] == if p.id == id then 0 else multiset(s.prayerRequests)[p]
    ensures Seqs.IsSubsequence(r.prayerRequests, s.prayerRequests)
    ensures r.(prayerRequests := s.prayerRequests) == s
  {
    s.(prayerRequests := Seqs.Filter(s.prayerRequests, KeepUnless(id)))
  }

  /** Removing an id that no request has changes nothing. */
  lemma RemoveAbsentIsNoop(s: TeleprompterState, id: string)
    requires forall i :: 0 <= i < |s.prayerRequests| ==> s.prayerRequests[i].id != id
    ensures RemovePrayerRequest(s, id) == s
  {
    Seqs.FilterKeepsAll(s.prayerRequests, KeepUnless(id));
  }

  /** Removing the same id twice is removing it once. */
  lemma RemoveIdempotent(s: TeleprompterState, id: string)
    ensures RemovePrayerRequest(RemovePrayerRequest(s, id), id) == RemovePrayerRequest(s, id)
  {
    Seqs.FilterIdempotent(s.prayerRequests, KeepUnless(id));
  }

  /** Removing a request just added under a fresh id undoes the addition. */
  lemma RemoveUndoesAdd(s: TeleprompterState, prayerType: PrayerType, content: string, freshId: string, now: int)
    requires forall i :: 0 <= i < |s.prayerRequests| ==> s.prayerRequests[i].id != freshId
    ensures RemovePrayerRequest(AddPrayerRequest(s, prayerType, content, freshId, now), freshId) == s
  {
    var added := PrayerRequest(freshId, prayerType, content, now);
    Seqs.FilterAppend(s.prayerRequests, [added], KeepUnless(freshId));
    Seqs.FilterKeepsAll(s.prayerRequests, KeepUnless(freshId));
    assert s.prayerRequests + [] == s.prayerRequests;
  }

  /** `Math.max(0, Math.min(100, speed))`. */
  function Clamp(speed: int): (r: int)
    ensures 0 <= r <= 100
    ensures 0 <= speed <= 100 ==> r == speed
    ensures speed < 0 ==> r == 0
    ensures speed > 100 ==> r == 100
  {
    if speed < 0 then 0 else if speed > 100 then 100 else speed
  }

  /** `setScrollSpeed`: stores the clamped speed and nothing else. */
  function SetScrollSpeed(s: TeleprompterState, speed: int): (r: TeleprompterState)
    ensures 0 <= r.scrollSpeed <= 100
    ensures 0 <= speed <= 100 ==> r.scrollSpeed == speed
    ensures r.scrollSpeed == Clamp(speed)
    ensures r.(scrollSpeed := s.scrollSpeed) == s
  {
    s.(scrollSpeed := Clamp(speed))
  }

  /** `toggleAutoScroll`: negates `isAutoScrolling` and nothing else. */
  function ToggleAutoScroll(s: TeleprompterState): (r: TeleprompterState)
    ensures r.isAutoScrolling == !s.isAutoScrolling
    ensures r.(isAutoScrolling := s.isAutoScrolling) == s
  {
    s.(isAutoScrolling := !s.isAutoScrolling)
  }

  /** Toggling twice restores the state. */
  lemma ToggleTwiceRestores(s: TeleprompterState)
    ensures ToggleAutoScroll(ToggleAutoScroll(s)) == s
  {
  }

  /** `setFontSize`: overwrites `fontSize` and nothing else. */
  function SetFontSize(s: TeleprompterState, size: FontSize): (r: TeleprompterState)
    ensures r.fontSize == size
    ensures r.(fontSize := s.fontSize) == s
  {
    s.(fontSize := size)
  }

  /** One call of a provider operation, with its arguments. */
  datatype Action =
    | SelectTab(tabId: TabId)
    | SelectDisplayTab(tabId: TabId)
    | EditTab(tabId: TabId, content: string)
    | AddRequest(prayerType: PrayerType, content: string, freshId: string, now: int)
    | RemoveRequest(id: string)
    | ChangeSpeed(speed: int)
    | ToggleScrolling
    | ChangeFontSize(size: FontSize)

  /** The state after one provider operation: each operation writes only the
      field it is named for (the two request operations the request list). */
  function Apply(s: TeleprompterState, a: Action): (r: TeleprompterState)
    ensures !a.SelectTab? ==> r.activeTab == s.activeTab
    ensures !a.SelectDisplayTab? ==> r.displayTab == s.displayTab
    ensures !a.EditTab? ==> r.tabs == s.tabs
    ensures !a.AddRequest? && !a.RemoveRequest? ==> r.prayerRequests == s.prayerRequests
    ensures !a.ChangeSpeed? ==> r.scrollSpeed == s.scrollSpeed
    ensures !a.ToggleScrolling? ==> r.isAutoScrolling == s.isAutoScrolling
    ensures !a.ChangeFontSize? ==> r.fontSize == s.fontSize
  {
    match a
    case SelectTab(id) => SetActiveTab(s, id)
    case SelectDisplayTab(id) => SetDisplayTab(s, id)
    case EditTab(id, content) => UpdateTabContent(s, id, content)
    case AddRequest(t, content, freshId, now) => AddPrayerRequest(s, t, content, freshId, now)
    case RemoveRequest(id) => RemovePrayerRequest(s, id)
    case ChangeSpeed(speed) => SetScrollSpeed(s, speed)
    case ToggleScrolling => ToggleAutoScroll(s)
    case ChangeFontSize(size) => SetFontSize(s, size)
  }

  /** The state after a sequence of provider operations, first to last: a
      sequence without edits keeps the tabs, one without request operations
      keeps the requests, and one without speed changes keeps the speed. */
  function ApplyAll(s: TeleprompterState, actions: seq<Action>): (r: TeleprompterState)
    ensures (forall i :: 0 <= i < |actions| ==> !actions[i].EditTab?) ==> r.tabs == s.tabs
    ensures (forall i :: 0 <= i < |actions| ==> !actions[i].AddRequest? && !actions[i].RemoveRequest?) ==>
      r.prayerRequests == s.prayerRequests
    ensures (forall i :: 0 <= i < |actions| ==> !actions[i].ChangeSpeed?) ==> r.scrollSpeed == s.scrollSpeed
    decreases |actions|
  {
    if actions == [] then s
    else
      var rest := actions[1..];
      assert forall i :: 0 <= i < |rest| ==> rest[i] == actions[i + 1];
      ApplyAll(Apply(s, actions[0]), rest)
  }

  /** Only `setScrollSpeed` writes the speed, and it clamps, so any sequence
      of operations from a state whose speed is in range keeps it in range. */
  lemma {:induction false} OperationsKeepSpeedInRange(s: TeleprompterState, actions: seq<Action>)
    requires 0 <= s.scrollSpeed <= 100
    ensures 0 <= ApplyAll(s, actions).scrollSpeed <= 100
    decreases |actions|
  {
    if actions != [] {
      OperationsKeepSpeedInRange(Apply(s, actions[0]), actions[1..]);
    }
  }

  /** The set of tab ids never changes under the provider's operations. */
  lemma {:induction false} OperationsKeepTabIds(s: TeleprompterState, actions: seq<Action>)
    ensures |ApplyAll(s, actions).tabs| == |s.tabs|
    ensures forall i :: 0 <= i < |s.tabs| ==> ApplyAll(s, actions).tabs[i].id == s.tabs[i].id
    decreases |actions|
  {
    if actions != [] {
      OperationsKeepTabIds(Apply(s, actions[0]), actions[1..]);
    }
  }
}
