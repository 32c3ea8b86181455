/** The decisions of src/components/teleprompter/TeleprompterDisplay.tsx:
    which text is shown, when the scroll animation starts and stops, whether
    the tab indicator appears, and the font-size classes. */
module TeleprompterDisplay {
  import opened Wrappers
  import opened TeleprompterTypes
  import Seqs
  import Store
  import Persistence

  /** `FONT_SIZE_CLASSES` (5-11). */
  function FontClass(f: FontSize): (r: string)
    ensures r == "text-teleprompter-" + FontSizeName(f)
  {
    match f
    case Sm => "text-teleprompter-sm"
    case Md => "text-teleprompter-md"
    case Lg => "text-teleprompter-lg"
    case Xl => "text-teleprompter-xl"
    case Xxl => "text-teleprompter-2xl"
  }

  /** Each of the five sizes has its own class. */
  lemma FontClassInjective(a: FontSize, b: FontSize)
    ensures FontClass(a) == FontClass(b) ==> a == b
  {
    if FontClass(a) == FontClass(b) {
      var prefix := "text-teleprompter-";
      assert FontSizeName(a) == FontClass(a)[|prefix|..];
      assert FontSizeName(b) == FontClass(b)[|prefix|..];
    }
  }

  /** `tabs.find(t => t.id === activeTab)`: the first tab with that id. */
  function CurrentTab(tabs: seq<Tab>, activeTab: TabId): (r: Option<Tab>)
    ensures r.None? <==> forall i :: 0 <= i < |tabs| ==> tabs[i].id != activeTab
    ensures r.Some? ==> exists i :: && 0 <= i < |tabs| && tabs[i] == r.value && r.value.id == activeTab
                                    && forall j :: 0 <= j < i ==> tabs[j].id != activeTab
  {
    var i := Seqs.FindIndex(tabs, HasId(activeTab));
    if i >= 0 then Some(tabs[i]) else None
  }

  /** `currentTab?.content || currentTab?.placeholder || ''`: the text of the
      tab named by `activeTab` (not `displayTab`). */
  function DisplayContent(s: TeleprompterState): (r: string)
    ensures CurrentTab(s.tabs, s.activeTab).None? ==> r == ""
    ensures CurrentTab(s.tabs, s.activeTab).Some? ==>
      var t := CurrentTab(s.tabs, s.activeTab).value;
      r == if t.content != "" then t.content else t.placeholder
  {
    match CurrentTab(s.tabs, s.activeTab)
    case None => ""
    case Some(t) => if t.content != "" then t.content else t.placeholder
  }

  /** The shown text does not depend on `displayTab`. */
  lemma ShownTextIgnoresDisplayTab(s: TeleprompterState, other: TabId)
    ensures DisplayContent(s.(displayTab := other)) == DisplayContent(s)
  {
  }

  /** After the active tab's content is edited to a non-empty text, that text
      is shown; after it is cleared, the tab's placeholder is shown. */
  lemma {:induction false} ShownTextAfterEdit(s: TeleprompterState, content: string)
    requires exists i :: 0 <= i < |s.tabs| && s.tabs[i].id == s.activeTab
    ensures var k := Seqs.FindIndex(s.tabs, HasId(s.activeTab));
      && 0 <= k < |s.tabs|
      && DisplayContent(Store.UpdateTabContent(s, s.activeTab, content))
         == if content != "" then content else s.tabs[k].placeholder
  {
    var id := s.activeTab;
    var k := Seqs.FindIndex(s.tabs, HasId(id));
    var edited := Store.ReplaceContent(s.tabs, id, content);
    assert forall j :: 0 <= j < |s.tabs| ==> HasId(id)(edited[j]) == HasId(id)(s.tabs[j]);
    Seqs.FindIndexAgree(edited, HasId(id), s.tabs, HasId(id));
  }

  /** The default state shows the placeholder of the prayers tab. */
  lemma DefaultStateShowsPrayersPlaceholder()
    ensures DisplayContent(Persistence.DefaultState()) == PRAYERS_PLACEHOLDER
  {
    assert HasId("prayers")(DEFAULT_TABS[0]);
  }

  /** The effect's start condition (48): auto-scroll on and a positive
      speed; the first frame of a loop started this way schedules the next. */
  predicate StartsAnimation(s: TeleprompterState): (r: bool)
    ensures r <==> s.isAutoScrolling && s.scrollSpeed > 0
    ensures r ==> FrameContinues(true, s)
  {
    s.isAutoScrolling && s.scrollSpeed > 0
  }

  /** A frame schedules the next one unless the element is gone, auto-scroll
      is off, or the speed is 0 (28-31). */
  predicate FrameContinues(hasElement: bool, s: TeleprompterState): (r: bool)
    ensures !hasElement || !s.isAutoScrolling || s.scrollSpeed == 0 ==> !r
    ensures hasElement && s.isAutoScrolling && s.scrollSpeed != 0 ==> r
  {
    hasElement && s.isAutoScrolling && s.scrollSpeed != 0
  }

  /** For a speed that is not negative the loop is started exactly when a
      frame would keep it going; a negative speed (possible only from a
      stored snapshot, which is not clamped) never starts it although a
      frame would not stop it. */
  lemma StartAndStopAgree(s: TeleprompterState)
    ensures s.scrollSpeed >= 0 ==> (StartsAnimation(s) <==> FrameContinues(true, s))
    ensures s.scrollSpeed < 0 ==> !StartsAnimation(s) && (FrameContinues(true, s) <==> s.isAutoScrolling)
  {
  }

  /** `showTabIndicator && currentTab` (74): shown exactly when it is asked
      for and some tab has the active id. */
  predicate ShowsTabIndicator(show: bool, s: TeleprompterState): (r: bool)
    ensures r <==> show && exists i :: 0 <= i < |s.tabs| && s.tabs[i].id == s.activeTab
  {
    show && CurrentTab(s.tabs, s.activeTab).Some?
  }
}
