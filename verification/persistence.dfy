/** The startup loader of src/contexts/TeleprompterContext.tsx (23-53):
    read the stored snapshot and fill each missing field with its default. */
module Persistence {
  import opened Wrappers
  import opened TeleprompterTypes

  /** What `JSON.parse` of the stored text yields, field by field. `None` is
      a field that is absent or `null`; for the string fields it also stands
      for the empty string, which `||` treats the same way. */
  datatype Parsed = Parsed(
    activeTab: Option<string>,
    displayTab: Option<string>,
    tabs: Option<seq<Tab>>,
    prayerRequests: Option<seq<PrayerRequest>>,
    scrollSpeed: Option<int>,
    isAutoScrolling: Option<bool>,
    fontSize: Option<FontSize>)

  /** The state used when nothing usable is stored. */
  function DefaultState(): (r: TeleprompterState)
    ensures r.activeTab == r.displayTab == DEFAULT_TABS[0].id
    ensures r.prayerRequests == [] && 0 <= r.scrollSpeed <= 100
  {
    TeleprompterState("prayers", "prayers", DEFAULT_TABS, [], 30, false, Lg)
  }

  /** `value || fallback` for a string: an empty or missing string is falsy. */
  function OrString(o: Option<string>, fallback: string): (r: string)
    ensures o.Some? && o.value != "" ==> r == o.value
    ensures o.None? || o.value == "" ==> r == fallback
  {
    if o.Some? && o.value != "" then o.value else fallback
  }

  /** The record built from a parsed snapshot: `||` for the ids, the arrays
      (an array, even an empty one, is truthy) and the font size; `??` for the
      speed and the auto-scroll flag, so a stored 0 or false is kept. */
  function FromParsed(p: Parsed): (r: TeleprompterState)
    ensures r.activeTab == OrString(p.activeTab, "prayers")
    ensures r.displayTab == OrString(p.displayTab, "prayers")
    ensures r.tabs == p.tabs.GetOr(DEFAULT_TABS)
    ensures r.prayerRequests == p.prayerRequests.GetOr([])
    ensures r.scrollSpeed == p.scrollSpeed.GetOr(30)
    ensures r.isAutoScrolling == p.isAutoScrolling.GetOr(false)
    ensures r.fontSize == p.fontSize.GetOr(Lg)
  {
    TeleprompterState(
      OrString(p.activeTab, "prayers"),
      OrString(p.displayTab, "prayers"),
      p.tabs.GetOr(DEFAULT_TABS),
      p.prayerRequests.GetOr([]),
      p.scrollSpeed.GetOr(30),
      p.isAutoScrolling.GetOr(false),
      p.fontSize.GetOr(Lg))
  }

  /** The initial state: the stored slot is read once; a missing or empty slot,
      or text that does not parse, yields the default state. */
  function LoadInitial(saved: Option<string>, parse: string -> Option<Parsed>): (r: TeleprompterState)
    ensures saved.None? || saved.value == "" ==> r == DefaultState()
    ensures saved.Some? && saved.value != "" && parse(saved.value).None? ==> r == DefaultState()
    ensures saved.Some? && saved.value != "" && parse(saved.value).Some? ==> r == FromParsed(parse(saved.value).value)
  {
    match saved
    case None => DefaultState()
    case Some(text) =>
      if text == "" then DefaultState()
      else
        match parse(text)
        case None => DefaultState()
        case Some(p) => FromParsed(p)
  }

  /** Every field of a state, present. */
  function Snapshot(s: TeleprompterState): Parsed {
    Parsed(Some(s.activeTab), Some(s.displayTab), Some(s.tabs), Some(s.prayerRequests),
           Some(s.scrollSpeed), Some(s.isAutoScrolling), Some(s.fontSize))
  }

  /** Storing a state and loading it back gives the same state, provided the
      stored text parses back to every field and neither tab id is empty. */
  lemma ReloadRestoresState(s: TeleprompterState, text: string, parse: string -> Option<Parsed>)
    requires text != "" && parse(text) == Some(Snapshot(s))
    requires s.activeTab != "" && s.displayTab != ""
    ensures LoadInitial(Some(text), parse) == s
  {
  }

  /** An empty tab id is not restored: it comes back as `prayers`. */
  lemma ReloadReplacesEmptyTabId(s: TeleprompterState, text: string, parse: string -> Option<Parsed>)
    requires text != "" && parse(text) == Some(Snapshot(s))
    requires s.activeTab == "" && s.displayTab != ""
    ensures LoadInitial(Some(text), parse).activeTab == "prayers"
    ensures LoadInitial(Some(text), parse).(activeTab := "") == s.(activeTab := "")
  {
  }

  /** A stored speed of 0 and an empty stored tab list are kept, not
      replaced by the defaults 30 and the default tabs. */
  lemma LoadKeepsFalsyValuesOfNullishFields(p: Parsed)
    requires p.scrollSpeed == Some(0) && p.tabs == Some([]) && p.isAutoScrolling == Some(false)
    ensures FromParsed(p).scrollSpeed == 0
    ensures FromParsed(p).tabs == []
    ensures !FromParsed(p).isAutoScrolling
  {
  }

  /** A snapshot with no usable field loads as the default state. */
  lemma EmptySnapshotLoadsDefaults()
    ensures FromParsed(Parsed(None, None, None, None, None, None, None)) == DefaultState()
  {
  }
}
