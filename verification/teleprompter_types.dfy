/** The records of the teleprompter, the font-size scale and the default
    tables of tabs and prayer types (src/types/teleprompter.ts). */
module TeleprompterTypes {

  /** Declared as the union of the four default tab ids, but nothing checks a
      value against it at run time, so any string can be stored. */
  type TabId = string

  /** A prayer category id: any string. */
  type PrayerType = string

  /** `name` is the source's `label` (a reserved word in Dafny). */
  datatype PrayerTypeInfo = PrayerTypeInfo(id: PrayerType, name: string, icon: string, color: string)

  /** `createdAt` is the millisecond clock reading taken when the request was added. */
  datatype PrayerRequest = PrayerRequest(id: string, prayerType: PrayerType, content: string, createdAt: int)

  datatype Tab = Tab(id: TabId, name: string, icon: string, content: string, placeholder: string)

  /** The five font sizes; `Xxl` is the source's `'2xl'`. */
  datatype FontSize = Sm | Md | Lg | Xl | Xxl

  /** The state the provider holds. The declared `prayerTypes` field is never
      set by the provider, so it is not part of this record. `scrollSpeed` is
      documented as 0-100 with 0 meaning paused; only `setScrollSpeed` clamps. */
  datatype TeleprompterState = TeleprompterState(
    activeTab: TabId,
    displayTab: TabId,
    tabs: seq<Tab>,
    prayerRequests: seq<PrayerRequest>,
    scrollSpeed: int,
    isAutoScrolling: bool,
    fontSize: FontSize)

  /** The `TabId` union, in declaration order. */
  const TAB_IDS: seq<TabId> := ["prayers", "birthdays", "weddings", "announcements"]

  /** The name the source stores for each font size. */
  function FontSizeName(f: FontSize): string {
    match f
    case Sm => "sm"
    case Md => "md"
    case Lg => "lg"
    case Xl => "xl"
    case Xxl => "2xl"
  }

  /** The predicate `t => t.id === id` of the source's tab lookups. */
  function HasId(id: TabId): Tab -> bool {
    (t: Tab) => t.id == id
  }

  /** Ids of the entries of a prayer-type table. */
  function TypeIds(types: seq<PrayerTypeInfo>): set<PrayerType> {
    set t | t in types :: t.id
  }

  /** The default prayer-type table. The icons are the characters the
      source file holds: emoji whose UTF-8 bytes were read as Mac Roman. */
  const DEFAULT_PRAYER_TYPES: seq<PrayerTypeInfo> := [
    PrayerTypeInfo("healing", "Healing", "\U{F8FF}\U{00FC}\U{00ED}\U{00F6}", "text-green-400"),
    PrayerTypeInfo("spiritual", "Spiritual Growth", "\U{201A}\U{00FA}\U{00AE}", "text-purple-400"),
    PrayerTypeInfo("family", "Family",
      "\U{F8FF}\U{00FC}\U{00EB}\U{00AE}\U{201A}\U{00C4}\U{00E7}\U{F8FF}\U{00FC}\U{00EB}\U{00A9}\U{201A}\U{00C4}\U{00E7}\U{F8FF}\U{00FC}\U{00EB}\U{00DF}\U{201A}\U{00C4}\U{00E7}\U{F8FF}\U{00FC}\U{00EB}\U{00B6}", "text-blue-400"),
    PrayerTypeInfo("financial", "Financial", "\U{F8FF}\U{00FC}\U{00ED}\U{221E}", "text-yellow-400"),
    PrayerTypeInfo("thanksgiving", "Thanksgiving", "\U{F8FF}\U{00FC}\U{00F4}\U{00E5}", "text-orange-400"),
    PrayerTypeInfo("other", "Other", "\U{F8FF}\U{00FC}\U{00F4}\U{00E8}", "text-muted-foreground")
  ]

  /** The default prayer-type table: six entries with pairwise distinct ids,
      `healing` first and `other` last. */
  lemma DefaultPrayerTypesShape()
    ensures |DEFAULT_PRAYER_TYPES| == 6
    ensures DEFAULT_PRAYER_TYPES[0].id == "healing" && DEFAULT_PRAYER_TYPES[5].id == "other"
    ensures forall i, j :: 0 <= i < j < 6 ==> DEFAULT_PRAYER_TYPES[i].id != DEFAULT_PRAYER_TYPES[j].id
  {
  }

  /** The bullet of the placeholders, as stored in the source file (a
      mis-decoded U+2022); the tab icons below are stored the same way. */
  const BULLET := "\U{201A}\U{00C4}\U{00A2}"

  const PRAYERS_PLACEHOLDER :=
    "Enter prayer requests here...\n\nEach request on a new line\nfor easy reading.\n\nExample:\n"
    + BULLET + " Please pray for the Johnson family\n  as they navigate health challenges.\n\n"
    + BULLET + " Lift up our youth group\n  preparing for mission trip.\n\n"
    + BULLET + " Remember those grieving\n  the loss of loved ones."

  const BIRTHDAYS_PLACEHOLDER :=
    "Happy Birthday wishes...\n\n"
    + BULLET + " John Smith - January 15\n"
    + BULLET + " Mary Johnson - January 18\n"
    + BULLET + " The Williams Family\n  celebrates three birthdays this week!\n\n"
    + "May God bless you\nwith another wonderful year."

  const WEDDINGS_PLACEHOLDER :=
    "Wedding Announcements...\n\nThis week we celebrate:\n\n"
    + BULLET + " Michael & Sarah Thompson\n  Married Saturday, January 20th\n  at Grace Chapel\n\n"
    + BULLET + " Congratulations to David & Emily\n  on their upcoming wedding!\n\n"
    + "\"What God has joined together,\nlet no one separate.\"\n- Matthew 19:6"

  const ANNOUNCEMENTS_PLACEHOLDER :=
    "General Announcements...\n\n"
    + BULLET + " Sunday School begins at 9:30 AM\n  Classes for all ages.\n\n"
    + BULLET + " Wednesday Night Bible Study\n  Join us at 7:00 PM\n  in Fellowship Hall.\n\n"
    + BULLET + " Volunteer sign-ups available\n  in the church lobby.\n\n"
    + BULLET + " Next week: Potluck Dinner\n  Bring a dish to share!"

  const DEFAULT_TABS: seq<Tab> := [
    Tab("prayers", "Prayer Requests", "\U{F8FF}\U{00FC}\U{00F4}\U{00E8}", "", PRAYERS_PLACEHOLDER),
    Tab("birthdays", "Birthdays", "\U{F8FF}\U{00FC}\U{00E9}\U{00C7}", "", BIRTHDAYS_PLACEHOLDER),
    Tab("weddings", "Weddings", "\U{F8FF}\U{00FC}\U{00ED}\U{00ED}", "", WEDDINGS_PLACEHOLDER),
    Tab("announcements", "Announcements", "\U{F8FF}\U{00FC}\U{00EC}\U{00A2}", "", ANNOUNCEMENTS_PLACEHOLDER)
  ]

  /** The default tabs: four of them, with the ids of the `TabId` union in its
      order, each starting with empty content and a non-empty placeholder. */
  lemma DefaultTabsShape()
    ensures |DEFAULT_TABS| == |TAB_IDS| == 4
    ensures forall i :: 0 <= i < 4 ==> DEFAULT_TABS[i].id == TAB_IDS[i]
    ensures forall i :: 0 <= i < 4 ==> DEFAULT_TABS[i].content == "" && DEFAULT_TABS[i].placeholder != ""
  {
  }

  const STORAGE_KEY := "church-teleprompter-state"
}
