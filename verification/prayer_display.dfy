/** What src/components/teleprompter/PrayerDisplay.tsx renders: the grouped
    prayer requests, or a placeholder line when there is nothing to show. */
module PrayerDisplay {
  import opened TeleprompterTypes
  import opened Grouping

  /** Tailwind's text sizes from `text-lg` up, one step apart. */
  const TEXT_SCALE: seq<string> :=
    ["text-lg", "text-xl", "text-2xl", "text-3xl", "text-4xl", "text-5xl", "text-6xl"]

  /** The position of a font size among the five, smallest first. */
  function Rank(f: FontSize): (r: nat)
    ensures r < 5
    ensures f == Sm <==> r == 0
    ensures f == Md <==> r == 1
    ensures f == Lg <==> r == 2
    ensures f == Xl <==> r == 3
    ensures f == Xxl <==> r == 4
  {
    match f
    case Sm => 0
    case Md => 1
    case Lg => 2
    case Xl => 3
    case Xxl => 4
  }

  /** `FONT_SIZE_CLASSES` (4-10): the text class of the placeholder and of
      each prayer line, the size's own step of the scale. */
  function BodyClass(f: FontSize): (r: string)
    ensures r == TEXT_SCALE[Rank(f)]
  {
    match f
    case Sm => "text-lg"
    case Md => "text-xl"
    case Lg => "text-2xl"
    case Xl => "text-3xl"
    case Xxl => "text-4xl"
  }

  /** The class chain of a group's header icon (42-47), two steps up the
      scale; the last arm also catches any value that is not one of the
      first four sizes. */
  function HeaderIconClass(f: FontSize): (r: string)
    ensures r == TEXT_SCALE[Rank(f) + 2]
  {
    if f == Sm then "text-2xl" else if f == Md then "text-3xl"
    else if f == Lg then "text-4xl" else if f == Xl then "text-5xl" else "text-6xl"
  }

  /** The class chain of a group's heading (50-56), one step up the scale. */
  function HeadingClass(f: FontSize): (r: string)
    ensures r == TEXT_SCALE[Rank(f) + 1]
  {
    if f == Sm then "text-xl" else if f == Md then "text-2xl"
    else if f == Lg then "text-3xl" else if f == Xl then "text-4xl" else "text-5xl"
  }

  /** The class chain of the icon before each prayer (72-78). */
  function ItemIconClass(f: FontSize): (r: string)
    ensures r == TEXT_SCALE[Rank(f)]
  {
    if f == Sm then "text-lg" else if f == Md then "text-xl"
    else if f == Lg then "text-2xl" else if f == Xl then "text-3xl" else "text-4xl"
  }

  /** Different sizes take different positions. */
  lemma RankInjective(a: FontSize, b: FontSize)
    ensures Rank(a) == Rank(b) ==> a == b
  {
  }

  /** The map is total over the five sizes and gives each its own class. */
  lemma BodyClassInjective(a: FontSize, b: FontSize)
    ensures BodyClass(a) == BodyClass(b) ==> a == b
  {
  }

  /** The prayer icon is sized like the prayer text. */
  lemma ItemIconMatchesBody(f: FontSize)
    ensures ItemIconClass(f) == BodyClass(f)
  {
  }

  /** For every size, the 2xl one included, the heading is the step of the
      scale after the prayer text and the header icon the step after that. */
  lemma HeaderSizesStepUp(f: FontSize)
    ensures exists i :: (0 <= i < |TEXT_SCALE| - 2 && BodyClass(f) == TEXT_SCALE[i] &&
      HeadingClass(f) == TEXT_SCALE[i + 1] && HeaderIconClass(f) == TEXT_SCALE[i + 2])
  {
    var i := Rank(f);
    assert 0 <= i < |TEXT_SCALE| - 2 && BodyClass(f) == TEXT_SCALE[i] &&
      HeadingClass(f) == TEXT_SCALE[i + 1] && HeaderIconClass(f) == TEXT_SCALE[i + 2];
  }

  datatype PrayerView =
    | NothingToDisplay(textClass: string)
    | Categories(groups: seq<Group>, textClass: string)

  /** The component's output (20-31): the placeholder, sized by the font
      size, exactly when no request has a type of the table. */
  function Render(types: seq<PrayerTypeInfo>, reqs: seq<PrayerRequest>, f: FontSize): (v: PrayerView)
    ensures v.NothingToDisplay? <==> forall p :: p in reqs ==> p.prayerType !in TypeIds(types)
    ensures v.textClass == BodyClass(f)
    ensures v.Categories? ==> v.groups == Groups(types, reqs) && v.groups != []
  {
    NoGroupsIffNoKnownType(types, reqs);
    var groups := Groups(types, reqs);
    if groups == [] then NothingToDisplay(BodyClass(f)) else Categories(groups, BodyClass(f))
  }
}
