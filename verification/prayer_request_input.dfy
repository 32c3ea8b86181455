/** The controller's prayer form and list,
    src/components/teleprompter/PrayerRequestInput.tsx. The table it groups
    by (`PRAYER_TYPES`, not exported by the types file) is an input here. */
module PrayerRequestInput {
  import opened Wrappers
  import opened TeleprompterTypes
  import opened Text
  import opened Grouping
  import Store
  import Provider

  /** The type selected when the form mounts. */
  const INITIAL_TYPE: PrayerType := "healing"

  /** The initial type is the first entry of the default table. */
  lemma InitialTypeIsFirstDefault()
    ensures INITIAL_TYPE == DEFAULT_PRAYER_TYPES[0].id
  {
  }

  datatype NewRequest = NewRequest(prayerType: PrayerType, content: string)

  /** The `handleSubmit` guard (14-15): white-space-only content adds nothing;
      otherwise one request with the trimmed content and the selected type. */
  function SubmitDecision(content: string, selectedType: PrayerType): (r: Option<NewRequest>)
    ensures r.None? <==> IsBlank(content)
    ensures r.Some? ==> r.value.prayerType == selectedType && r.value.content == Trim(content)
    ensures r.Some? ==> r.value.content != ""
  {
    TrimEmptyIffBlank(content);
    if Trim(content) != "" then Some(NewRequest(selectedType, Trim(content))) else None
  }

  /** `disabled={!content.trim()}` on the Add button (72). */
  predicate AddDisabled(content: string): (r: bool)
    ensures r <==> IsBlank(content)
  {
    TrimEmptyIffBlank(content);
    Trim(content) == ""
  }

  /** The Add button is enabled exactly when a submission would add a request. */
  lemma AddEnabledIffSubmitAdds(content: string, selectedType: PrayerType)
    ensures !AddDisabled(content) <==> SubmitDecision(content, selectedType).Some?
  {
    TrimEmptyIffBlank(content);
  }

  datatype ListView = NoRequestsYet | GroupList(groups: seq<Group>)

  /** The list under the form (88-91): the "No prayer requests yet" line
      exactly when there are no non-empty groups. */
  function List(types: seq<PrayerTypeInfo>, reqs: seq<PrayerRequest>): (v: ListView)
    ensures v.NoRequestsYet? <==> forall p :: p in reqs ==> p.prayerType !in TypeIds(types)
    ensures v.GroupList? ==> v.groups == Groups(types, reqs) && v.groups != []
  {
    NoGroupsIffNoKnownType(types, reqs);
    var groups := Groups(types, reqs);
    if groups == [] then NoRequestsYet else GroupList(groups)
  }

  /** The form's local state: the text field and the selected type. */
  class PrayerForm {
    var content: string
    var selectedType: PrayerType

    constructor ()
      ensures content == "" && selectedType == INITIAL_TYPE
    {
      content := "";
      selectedType := INITIAL_TYPE;
    }

    /** The input's `onChange`. */
    method Edit(text: string)
      modifies this
      ensures content == text && selectedType == old(selectedType)
    {
      content := text;
    }

    /** A type button's `onClick`. */
    method SelectType(id: PrayerType)
      modifies this
      ensures selectedType == id && content == old(content)
    {
      selectedType := id;
    }

    /** `handleSubmit`: a non-blank entry is added to the store and the field
        is cleared; a blank one changes nothing. */
    method Submit(store: Provider.TeleprompterProvider, freshId: string, now: int)
      requires store.Valid()
      modifies this, store, store.storage
      ensures store.Valid() && selectedType == old(selectedType)
      ensures SubmitDecision(old(content), old(selectedType)).Some? ==>
        && content == ""
        && store.CommittedSince(old(store.outbox),
             Store.AddPrayerRequest(old(store.state), old(selectedType), Trim(old(content)), freshId, now))
      ensures SubmitDecision(old(content), old(selectedType)).None? ==>
        && content == old(content)
        && store.state == old(store.state) && store.outbox == old(store.outbox)
        && store.storage.slot == old(store.storage.slot)
    {
      var d := SubmitDecision(content, selectedType);
      if d.Some? {
        content := "";
        store.AddPrayerRequest(d.value.prayerType, d.value.content, freshId, now);
      }
    }
  }
}
