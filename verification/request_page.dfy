/** The public request form, src/pages/Request.tsx: a category chosen from
    the type table, a name or request, and an optional detail. */
module RequestPage {
  import opened Wrappers
  import opened TeleprompterTypes
  import opened Text
  import Store
  import Provider

  /** `prayerTypes[0]?.id || ''`: the first table id, or `''` for an empty table. */
  function InitialType(types: seq<PrayerTypeInfo>): (r: PrayerType)
    ensures types != [] ==> r == types[0].id
    ensures types == [] ==> r == ""
  {
    if types != [] then types[0].id else ""
  }

  /** The three arguments `handleSubmit` passes to `addPrayerRequest`. */
  datatype SubmitCall = SubmitCall(prayerType: PrayerType, content: string, detail: Option<string>)

  /** The guard and the arguments of `handleSubmit` (15-17): rejected when the
      name is blank or no type is selected; otherwise the trimmed name, and
      the trimmed detail, a blank detail becoming `undefined`. */
  function SubmitArgs(name: string, detail: string, selectedType: PrayerType): (r: Option<SubmitCall>)
    ensures r.None? <==> IsBlank(name) || selectedType == ""
    ensures r.Some? ==> r.value.prayerType == selectedType && r.value.content == Trim(name) && r.value.content != ""
    ensures r.Some? ==> (r.value.detail.None? <==> IsBlank(detail))
    ensures r.Some? && r.value.detail.Some? ==> r.value.detail.value == Trim(detail)
  {
    TrimEmptyIffBlank(name);
    TrimEmptyIffBlank(detail);
    if Trim(name) == "" || selectedType == "" then None
    else Some(SubmitCall(selectedType, Trim(name), if Trim(detail) == "" then None else Some(Trim(detail))))
  }

  /** With an empty type table nothing can be submitted from the initial selection. */
  lemma EmptyTableRejectsEverything(name: string, detail: string)
    ensures SubmitArgs(name, detail, InitialType([])) == None
  {
  }

  /** The page's local state. */
  class RequestForm {
    const prayerTypes: seq<PrayerTypeInfo>
    var nameOrRequest: string
    var specificPrayer: string
    var selectedType: PrayerType
    var submitted: bool

    /** The selection is the initial one or an option of the select. */
    ghost predicate Valid()
      reads this
    {
      selectedType == InitialType(prayerTypes) || selectedType in TypeIds(prayerTypes)
    }

    constructor (types: seq<PrayerTypeInfo>)
      ensures Valid() && prayerTypes == types
      ensures nameOrRequest == "" && specificPrayer == "" && !submitted
      ensures selectedType == InitialType(types)
    {
      prayerTypes := types;
      nameOrRequest := "";
      specificPrayer := "";
      selectedType := InitialType(types);
      submitted := false;
    }

    method SetName(text: string)
      modifies this
      ensures nameOrRequest == text
      ensures specificPrayer == old(specificPrayer) && selectedType == old(selectedType) && submitted == old(submitted)
    {
      nameOrRequest := text;
    }

    method SetDetail(text: string)
      modifies this
      ensures specificPrayer == text
      ensures nameOrRequest == old(nameOrRequest) && selectedType == old(selectedType) && submitted == old(submitted)
    {
      specificPrayer := text;
    }

    /** The select's `onChange`: the value of one of its options. */
    method SelectType(option: nat)
      requires Valid() && option < |prayerTypes|
      modifies this
      ensures Valid() && selectedType == prayerTypes[option].id
      ensures nameOrRequest == old(nameOrRequest) && specificPrayer == old(specificPrayer) && submitted == old(submitted)
    {
      selectedType := prayerTypes[option].id;
    }

    /** `handleSubmit`. An accepted submission reaches the store with the type
        and the trimmed name only, since the provider's `addPrayerRequest`
        takes two parameters and the detail is dropped; both fields are then
        cleared and the notice shown. A rejected one changes nothing. */
    method Submit(store: Provider.TeleprompterProvider, freshId: string, now: int)
      requires Valid() && store.Valid()
      modifies this, store, store.storage
      ensures Valid() && store.Valid() && selectedType == old(selectedType)
      ensures SubmitArgs(old(nameOrRequest), old(specificPrayer), old(selectedType)).Some? ==>
        && nameOrRequest == "" && specificPrayer == "" && submitted
        && store.CommittedSince(old(store.outbox),
             Store.AddPrayerRequest(old(store.state), old(selectedType), Trim(old(nameOrRequest)), freshId, now))
      ensures SubmitArgs(old(nameOrRequest), old(specificPrayer), old(selectedType)).None? ==>
        && nameOrRequest == old(nameOrRequest) && specificPrayer == old(specificPrayer)
        && submitted == old(submitted)
        && store.state == old(store.state) && store.outbox == old(store.outbox)
        && store.storage.slot == old(store.storage.slot)
      ensures prayerTypes == [] ==> store.state == old(store.state)
    {
      var call := SubmitArgs(nameOrRequest, specificPrayer, selectedType);
      if call.Some? {
        assert call.value.prayerType == selectedType && call.value.content == Trim(nameOrRequest);
        store.AddPrayerRequest(call.value.prayerType, call.value.content, freshId, now);
        nameOrRequest := "";
        specificPrayer := "";
        submitted := true;
      }
    }

    /** The 2.5 s timeout after a submission hides the notice. */
    method NoticeExpires()
      modifies this
      ensures !submitted
      ensures nameOrRequest == old(nameOrRequest) && specificPrayer == old(specificPrayer) && selectedType == old(selectedType)
    {
      submitted := false;
    }
  }
}
