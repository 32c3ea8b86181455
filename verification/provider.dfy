/** The provider of src/contexts/TeleprompterContext.tsx around the updaters:
    it holds the state, persists it to one storage slot and posts it on the
    broadcast channel after every change (63-67), replaces it on an inbound
    `STATE_UPDATE` (70-81) and, when there is no channel, polls the slot
    (83-106). */
module Provider {
  import opened Wrappers
  import opened TeleprompterTypes
  import Store
  import Persistence

  const STATE_UPDATE := "STATE_UPDATE"

  /** A message on the broadcast channel: `{ type, state }`. */
  datatype Message = Message(kind: string, state: TeleprompterState)

  /** `JSON.stringify` of a state, and `JSON.parse` of stored text as the
      loader reads it (field by field) and as the poll adopts it (whole);
      `None` is a parse that throws. */
  datatype Codec = Codec(
    encode: TeleprompterState -> string,
    parseFields: string -> Option<Persistence.Parsed>,
    parseState: string -> Option<TeleprompterState>)

  /** The `localStorage` slot named `key`, shared by every browsing context
      of the origin; `None` is a slot that holds nothing. */
  class Storage {
    const key := STORAGE_KEY
    var slot: Option<string>

    constructor (initial: Option<string>)
      ensures slot == initial
    {
      slot := initial;
    }

    /** `localStorage.setItem(key, text)`. */
    method Write(text: string)
      modifies this
      ensures slot == Some(text)
    {
      slot := Some(text);
    }
  }

  /** What an inbound channel message does: a `STATE_UPDATE` is adopted
      wholesale; any other message, or any message when there is no channel
      (no listener is installed), does nothing. */
  function HandleMessage(hasChannel: bool, msg: Message): (r: Option<TeleprompterState>)
    ensures r.Some? <==> hasChannel && msg.kind == STATE_UPDATE
    ensures r.Some? ==> r.value == msg.state
  {
    if hasChannel && msg.kind == STATE_UPDATE then Some(msg.state) else None
  }

  /** What one poll does: only without a channel, only when the slot holds a
      non-empty text that parses, and only when that text differs from the
      serialisation of the current state; then the parsed state is adopted. */
  function PollDecision(codec: Codec, hasChannel: bool, saved: Option<string>,
                        current: TeleprompterState): (r: Option<TeleprompterState>)
    ensures r.Some? ==> && !hasChannel && saved.Some? && saved.value != ""
                        && codec.encode(current) != saved.value
                        && codec.parseState(saved.value) == r
    ensures (&& !hasChannel && saved.Some? && saved.value != ""
             && codec.encode(current) != saved.value
             && codec.parseState(saved.value).Some?) ==> r.Some?
  {
    if hasChannel then None
    else match saved
      case None => None
      case Some(text) =>
        if text == "" then None
        else match codec.parseState(text)
          case None => None
          case Some(parsed) => if codec.encode(current) != text then Some(parsed) else None
  }

  /** A slot that holds the serialisation of the current state never makes
      the poll change anything. */
  lemma PollIdleWhenPersisted(codec: Codec, hasChannel: bool, current: TeleprompterState)
    ensures PollDecision(codec, hasChannel, Some(codec.encode(current)), current) == None
  {
  }

  class TeleprompterProvider {
    var state: TeleprompterState
    /** Every message posted on the broadcast channel, oldest first. */
    var outbox: seq<Message>
    const storage: Storage
    /** Whether `BroadcastChannel` exists; decided once, at construction. */
    const hasChannel: bool
    const codec: Codec

    /** With a channel, the last message posted carries the current state;
        without one, nothing has been posted. */
    ghost predicate Valid()
      reads this
    {
      if hasChannel then outbox != [] && outbox[|outbox| - 1] == Message(STATE_UPDATE, state)
      else outbox == []
    }

    /** The slot holds the serialisation of the current state. */
    ghost predicate Persisted()
      reads this, storage
    {
      storage.slot == Some(codec.encode(state))
    }

    /** The state is `next`, the slot holds its serialisation, and exactly one
        `STATE_UPDATE` carrying it was posted after `before` (none without a
        channel). */
    ghost predicate CommittedSince(before: seq<Message>, next: TeleprompterState)
      reads this, storage
    {
      && state == next
      && storage.slot == Some(codec.encode(next))
      && outbox == before + (if hasChannel then [Message(STATE_UPDATE, next)] else [])
    }

    /** The provider mounts: it loads the initial state from the slot, then
        its effect persists and posts that state once. */
    constructor (storage: Storage, hasChannel: bool, codec: Codec)
      modifies storage
      ensures this.storage == storage && this.hasChannel == hasChannel
      ensures this.codec.encode == codec.encode && this.codec.parseState == codec.parseState
      ensures state == Persistence.LoadInitial(old(storage.slot), codec.parseFields)
      ensures CommittedSince([], state)
      ensures Valid()
    {
      this.storage := storage;
      this.hasChannel := hasChannel;
      this.codec := codec;
      state := Persistence.LoadInitial(storage.slot, codec.parseFields);
      outbox := [];
      new;
      Commit(state);
    }

    /** A state change followed by the effect: overwrite the slot, post once. */
    method Commit(next: TeleprompterState)
      modifies this, storage
      ensures CommittedSince(old(outbox), next)
    {
      state := next;
      storage.Write(codec.encode(next));
      if hasChannel {
        outbox := outbox + [Message(STATE_UPDATE, next)];
      }
    }

    method SetActiveTab(tabId: TabId)
      requires Valid()
      modifies this, storage
      ensures Valid() && CommittedSince(old(outbox), Store.SetActiveTab(old(state), tabId))
    {
      Commit(Store.SetActiveTab(state, tabId));
    }

    method SetDisplayTab(tabId: TabId)
      requires Valid()
      modifies this, storage
      ensures Valid() && CommittedSince(old(outbox), Store.SetDisplayTab(old(state), tabId))
    {
      Commit(Store.SetDisplayTab(state, tabId));
    }

    method UpdateTabContent(tabId: TabId, content: string)
      requires Valid()
      modifies this, storage
      ensures Valid() && CommittedSince(old(outbox), Store.UpdateTabContent(old(state), tabId, content))
    {
      Commit(Store.UpdateTabContent(state, tabId, content));
    }

    /** `freshId` and `now` stand for the generated id and `Date.now()`. */
    method AddPrayerRequest(prayerType: PrayerType, content: string, freshId: string, now: int)
      requires Valid()
      modifies this, storage
      ensures Valid()
      ensures CommittedSince(old(outbox), Store.AddPrayerRequest(old(state), prayerType, content, freshId, now))
    {
      Commit(Store.AddPrayerRequest(state, prayerType, content, freshId, now));
    }

    method RemovePrayerRequest(id: string)
      requires Valid()
      modifies this, storage
      ensures Valid() && CommittedSince(old(outbox), Store.RemovePrayerRequest(old(state), id))
    {
      Commit(Store.RemovePrayerRequest(state, id));
    }

    method SetScrollSpeed(speed: int)
      requires Valid()
      modifies this, storage
      ensures Valid() && CommittedSince(old(outbox), Store.SetScrollSpeed(old(state), speed))
      ensures 0 <= state.scrollSpeed <= 100
    {
      Commit(Store.SetScrollSpeed(state, speed));
    }

    method ToggleAutoScroll()
      requires Valid()
      modifies this, storage
      ensures Valid() && CommittedSince(old(outbox), Store.ToggleAutoScroll(old(state)))
    {
      Commit(Store.ToggleAutoScroll(state));
    }

    method SetFontSize(size: FontSize)
      requires Valid()
      modifies this, storage
      ensures Valid() && CommittedSince(old(outbox), Store.SetFontSize(old(state), size))
    {
      Commit(Store.SetFontSize(state, size));
    }

    /** The channel's message listener. An adopted state is a new object, so
        the effect runs again: it is persisted and posted back. */
    method Receive(msg: Message)
      requires Valid()
      modifies this, storage
      ensures Valid()
      ensures HandleMessage(hasChannel, msg).Some? ==> CommittedSince(old(outbox), msg.state)
      ensures HandleMessage(hasChannel, msg).None? ==>
        state == old(state) && outbox == old(outbox) && storage.slot == old(storage.slot)
    {
      var adopted := HandleMessage(hasChannel, msg);
      if adopted.Some? {
        Commit(adopted.value);
      }
    }

    /** One firing of the 500 ms polling interval. Returning the previous
        state object changes nothing, so the effect does not run then. */
    method Tick()
      requires Valid()
      modifies this, storage
      ensures Valid()
      ensures var next := PollDecision(codec, hasChannel, old(storage.slot), old(state));
        if next.Some? then CommittedSince(old(outbox), next.value)
        else state == old(state) && outbox == old(outbox) && storage.slot == old(storage.slot)
    {
      var next := PollDecision(codec, hasChannel, storage.slot, state);
      if next.Some? {
        Commit(next.value);
      }
    }
  }

  /** The broadcast channel delivers the last message one context posted to
      another: the receiver takes over the sender's state, and posts it back. */
  method Deliver(sender: TeleprompterProvider, receiver: TeleprompterProvider)
    requires sender != receiver && sender.Valid() && receiver.Valid()
    requires sender.hasChannel && receiver.hasChannel
    modifies receiver, receiver.storage
    ensures receiver.Valid() && receiver.Persisted() && receiver.state == sender.state
    ensures receiver.outbox == old(receiver.outbox) + [Message(STATE_UPDATE, sender.state)]
  {
    var msg := sender.outbox[|sender.outbox| - 1];
    receiver.Receive(msg);
  }

  /** Two contexts with channels never stop answering each other: once `a`'s
      last message reaches `b` and `b`'s answer reaches `a`, each has saved
      and posted the same state once more, and the round's preconditions
      hold again. */
  method EchoRound(a: TeleprompterProvider, b: TeleprompterProvider)
    requires a != b && a.Valid() && b.Valid() && a.hasChannel && b.hasChannel
    modifies a, a.storage, b, b.storage
    ensures a.Valid() && b.Valid() && a.Persisted()
    ensures a.state == old(a.state) && b.state == old(a.state)
    ensures b.outbox == old(b.outbox) + [Message(STATE_UPDATE, old(a.state))]
    ensures a.outbox == old(a.outbox) + [Message(STATE_UPDATE, old(a.state))]
  {
    Deliver(a, b);
    Deliver(b, a);
  }

  /** Two contexts without a channel share the slot: after the writer has
      persisted its state, one poll in the reader gives it the same state,
      provided both serialise that state alike and parsing undoes it. */
  method PollConverges(writer: TeleprompterProvider, reader: TeleprompterProvider)
    requires writer != reader && reader.Valid() && !reader.hasChannel
    requires writer.storage == reader.storage && writer.Persisted()
    requires writer.codec.encode(writer.state) == reader.codec.encode(writer.state) != ""
    requires reader.codec.parseState(reader.codec.encode(writer.state)) == Some(writer.state)
    requires reader.codec.parseState(reader.codec.encode(reader.state)) == Some(reader.state)
    modifies reader, reader.storage
    ensures reader.Valid() && reader.Persisted()
    ensures reader.state == writer.state
  {
    reader.Tick();
  }
}
