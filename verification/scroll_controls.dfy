/** The buttons and slider of src/components/teleprompter/ScrollControls.tsx
    and the store calls they make. */
module ScrollControls {
  import opened Wrappers
  import opened TeleprompterTypes
  import Store

  /** `disabled={scrollSpeed <= 0}` on the decrease button (34): disabled
      exactly when a click could not lower the stored speed. */
  predicate DecreaseDisabled(speed: int): (r: bool)
    ensures r <==> Store.Clamp(speed - 10) >= speed
  {
    speed <= 0
  }

  /** `disabled={scrollSpeed >= 100}` on the increase button (55): disabled
      exactly when a click could not raise the stored speed. */
  predicate IncreaseDisabled(speed: int): (r: bool)
    ensures r <==> Store.Clamp(speed + 10) <= speed
  {
    speed >= 100
  }

  /** The value at position `k` of the range input's 21 positions. */
  function SliderValue(k: int): int {
    5 * k
  }

  /** `min={0} max={100} step={5}` on the range input (70-73): the values at
      the positions 0 to 20. */
  predicate SliderOffers(v: int): (r: bool)
    ensures r <==> exists k :: 0 <= k <= 20 && SliderValue(k) == v
  {
    if 0 <= v <= 100 && v % 5 == 0 then
      assert SliderValue(v / 5) == v;
      true
    else false
  }

  datatype Control = PlayPause | Decrease | Increase | Slide(value: int)

  /** The store call a click makes: play/pause only toggles; the step buttons
      ask for the speed minus or plus 10 and make no call while disabled; the
      slider asks for its value. */
  function ControlAction(s: TeleprompterState, c: Control): (r: Option<Store.Action>)
    ensures c == PlayPause ==> r == Some(Store.ToggleScrolling)
    ensures c == Decrease ==> (r.None? <==> DecreaseDisabled(s.scrollSpeed))
    ensures c == Decrease && r.Some? ==> r.value == Store.ChangeSpeed(s.scrollSpeed - 10)
    ensures c == Increase ==> (r.None? <==> IncreaseDisabled(s.scrollSpeed))
    ensures c == Increase && r.Some? ==> r.value == Store.ChangeSpeed(s.scrollSpeed + 10)
    ensures c.Slide? ==> r == Some(Store.ChangeSpeed(c.value))
  {
    match c
    case PlayPause => Some(Store.ToggleScrolling)
    case Decrease => if DecreaseDisabled(s.scrollSpeed) then None else Some(Store.ChangeSpeed(s.scrollSpeed - 10))
    case Increase => if IncreaseDisabled(s.scrollSpeed) then None else Some(Store.ChangeSpeed(s.scrollSpeed + 10))
    case Slide(v) => Some(Store.ChangeSpeed(v))
  }

  /** The store state after one click. An enabled step button moves the speed
      strictly in its direction and into [0,100]; a disabled one does nothing;
      nothing but the speed and the auto-scroll flag ever changes. */
  function Press(s: TeleprompterState, c: Control): (r: TeleprompterState)
    ensures r.(scrollSpeed := s.scrollSpeed, isAutoScrolling := s.isAutoScrolling) == s
    ensures c == Decrease && DecreaseDisabled(s.scrollSpeed) ==> r == s
    ensures c == Decrease && !DecreaseDisabled(s.scrollSpeed) ==> 0 <= r.scrollSpeed < s.scrollSpeed && r.scrollSpeed <= 100
    ensures c == Increase && IncreaseDisabled(s.scrollSpeed) ==> r == s
    ensures c == Increase && !IncreaseDisabled(s.scrollSpeed) ==> s.scrollSpeed < r.scrollSpeed <= 100 && 0 <= r.scrollSpeed
    ensures c.Slide? && SliderOffers(c.value) ==> r.scrollSpeed == c.value
    ensures c == PlayPause ==> r == Store.ToggleAutoScroll(s)
  {
    match ControlAction(s, c)
    case None => s
    case Some(a) => Store.Apply(s, a)
  }

  /** The store state after a sequence of clicks. */
  function PressAll(s: TeleprompterState, cs: seq<Control>): TeleprompterState
    decreases |cs|
  {
    if cs == [] then s else PressAll(Press(s, cs[0]), cs[1..])
  }

  /** Any sequence of clicks keeps a speed that starts in [0,100] there. */
  lemma {:induction false} PressesKeepSpeedInRange(s: TeleprompterState, cs: seq<Control>)
    requires 0 <= s.scrollSpeed <= 100
    ensures 0 <= PressAll(s, cs).scrollSpeed <= 100
    decreases |cs|
  {
    if cs != [] {
      PressesKeepSpeedInRange(Press(s, cs[0]), cs[1..]);
    }
  }

  function Repeat(c: Control, n: nat): (r: seq<Control>)
    ensures |r| == n && forall i :: 0 <= i < n ==> r[i] == c
  {
    if n == 0 then [] else [c] + Repeat(c, n - 1)
  }

  /** n decrease clicks from a speed in range give `max(0, speed - 10n)`. */
  lemma {:induction false} RepeatedDecrease(s: TeleprompterState, n: nat)
    requires 0 <= s.scrollSpeed <= 100
    ensures PressAll(s, Repeat(Decrease, n)).scrollSpeed == Store.Clamp(s.scrollSpeed - 10 * n)
    decreases n
  {
    if n > 0 {
      var next := Press(s, Decrease);
      assert Repeat(Decrease, n)[1..] == Repeat(Decrease, n - 1);
      RepeatedDecrease(next, n - 1);
    }
  }

  /** n increase clicks from a speed in range give `min(100, speed + 10n)`. */
  lemma {:induction false} RepeatedIncrease(s: TeleprompterState, n: nat)
    requires 0 <= s.scrollSpeed <= 100
    ensures PressAll(s, Repeat(Increase, n)).scrollSpeed == Store.Clamp(s.scrollSpeed + 10 * n)
    decreases n
  {
    if n > 0 {
      var next := Press(s, Increase);
      assert Repeat(Increase, n)[1..] == Repeat(Increase, n - 1);
      RepeatedIncrease(next, n - 1);
    }
  }
}
