/** The SDL input-event wrapper of the frontend bridge
    (src/gui/sdl_event.rs, and its older copy src/sdl_event.rs, whose
    dispatch is the same).  A raw `SDL_Event` is a union; it is modelled
    as its type tag together with each member view the classifier may
    select.  Tag values are those of SDL2's SDL_events.h and SDL_mouse.h. */
module SdlEvent {
  import opened Common

  const SDL_WINDOWEVENT: nat := 0x200
  const SDL_KEYDOWN: nat := 0x300
  const SDL_KEYUP: nat := 0x301
  const SDL_MOUSEMOTION: nat := 0x400
  const SDL_MOUSEBUTTONDOWN: nat := 0x401
  const SDL_MOUSEBUTTONUP: nat := 0x402
  const SDL_MOUSEWHEEL: nat := 0x403

  const SDL_WINDOWEVENT_SIZE_CHANGED: nat := 6

  const SDL_BUTTON_LEFT: u32 := 1
  const SDL_BUTTON_MIDDLE: u32 := 2
  const SDL_BUTTON_RIGHT: u32 := 3
  const SDL_BUTTON_X1: u32 := 4
  const SDL_BUTTON_X2: u32 := 5

  /** The tags the wrapper gives a variant of their own. */
  const KNOWN_TYPES: set<nat> := {SDL_WINDOWEVENT, SDL_KEYDOWN, SDL_KEYUP,
    SDL_MOUSEMOTION, SDL_MOUSEBUTTONDOWN, SDL_MOUSEBUTTONUP, SDL_MOUSEWHEEL}

  datatype WindowEvent = WindowEvent(windowId: nat, event: u8, data1: int, data2: int)
  datatype KeyboardEvent = KeyboardEvent(windowId: nat, state: u8, repeat: u8, scancode: nat, sym: int, mod: nat)
  datatype MouseMotionEvent = MouseMotionEvent(windowId: nat, which: nat, state: nat, x: int, y: int, xrel: int, yrel: int)
  datatype MouseButtonEvent = MouseButtonEvent(windowId: nat, which: nat, button: u8, state: u8, clicks: u8, x: int, y: int)
  datatype MouseWheelEvent = MouseWheelEvent(windowId: nat, which: nat, x: int, y: int, direction: nat)

  /** A raw `SDL_Event`: its type tag and its member views. */
  datatype SdlEventRaw = SdlEventRaw(
    type_: nat,
    window: WindowEvent,
    key: KeyboardEvent,
    motion: MouseMotionEvent,
    button: MouseButtonEvent,
    wheel: MouseWheelEvent)

  /** `SDLEventEnum`. */
  datatype SdlEventEnum =
    | Window(window: WindowEvent)
    | KeyDown(key: KeyboardEvent)
    | KeyUp(key: KeyboardEvent)
    | MouseMotion(motion: MouseMotionEvent)
    | MouseButtonDown(button: MouseButtonEvent)
    | MouseButtonUp(button: MouseButtonEvent)
    | MouseWheel(wheel: MouseWheelEvent)
    | Unknown(raw: SdlEventRaw)

  /** `SDLEventEnum::new`: dispatch on the type tag.  Classification loses
      no tag: the variant names the raw tag; it is `Unknown`, holding the
      unchanged event, exactly for the tags without a variant; and the
      payload is the matching member view. */
  function Classify(e: SdlEventRaw): (r: SdlEventEnum)
    ensures TypeTag(r) == e.type_
    ensures r.Unknown? <==> e.type_ !in KNOWN_TYPES
    ensures r.Unknown? ==> r.raw == e
    ensures CarriesViewOf(r, e)
  {
    match e.type_
    case SDL_WINDOWEVENT => Window(e.window)
    case SDL_KEYDOWN => KeyDown(e.key)
    case SDL_KEYUP => KeyUp(e.key)
    case SDL_MOUSEMOTION => MouseMotion(e.motion)
    case SDL_MOUSEBUTTONDOWN => MouseButtonDown(e.button)
    case SDL_MOUSEBUTTONUP => MouseButtonUp(e.button)
    case SDL_MOUSEWHEEL => MouseWheel(e.wheel)
    case _ => Unknown(e)
  }

  /** The SDL type tag a classified event stands for. */
  function TypeTag(r: SdlEventEnum): nat
  {
    match r
    case Window(_) => SDL_WINDOWEVENT
    case KeyDown(_) => SDL_KEYDOWN
    case KeyUp(_) => SDL_KEYUP
    case MouseMotion(_) => SDL_MOUSEMOTION
    case MouseButtonDown(_) => SDL_MOUSEBUTTONDOWN
    case MouseButtonUp(_) => SDL_MOUSEBUTTONUP
    case MouseWheel(_) => SDL_MOUSEWHEEL
    case Unknown(raw) => raw.type_
  }

  /** The member view a classified event carries, as it was in the raw
      event: the payload is copied, never altered. */
  ghost predicate CarriesViewOf(r: SdlEventEnum, e: SdlEventRaw)
  {
    match r
    case Window(w) => w == e.window
    case KeyDown(k) => k == e.key
    case KeyUp(k) => k == e.key
    case MouseMotion(m) => m == e.motion
    case MouseButtonDown(b) => b == e.button
    case MouseButtonUp(b) => b == e.button
    case MouseWheel(w) => w == e.wheel
    case Unknown(raw) => raw == e
  }

  /** Each known tag selects its own variant (both directions), so the
      classification is total and determined by the tag. */
  lemma ClassifyByTag(e: SdlEventRaw)
    ensures Classify(e).Window? <==> e.type_ == SDL_WINDOWEVENT
    ensures Classify(e).KeyDown? <==> e.type_ == SDL_KEYDOWN
    ensures Classify(e).KeyUp? <==> e.type_ == SDL_KEYUP
    ensures Classify(e).MouseMotion? <==> e.type_ == SDL_MOUSEMOTION
    ensures Classify(e).MouseButtonDown? <==> e.type_ == SDL_MOUSEBUTTONDOWN
    ensures Classify(e).MouseButtonUp? <==> e.type_ == SDL_MOUSEBUTTONUP
    ensures Classify(e).MouseWheel? <==> e.type_ == SDL_MOUSEWHEEL
    ensures Classify(e) == Unknown(e) <==> e.type_ !in KNOWN_TYPES
  {
  }

  /** Key-down and key-up share the keyboard view; button-down and
      button-up share the button view. */
  lemma ClassifyPairsShareViews(e: SdlEventRaw, f: SdlEventRaw)
    requires e.type_ == SDL_KEYDOWN && f.type_ == SDL_KEYUP && e.key == f.key
    ensures Classify(e).key == Classify(f).key
    ensures Classify(e.(type_ := SDL_MOUSEBUTTONDOWN)).button == Classify(e.(type_ := SDL_MOUSEBUTTONUP)).button == e.button
  {
  }

  /** Two raw events with the same tag and the same member views classify
      alike: classification is a function of tag and views. */
  lemma ClassifyDeterminedByTagAndView(e: SdlEventRaw, f: SdlEventRaw)
    requires e.type_ == f.type_ && e.type_ in KNOWN_TYPES
    requires e.window == f.window && e.key == f.key && e.motion == f.motion
    requires e.button == f.button && e.wheel == f.wheel
    ensures Classify(e) == Classify(f)
  {
  }

  // ---------------------------------------------------------------------
  // Button masks

  function Pow2(k: nat): (p: nat)
    ensures p >= 1
  {
    if k == 0 then 1 else 2 * Pow2(k - 1)
  }

  /** Bit `k` of `n`. */
  function Bit(n: nat, k: nat): nat
  {
    if k == 0 then n % 2 else Bit(n / 2, k - 1)
  }

  /** `sdl_button_mask`: panics unless `1 <= button <= 32`, otherwise the
      32-bit value `1 << (button - 1)`, which for shifts up to 31 is
      2^(button - 1) without wrap-around. */
  function ButtonMask(button: u32): (r: Result<u32, string>)
    ensures r.Ok? <==> 1 <= button <= 32
  {
    if 0 < button <= 32 then
      Pow2Monotone(button - 1, 32);
      Pow2ThirtyTwo();
      Ok(Pow2(button - 1))
    else
      Result<u32, string>.Err("assertion failed: button > u32::MIN && button <= u32::BITS")
  }

  lemma {:induction false} Pow2Monotone(a: nat, b: nat)
    requires a <= b
    ensures Pow2(a) <= Pow2(b)
    ensures a < b ==> Pow2(a) < Pow2(b)
  {
    if a < b {
      Pow2Monotone(a, b - 1);
    }
  }

  lemma {:induction false} Pow2Split(j: nat, k: nat)
    requires k <= j
    ensures Pow2(j) == Pow2(k) * Pow2(j - k)
  {
    if k < j {
      Pow2Split(j - 1, k);
    }
  }

  lemma Pow2ThirtyTwo()
    ensures Pow2(32) == U32_MODULUS
  {
    assert Pow2(2) == 4;
    Pow2Split(4, 2);
    Pow2Split(8, 4);
    Pow2Split(16, 8);
    Pow2Split(32, 16);
  }

  lemma {:induction false} BitOfZero(k: nat)
    ensures Bit(0, k) == 0
  {
    if k > 0 {
      BitOfZero(k - 1);
    }
  }

  /** 2^j has bit j set and no other. */
  lemma {:induction false} BitOfPow2(j: nat, k: nat)
    ensures Bit(Pow2(j), k) == if j == k then 1 else 0
  {
    if k > 0 {
      if j == 0 {
        BitOfZero(k - 1);
      } else {
        BitOfPow2(j - 1, k - 1);
      }
    }
  }

  /** The mask of a button in range has exactly one bit set, bit
      `button - 1`; so distinct buttons have distinct masks. */
  lemma ButtonMaskSingleBit(button: u32, k: nat)
    requires 1 <= button <= 32
    ensures Bit(ButtonMask(button).value, k) == if k == button - 1 then 1 else 0
  {
    BitOfPow2(button - 1, k);
  }

  lemma ButtonMasksDistinct(a: u32, b: u32)
    requires 1 <= a <= 32 && 1 <= b <= 32 && a != b
    ensures ButtonMask(a) != ButtonMask(b)
  {
    ButtonMaskSingleBit(a, a - 1);
    ButtonMaskSingleBit(b, a - 1);
  }

  /** The mask panics exactly outside 1..=32. */
  lemma ButtonMaskPanicsOutOfRange(button: u32)
    ensures ButtonMask(button).Err? <==> (button == 0 || button > 32)
  {
  }

  /** The documented example: the right button's mask is 0b100. */
  lemma RightButtonMask()
    ensures ButtonMask(SDL_BUTTON_RIGHT) == Ok(4)
  {
  }
}
