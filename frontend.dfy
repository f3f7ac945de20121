/** The frontend side of the plugin bridge (src/gui/frontend.rs).

    A frontend handle has the same two slots as a game handle: `data1`
    holds the plugin's frontend object and `data2` the bridge's aux, which
    keeps the last error message, the host's display data and options, and
    the cached drawing surface.  The plugin's capability methods are
    function parameters as on the game side; a call sees its object and a
    `View` of what the `Wrapped` argument exposes, and answers with a
    `Reply`: the object after the call, whether it drew on the canvas, and
    its result. */
module Frontend {
  import opened Common
  import opened SdlEvent
  import opened MoveData
  import Surena

  /** `frontend_feature_flags`. */
  datatype FrontendFeatures = FrontendFeatures(options: bool)

  /** `Metadata` of a frontend. */
  datatype FrontendMetadata = FrontendMetadata(frontendName: string, version: Surena.Semver, features: FrontendFeatures)

  /** The function-pointer members of `frontend_methods`. */
  datatype FrontendEntry =
    | OptsCreate | OptsDisplay | OptsDestroy | GetLastError | Create | Destroy
    | RuntimeOptsDisplay | ProcessEvent | ProcessInput | Update | Render | IsGameCompatible

  /** A `frontend_methods` table: the metadata and the entries that are set. */
  datatype FrontendMethodsTable = FrontendMethodsTable(
    frontendName: string,
    version: Surena.Semver,
    features: FrontendFeatures,
    entries: set<FrontendEntry>)

  predicate IsOptsEntry(e: FrontendEntry)
  {
    e == OptsCreate || e == OptsDisplay || e == OptsDestroy
  }

  lemma NonOptsEntries(e: FrontendEntry)
    ensures !IsOptsEntry(e) ==>
      e in {GetLastError, Create, Destroy, RuntimeOptsDisplay, ProcessEvent, ProcessInput,
        Update, Render, IsGameCompatible}
  {
    match e
    case OptsCreate => case OptsDisplay => case OptsDestroy => case GetLastError =>
    case Create => case Destroy => case RuntimeOptsDisplay => case ProcessEvent =>
    case ProcessInput => case Update => case Render => case IsGameCompatible =>
  }

  /** `create_frontend_methods`: the three `opts_*` entries are set exactly
      when the options feature is; every other entry always is. */
  function CreateFrontendMethods(m: FrontendMetadata): (t: FrontendMethodsTable)
    ensures t.frontendName == m.frontendName && t.version == m.version && t.features == m.features
    ensures forall e :: IsOptsEntry(e) ==> (e in t.entries <==> m.features.options)
    ensures forall e :: !IsOptsEntry(e) ==> e in t.entries
  {
    var always := {GetLastError, Create, Destroy, RuntimeOptsDisplay, ProcessEvent, ProcessInput,
      Update, Render, IsGameCompatible};
    var entries := always + (if m.features.options then {OptsCreate, OptsDisplay, OptsDestroy} else {});
    assert forall e :: !IsOptsEntry(e) ==> e in always by {
      forall e | !IsOptsEntry(e) ensures e in always {
        NonOptsEntries(e);
      }
    }
    FrontendMethodsTable(m.frontendName, m.version, m.features, entries)
  }

  // ---------------------------------------------------------------------
  // Pointer-event translation

  /** The events that carry a pointer position. */
  predicate IsPointerEvent(e: SdlEventEnum)
  {
    e.MouseMotion? || e.MouseButtonDown? || e.MouseButtonUp? || e.MouseWheel?
  }

  /** The `x` and `y` of a pointer event. */
  function Position(e: SdlEventEnum): (int, int)
    requires IsPointerEvent(e)
  {
    match e
    case MouseMotion(m) => (m.x, m.y)
    case MouseButtonDown(b) => (b.x, b.y)
    case MouseButtonUp(b) => (b.x, b.y)
    case MouseWheel(w) => (w.x, w.y)
  }

  /** The `translate!` step of `process_input`: `x` and `y` of the four
      pointer variants are reduced by the display origin and the variant
      is kept; every other event is passed on as it is. */
  function Translate(e: SdlEventEnum, dx: int, dy: int): (r: SdlEventEnum)
    ensures TypeTag(r) == TypeTag(e)
    ensures IsPointerEvent(r) <==> IsPointerEvent(e)
    ensures IsPointerEvent(e) ==> Position(r) == (Position(e).0 - dx, Position(e).1 - dy)
    ensures !IsPointerEvent(e) ==> r == e
  {
    match e
    case MouseMotion(m) => MouseMotion(m.(x := m.x - dx, y := m.y - dy))
    case MouseButtonDown(b) => MouseButtonDown(b.(x := b.x - dx, y := b.y - dy))
    case MouseButtonUp(b) => MouseButtonUp(b.(x := b.x - dx, y := b.y - dy))
    case MouseWheel(w) => MouseWheel(w.(x := w.x - dx, y := w.y - dy))
    case _ => e
  }

  /** Translation changes nothing of an event but its position, which the
      inverse translation shows. */
  lemma TranslateInverse(e: SdlEventEnum, dx: int, dy: int)
    ensures Translate(Translate(e, dx, dy), -dx, -dy) == e
  {
  }

  // ---------------------------------------------------------------------
  // The drawing surface

  /** A drawing surface: its size, the origin the canvas is translated to,
      and how often it was flushed.  What is drawn on it is not modelled. */
  datatype Surface = Surface(width: int, height: int, originX: int, originY: int, flushes: nat)

  /** The surface `CanvasManager::get` leaves cached: a new one of the
      framebuffer's size only when none is cached; in either case the
      canvas is translated to the display origin. */
  function CanvasSurface(cached: Option<Surface>, fbw: int, fbh: int, x: int, y: int): (s: Surface)
    ensures cached.Some? ==> (s.width == cached.value.width && s.height == cached.value.height
      && s.flushes == cached.value.flushes)
    ensures cached.None? ==> s.width == fbw && s.height == fbh && s.flushes == 0
    ensures s.originX == x && s.originY == y
  {
    match cached
    case None => Surface(fbw, fbh, x, y, 0)
    case Some(t) => t.(originX := x, originY := y)
  }

  /** Asking for the canvas twice creates at most one surface: the second
      call reuses the first call's surface. */
  lemma CanvasCreatedOnce(cached: Option<Surface>, fbw: int, fbh: int, x: int, y: int)
    ensures var s := CanvasSurface(cached, fbw, fbh, x, y);
      CanvasSurface(Some(s), fbw, fbh, x, y) == s
  {
  }

  /** `surface.flush()` on the cached surface, if there is one. */
  function Flushed(cached: Option<Surface>): (r: Option<Surface>)
    ensures r.Some? <==> cached.Some?
    ensures cached.Some? ==> r.value == cached.value.(flushes := cached.value.flushes + 1)
  {
    match cached
    case None => None
    case Some(s) => Some(s.(flushes := s.flushes + 1))
  }

  // ---------------------------------------------------------------------
  // Objects

  /** `frontend_display_data`, owned and updated by the host. */
  class DisplayData {
    var x: int
    var y: int
    var fbw: int
    var fbh: int

    constructor (x: int, y: int, fbw: int, fbh: int)
      ensures this.x == x && this.y == y && this.fbw == fbw && this.fbh == fbh
    {
      this.x, this.y, this.fbw, this.fbh := x, y, fbw, fbh;
    }
  }

  /** The boxed options `opts_create` hands to the host; `dropped` records
      that `opts_destroy` has taken the box back. */
  class OptionsBox<O> {
    var value: O
    var dropped: bool

    constructor (value: O)
      ensures this.value == value && !dropped
    {
      this.value := value;
      dropped := false;
    }
  }

  /** What a capability method sees through `Wrapped`: the options, the
      display origin and the framebuffer size. */
  datatype View<O> = View(options: Option<O>, x: int, y: int, fbw: int, fbh: int)

  /** What a capability method does: the object after the call, whether it
      asked for the canvas, and its result. */
  datatype Reply<F> = Reply(next: F, drew: bool, result: Result<(), Error>)

  /** One opts call (`CodeResult`): the options after the call and its
      result, an error code without a message. */
  datatype CodeStep<O> = CodeStep(next: O, result: Result<(), ErrorCode>)

  /** The auxiliary state in `data2`. */
  class Aux<O> {
    var error: string
    const displayData: DisplayData
    const options: Option<OptionsBox<O>>
    var surface: Option<Surface>

    /** `Aux::init`: no error and no cached surface. */
    constructor (displayData: DisplayData, options: Option<OptionsBox<O>>)
      ensures error == "" && surface.None?
      ensures this.displayData == displayData && this.options == options
    {
      error := "";
      this.displayData := displayData;
      this.options := options;
      surface := None;
    }

    method SetError(message: string)
      modifies this
      ensures error == message && surface == old(surface)
    {
      error := message;
    }

    /** `CanvasManager::get`. */
    method CanvasGet()
      modifies this
      ensures surface == Some(CanvasSurface(old(surface), displayData.fbw, displayData.fbh, displayData.x, displayData.y))
      ensures error == old(error)
    {
      surface := Some(CanvasSurface(surface, displayData.fbw, displayData.fbh, displayData.x, displayData.y));
    }
  }

  /** A frontend handle; `skia` is the build's `skia` feature. */
  class Frontend<F, O> {
    const skia: bool
    var methods: FrontendMethodsTable
    var data1: Option<F>
    var data2: Option<Aux<O>>

    ghost predicate Valid()
      reads this
    {
      data1.Some? ==> data2.Some?
    }

    /** A handle the host may call the frontend's methods on. */
    ghost predicate Live()
      reads this
    {
      data1.Some? && data2.Some?
    }

    constructor (skia: bool, methods: FrontendMethodsTable)
      ensures this.skia == skia && this.methods == methods && data1.None? && data2.None?
    {
      this.skia := skia;
      this.methods := methods;
      data1 := None;
      data2 := None;
    }

    /** What `Wrapped::new` exposes. */
    function ViewOf(): (v: View<O>)
      requires data2.Some?
      reads this, data2.value, data2.value.displayData
      reads if data2.value.options.Some? then {data2.value.options.value} else {}
      ensures v.options.Some? <==> data2.value.options.Some?
      ensures data2.value.options.Some? ==> v.options.value == data2.value.options.value.value
      ensures v.x == data2.value.displayData.x && v.y == data2.value.displayData.y
      ensures v.fbw == data2.value.displayData.fbw && v.fbh == data2.value.displayData.fbh
    {
      var aux := data2.value;
      var d := aux.displayData;
      View(if aux.options.Some? then Some(aux.options.value.value) else None, d.x, d.y, d.fbw, d.fbh)
    }

    /** The cached surface after a call that did or did not ask for the
        canvas (there is no canvas without `skia`). */
    function AfterCall(cached: Option<Surface>, drew: bool, v: View<O>): (r: Option<Surface>)
      ensures !(skia && drew) ==> r == cached
      ensures skia && drew ==> (r.Some? && r.value.originX == v.x && r.value.originY == v.y
        && (cached.None? ==> r.value.width == v.fbw && r.value.height == v.fbh && r.value.flushes == 0)
        && (cached.Some? ==> (r.value.width == cached.value.width && r.value.height == cached.value.height
            && r.value.flushes == cached.value.flushes)))
    {
      if skia && drew then Some(CanvasSurface(cached, v.fbw, v.fbh, v.x, v.y)) else cached
    }

    /** `get_last_error`: the message of aux, never the frontend object. */
    function GetLastError(): (e: string)
      requires data2.Some?
      reads this`data2, data2.value
      ensures e == data2.value.error
    {
      data2.value.error
    }

    /** A capability call through `Wrapped` followed by `mirabel_try!`. */
    method Dispatch(call: (F, View<O>) -> Reply<F>) returns (st: Status)
      requires Live()
      modifies this, data2.value
      ensures Live() && data2 == old(data2) && methods == old(methods)
      ensures var r := call(old(data1.value), old(ViewOf()));
        data1 == Some(r.next)
        && data2.value.surface == AfterCall(old(data2.value.surface), r.drew, old(ViewOf()))
        && (st.Success? <==> r.result.Ok?)
        && (r.result.Ok? ==> st == Success && data2.value.error == old(data2.value.error))
        && (r.result.Err? ==> st == Failure(r.result.error.code) && data2.value.error == r.result.error.message)
    {
      var aux := data2.value;
      var r := call(data1.value, ViewOf());
      if skia && r.drew {
        aux.CanvasGet();
      }
      data1 := Some(r.next);
      if r.result.Err? {
        aux.SetError(r.result.error.message);
        return Failure(r.result.error.code);
      }
      st := Success;
    }

    /** `create`: nulls `data1`, puts a fresh aux holding the display data
        and options in `data2`, then calls the plugin's `create` with the
        options.  An error is stored and its code returned, `data1`
        staying null.  On success the object is stored and, as written,
        the code returned is `ERR_FEATURE_UNSUPPORTED`, not `ERR_OK`. */
    method CreateFrontend(display: DisplayData, options: Option<OptionsBox<O>>, create: Option<O> -> Result<F, Error>)
      returns (st: Status)
      modifies this
      ensures data2.Some? && fresh(data2.value) && Valid() && methods == old(methods)
      ensures data2.value.displayData == display && data2.value.options == options && data2.value.surface.None?
      ensures var r := create(if options.Some? then Some(old(options.value.value)) else None);
        (r.Err? ==> st == Failure(r.error.code) && data1.None? && data2.value.error == r.error.message)
        && (r.Ok? ==> st == Failure(FeatureUnsupported) && data1 == Some(r.value) && data2.value.error == "")
    {
      data1 := None;
      var aux := new Aux<O>(display, options);
      data2 := None;
      data2 := Some(aux);
      var r := create(if options.Some? then Some(options.value.value) else None);
      if r.Err? {
        aux.SetError(r.error.message);
        return Failure(r.error.code);
      }
      data1 := Some(r.value);
      st := Failure(FeatureUnsupported);
    }

    /** `destroy`: frees and nulls `data1` when set, then `data2`; a second
        `destroy` changes nothing. */
    method DestroyFrontend() returns (st: Status)
      modifies this
      ensures data1.None? && data2.None? && st == Success && methods == old(methods)
    {
      if data1.Some? {
        data1 := None;
      }
      if data2.Some? {
        data2 := None;
      }
      st := Success;
    }

    /** `runtime_opts_display`. */
    method RuntimeOptsDisplayFrontend(call: (F, View<O>) -> Reply<F>) returns (st: Status)
      requires Live()
      modifies this, data2.value
      ensures Live() && data2 == old(data2) && methods == old(methods)
      ensures var r := call(old(data1.value), old(ViewOf()));
        data1 == Some(r.next)
        && data2.value.surface == AfterCall(old(data2.value.surface), r.drew, old(ViewOf()))
        && (st.Success? <==> r.result.Ok?)
        && (r.result.Ok? ==> st == Success && data2.value.error == old(data2.value.error))
        && (r.result.Err? ==> st == Failure(r.result.error.code) && data2.value.error == r.result.error.message)
    {
      st := Dispatch(call);
    }

    /** `update`. */
    method UpdateFrontend(call: (F, View<O>) -> Reply<F>) returns (st: Status)
      requires Live()
      modifies this, data2.value
      ensures Live() && data2 == old(data2) && methods == old(methods)
      ensures var r := call(old(data1.value), old(ViewOf()));
        data1 == Some(r.next)
        && data2.value.surface == AfterCall(old(data2.value.surface), r.drew, old(ViewOf()))
        && (st.Success? <==> r.result.Ok?)
        && (r.result.Ok? ==> st == Success && data2.value.error == old(data2.value.error))
        && (r.result.Err? ==> st == Failure(r.result.error.code) && data2.value.error == r.result.error.message)
    {
      st := Dispatch(call);
    }

    /** `process_event`: the host's event is wrapped in an owning
        `EventAny`, handed to the plugin as its `EventEnum` view, and
        destroyed exactly once when the plugin's call drops it. */
    method ProcessEventFrontend(event: EventAnyWire, call: (F, View<O>, EventEnum) -> Reply<F>)
      returns (st: Status, owned: EventAny)
      requires Live() && ValidEvent(event)
      modifies this, data2.value
      ensures fresh(owned) && owned.event == event && owned.destroyed == 1
      ensures Live() && data2 == old(data2) && methods == old(methods)
      ensures var r := call(old(data1.value), old(ViewOf()), NewEventEnum(event));
        data1 == Some(r.next)
        && data2.value.surface == AfterCall(old(data2.value.surface), r.drew, old(ViewOf()))
        && (st.Success? <==> r.result.Ok?)
        && (r.result.Ok? ==> st == Success && data2.value.error == old(data2.value.error))
        && (r.result.Err? ==> st == Failure(r.result.error.code) && data2.value.error == r.result.error.message)
    {
      owned := new EventAny(event);
      var view := owned.ToRust();
      st := Dispatch((f, v) => call(f, v, view));
      owned.Drop();
    }

    /** `process_input`: the raw event is classified; with `skia`, a resize
        drops the cached surface; pointer events are translated by the
        display origin; then the plugin is called with the result. */
    method ProcessInputFrontend(event: SdlEventRaw, call: (F, View<O>, SdlEventEnum) -> Reply<F>) returns (st: Status)
      requires Live()
      modifies this, data2.value
      ensures Live() && data2 == old(data2) && methods == old(methods)
      ensures var e := Classify(event);
        var resized := skia && e.Window? && e.window.event == SDL_WINDOWEVENT_SIZE_CHANGED;
        var v := old(ViewOf());
        var r := call(old(data1.value), v, Translate(e, v.x, v.y));
        data1 == Some(r.next)
        && data2.value.surface == AfterCall(if resized then None else old(data2.value.surface), r.drew, v)
        && (st.Success? <==> r.result.Ok?)
        && (r.result.Ok? ==> st == Success && data2.value.error == old(data2.value.error))
        && (r.result.Err? ==> st == Failure(r.result.error.code) && data2.value.error == r.result.error.message)
    {
      var e := Classify(event);
      if skia && e.Window? && e.window.event == SDL_WINDOWEVENT_SIZE_CHANGED {
        data2.value.surface := None;
      }
      var v := ViewOf();
      var translated := Translate(e, v.x, v.y);
      st := Dispatch((f, w) => call(f, w, translated));
    }

    /** `render`: with `skia`, the cached surface is flushed only after the
        plugin's `render` succeeded, and only if there is one. */
    method RenderFrontend(call: (F, View<O>) -> Reply<F>) returns (st: Status)
      requires Live()
      modifies this, data2.value
      ensures Live() && data2 == old(data2) && methods == old(methods)
      ensures var v := old(ViewOf());
        var r := call(old(data1.value), v);
        var drawn := AfterCall(old(data2.value.surface), r.drew, v);
        data1 == Some(r.next)
        && (st.Success? <==> r.result.Ok?)
        && (r.result.Err? ==> (st == Failure(r.result.error.code) && data2.value.surface == drawn
            && data2.value.error == r.result.error.message))
        && (r.result.Ok? ==> (st == Success && data2.value.error == old(data2.value.error)
            && data2.value.surface == if skia then Flushed(drawn) else drawn))
    {
      st := Dispatch(call);
      if st.Failure? {
        return;
      }
      if skia && data2.value.surface.Some? {
        data2.value.surface := Flushed(data2.value.surface);
      }
    }

    /** `opts_create`: the out-slot is nulled first and receives the boxed
        options only on success. */
    static method OptsCreateFrontend(created: Result<O, ErrorCode>) returns (st: Status, slot: Option<OptionsBox<O>>)
      ensures created.Ok? ==> (st == Success && slot.Some? && fresh(slot.value)
        && slot.value.value == created.value && !slot.value.dropped)
      ensures created.Err? ==> st == Failure(created.error) && slot.None?
    {
      slot := None;
      if created.Err? {
        return Failure(created.error), slot;
      }
      var b := new OptionsBox(created.value);
      slot := Some(b);
      st := Success;
    }

    /** `opts_display`: the plugin may change the options in place. */
    static method OptsDisplayFrontend(options: OptionsBox<O>, display: O -> CodeStep<O>) returns (st: Status)
      requires !options.dropped
      modifies options
      ensures !options.dropped
      ensures options.value == display(old(options.value)).next
      ensures st == if display(old(options.value)).result.Ok? then Success
        else Failure(display(old(options.value)).result.error)
    {
      var r := display(options.value);
      options.value := r.next;
      st := if r.result.Ok? then Success else Failure(r.result.error);
    }

    /** `opts_destroy`: the box is taken back and dropped, its options
        untouched; no error is possible.  A box is destroyed at most once. */
    static method OptsDestroyFrontend(options: OptionsBox<O>) returns (st: Status)
      requires !options.dropped
      modifies options
      ensures options.dropped && options.value == old(options.value)
      ensures st == Success
    {
      options.dropped := true;
      st := Success;
    }
  }

  /** `GameInfo`: the metadata of a game's method table. */
  datatype GameInfo = GameInfo(
    gameName: string,
    variantName: string,
    implName: string,
    version: Surena.Semver,
    features: Surena.GameFeatures)

  /** `GameInfo::new`. */
  function GameInfoOf(t: Surena.GameMethodsTable): (g: GameInfo)
    ensures g.gameName == t.gameName && g.variantName == t.variantName && g.implName == t.implName
    ensures g.version == t.version && g.features == t.features
  {
    GameInfo(t.gameName, t.variantName, t.implName, t.version, t.features)
  }

  /** `is_game_compatible`: the plugin's verdict on the game's metadata,
      an error code without a message; no handle is involved. */
  function IsGameCompatibleFrontend(t: Surena.GameMethodsTable, check: GameInfo -> Result<(), ErrorCode>): (st: Status)
    ensures st.Success? <==> check(GameInfoOf(t)).Ok?
    ensures st.Failure? ==> st.code == check(GameInfoOf(t)).error
    ensures !st.Abort?
  {
    match check(GameInfoOf(t))
    case Ok(_) => Success
    case Err(code) => Failure(code)
  }
}
