/** The move-data wire codec and the host event wrapper of the event
    framework (src/base/event.rs).

    A wire `move_data` is a union discriminated by the nullness of its data
    pointer: a null pointer means the 64-bit `cl` word holds a move code, a
    non-null pointer means `cl` holds the length of a big move stored at the
    pointer.  A pointer is modelled by the bytes readable through it. */
module MoveData {
  import opened Common

  /** A borrowed move (Rust `MoveData`). */
  datatype MoveData = MoveCode(code: MoveCode) | BigMove(bytes: seq<byte>)

  /** A wire `move_data`: `cl` is the storage the `code` and `len` members
      of the union share (one 64-bit word), `data` the pointer, `None`
      being the null pointer and `Some(mem)` a pointer to the bytes `mem`. */
  datatype WireMoveData = WireMoveData(cl: u64, data: Option<seq<byte>>)

  /** A move with its synchronisation counter (`MoveDataSync`). */
  datatype MoveDataSync<M> = MoveDataSync(md: M, syncCtr: u32)

  /** What the host guarantees about a `move_data` it hands over: a
      non-null pointer points at least `len` readable bytes. */
  ghost predicate ValidWire(md: WireMoveData)
  {
    md.data.Some? ==> md.cl <= |md.data.value|
  }

  /** `MoveData::from_ref`: decodes a wire move by shallow copy. */
  function FromRef(md: WireMoveData): (m: MoveData)
    requires ValidWire(md)
    ensures m.MoveCode? <==> md.data.None?
    ensures m.MoveCode? ==> m.code == md.cl
    ensures m.BigMove? ==> |m.bytes| == md.cl && m.bytes == md.data.value[..md.cl]
  {
    if md.data.None? then MoveCode(md.cl)
    else if md.cl == 0 then BigMove([])
    else BigMove(md.data.value[..md.cl])
  }

  /** A big move whose length fits the 64-bit `len` word. */
  ghost predicate Encodable(m: MoveData)
  {
    m.BigMove? ==> |m.bytes| < U64_MODULUS
  }

  /** `From<MoveData> for move_data`: a move code travels in `cl` with a
      null pointer, a big move as a non-null pointer to its bytes with its
      length in `cl`, the empty big move included. */
  function ToWire(m: MoveData): (md: WireMoveData)
    requires Encodable(m)
    ensures ValidWire(md)
    ensures m.MoveCode? ==> md == WireMoveData(m.code, None)
    ensures m.BigMove? ==> md.cl == |m.bytes| && md.data == Some(m.bytes)
  {
    match m
    case MoveCode(code) => WireMoveData(code, None)
    case BigMove(bytes) => WireMoveData(|bytes|, Some(bytes))
  }

  /** Encoding then decoding gives back every move. */
  lemma DecodeEncode(m: MoveData)
    requires Encodable(m)
    ensures FromRef(ToWire(m)) == m
  {
  }

  /** Decoding then encoding keeps the discriminant and the `cl` word; the
      pointer then points exactly the `len` bytes that were decoded. */
  lemma EncodeDecode(md: WireMoveData)
    requires ValidWire(md)
    ensures Encodable(FromRef(md))
    ensures ToWire(FromRef(md)).cl == md.cl
    ensures ToWire(FromRef(md)).data.None? <==> md.data.None?
    ensures md.data.Some? ==> ToWire(FromRef(md)).data == Some(md.data.value[..md.cl])
  {
  }

  /** The empty big move is encoded with a non-null pointer and so decodes
      as a big move, never as the move code 0. */
  lemma EmptyBigMoveStaysBig()
    ensures ToWire(BigMove([])).data.Some?
    ensures FromRef(ToWire(BigMove([]))) == BigMove([])
    ensures FromRef(ToWire(BigMove([]))) != FromRef(ToWire(MoveCode(0)))
  {
  }

  /** Distinct moves have distinct encodings. */
  lemma ToWireInjective(a: MoveData, b: MoveData)
    requires Encodable(a) && Encodable(b)
    requires ToWire(a) == ToWire(b)
    ensures a == b
  {
    DecodeEncode(a);
    DecodeEncode(b);
  }

  // ---------------------------------------------------------------------
  // Events

  /* The numeric values of EVENT_TYPE_E come from the generated bindings of
     the host's headers, which are not part of this model; the model relies
     only on the four tags being distinct. */
  const EVENT_TYPE_GAME_LOAD_METHODS: nat := 4
  const EVENT_TYPE_GAME_UNLOAD: nat := 5
  const EVENT_TYPE_GAME_STATE: nat := 6
  const EVENT_TYPE_GAME_MOVE: nat := 7

  /** The common header of every event (`event`, Rust `Event`). */
  datatype Event = Event(type_: nat, clientId: u32, lobbyId: u32)

  /** The payload of a load-methods event: the methods pointer and the
      initialisation info, both carried as opaque tokens (`GameInit` is not
      part of this model). */
  datatype LoadMethodsWire = LoadMethodsWire(methods: nat, initInfo: nat)

  /** The payload of a game-move event: the player and the move with its
      synchronisation counter, still in wire form. */
  datatype GameMoveWire = GameMoveWire(player: PlayerId, data: MoveDataSync<WireMoveData>)

  /** A wire `event_any`: the union seen through each member that
      `EventEnum::new` may select; which one is meaningful is given by the
      header's type tag. */
  datatype EventAnyWire = EventAnyWire(
    base: Event,
    loadMethods: LoadMethodsWire,
    state: Option<string>,
    gameMove: GameMoveWire)

  datatype EventGameLoadMethods = EventGameLoadMethods(base: Event, methods: nat, initInfo: nat)
  datatype EventGameState = EventGameState(base: Event, state: Option<string>)
  datatype EventGameMove = EventGameMove(base: Event, player: PlayerId, data: MoveDataSync<MoveData>)

  /** A host event converted to a Rust enum (`EventEnum`). */
  datatype EventEnum =
    | GameLoadMethods(loadMethods: EventGameLoadMethods)
    | GameUnload(unload: Event)
    | GameState(gameState: EventGameState)
    | GameMove(gameMove: EventGameMove)
    | Unknown

  /** What the host guarantees about an event it hands over: a game-move
      event carries a valid move. */
  ghost predicate ValidEvent(e: EventAnyWire)
  {
    e.base.type_ == EVENT_TYPE_GAME_MOVE ==> ValidWire(e.gameMove.data.md)
  }

  /** `EventGameMove::new`: keeps the header, the player and the sync
      counter and decodes the move with `from_ref`. */
  function NewEventGameMove(base: Event, w: GameMoveWire): (r: EventGameMove)
    requires ValidWire(w.data.md)
    ensures r.base == base && r.player == w.player
    ensures r.data.syncCtr == w.data.syncCtr
    ensures r.data.md == FromRef(w.data.md)
  {
    EventGameMove(base, w.player, MoveDataSync(FromRef(w.data.md), w.data.syncCtr))
  }

  /** `EventEnum::new`: dispatch on the header's type tag. */
  function NewEventEnum(e: EventAnyWire): (r: EventEnum)
    requires ValidEvent(e)
    ensures r.Unknown? <==>
      e.base.type_ !in {EVENT_TYPE_GAME_LOAD_METHODS, EVENT_TYPE_GAME_UNLOAD, EVENT_TYPE_GAME_STATE, EVENT_TYPE_GAME_MOVE}
    ensures r.GameLoadMethods? <==> e.base.type_ == EVENT_TYPE_GAME_LOAD_METHODS
    ensures r.GameUnload? <==> e.base.type_ == EVENT_TYPE_GAME_UNLOAD
    ensures r.GameState? <==> e.base.type_ == EVENT_TYPE_GAME_STATE
    ensures r.GameMove? <==> e.base.type_ == EVENT_TYPE_GAME_MOVE
    ensures !r.Unknown? ==> HeaderOf(r) == Some(e.base)
  {
    match e.base.type_
    case EVENT_TYPE_GAME_LOAD_METHODS =>
      GameLoadMethods(EventGameLoadMethods(e.base, e.loadMethods.methods, e.loadMethods.initInfo))
    case EVENT_TYPE_GAME_UNLOAD => GameUnload(e.base)
    case EVENT_TYPE_GAME_STATE => GameState(EventGameState(e.base, e.state))
    case EVENT_TYPE_GAME_MOVE => GameMove(NewEventGameMove(e.base, e.gameMove))
    case _ => Unknown
  }

  /** The header a converted event still carries (none for `Unknown`). */
  function HeaderOf(r: EventEnum): Option<Event>
  {
    match r
    case GameLoadMethods(l) => Some(l.base)
    case GameUnload(b) => Some(b)
    case GameState(s) => Some(s.base)
    case GameMove(m) => Some(m.base)
    case Unknown => None
  }

  /** A game-move event decodes its move exactly as `from_ref` does, and a
      state event carries the state string the host sent. */
  lemma EventEnumPayloads(e: EventAnyWire)
    requires ValidEvent(e)
    ensures e.base.type_ == EVENT_TYPE_GAME_MOVE ==>
      NewEventEnum(e) == GameMove(EventGameMove(e.base, e.gameMove.player,
        MoveDataSync(FromRef(e.gameMove.data.md), e.gameMove.data.syncCtr)))
    ensures e.base.type_ == EVENT_TYPE_GAME_STATE ==> NewEventEnum(e).gameState.state == e.state
    ensures e.base.type_ == EVENT_TYPE_GAME_LOAD_METHODS ==>
      NewEventEnum(e).loadMethods.methods == e.loadMethods.methods &&
      NewEventEnum(e).loadMethods.initInfo == e.loadMethods.initInfo
  {
  }

  /** An owned host event (`EventAny`): the wrapper destroys the event when
      it is dropped.  `destroyed` counts the `event_destroy` calls made on
      it; the foreign function's effect on the payload is not modelled. */
  class EventAny {
    const event: EventAnyWire
    var destroyed: nat

    /** `EventAny::new`: takes ownership of a valid event. */
    constructor (event: EventAnyWire)
      requires ValidEvent(event)
      ensures this.event == event && destroyed == 0
    {
      this.event := event;
      destroyed := 0;
    }

    /** `get_type`: the header's type tag. */
    function GetType(): (t: nat)
      ensures t == event.base.type_
    {
      event.base.type_
    }

    /** `to_rust`: borrows the live event as an `EventEnum`. */
    function ToRust(): (r: EventEnum)
      requires ValidEvent(event)
      reads this
      requires destroyed == 0
      ensures HeaderOf(r).Some? ==> HeaderOf(r).value.type_ == GetType()
    {
      NewEventEnum(event)
    }

    /** `Drop`: destroys the event; an owned value is dropped only once,
        so the event is destroyed exactly once. */
    method Drop()
      requires destroyed == 0
      modifies this
      ensures destroyed == 1
    {
      destroyed := destroyed + 1;
    }
  }
}
