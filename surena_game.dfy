/** The rules-engine side of the plugin bridge (src/surena/game.rs).

    The host calls C function pointers on a game handle; the bridge turns
    each call into a call of the plugin's safe capability methods.  A
    handle has two slots: `data1` holds the plugin's game object and
    `data2` the bridge's auxiliary state, which keeps the last error
    message.  A null slot is `None`.

    The plugin's capability methods are code the bridge cannot see: each
    trampoline takes the call as a function parameter, from the game
    object (and the call's arguments) to the object after the call and
    what the call returned (`Step`), or, for a method that pushes into an
    output buffer, the elements it pushed (`Fill`). */
module Surena {
  import opened Common
  import opened Buffers

  /** `game_feature_flags`: the two optional capabilities. */
  datatype GameFeatures = GameFeatures(options: bool, printing: bool)

  datatype Semver = Semver(major: nat, minor: nat, patch: nat)

  /** `Metadata`: the non-function members of a method table. */
  datatype Metadata = Metadata(
    gameName: string,
    variantName: string,
    implName: string,
    version: Semver,
    features: GameFeatures)

  /** `buf_sizer`: the sizes of the output buffers the host provides.  A
      string size counts the terminating NUL. */
  datatype BufSizer = BufSizer(
    stateStr: nat,
    maxPlayersToMove: u8,
    maxMoves: u32,
    maxResults: u8,
    moveStr: nat,
    optionsStr: nat,
    printStr: nat)

  /** The function-pointer members of `game_methods`. */
  datatype GameEntry =
    | GetLastError | Create | ExportOptions | Destroy | Clone | CopyFrom
    | Compare | ImportState | ExportState | PlayersToMove | GetConcreteMoves
    | IsLegalMove | MakeMove | GetResults | GetMoveCode | GetMoveStr | Print

  /** A `game_methods` table: the metadata and the entries that are set;
      every other function pointer is null. */
  datatype GameMethodsTable = GameMethodsTable(
    gameName: string,
    variantName: string,
    implName: string,
    version: Semver,
    features: GameFeatures,
    entries: set<GameEntry>)

  /** `create_game_methods`: every trampoline is set except that
      `export_options` and `print` are set only when their feature is. */
  function CreateGameMethods(m: Metadata): (t: GameMethodsTable)
    ensures t.gameName == m.gameName && t.variantName == m.variantName && t.implName == m.implName
    ensures t.version == m.version && t.features == m.features
    ensures ExportOptions in t.entries <==> m.features.options
    ensures Print in t.entries <==> m.features.printing
    ensures forall e :: e != ExportOptions && e != Print ==> e in t.entries
  {
    var always := {GetLastError, Create, Destroy, Clone, CopyFrom, Compare, ImportState,
      ExportState, PlayersToMove, GetConcreteMoves, IsLegalMove, MakeMove, GetResults,
      GetMoveCode, GetMoveStr};
    var entries := always
      + (if m.features.options then {ExportOptions} else {})
      + (if m.features.printing then {Print} else {});
    assert forall e :: e != ExportOptions && e != Print ==> e in always by {
      forall e | e != ExportOptions && e != Print ensures e in always {
        OptionalEntries(e);
      }
    }
    GameMethodsTable(m.gameName, m.variantName, m.implName, m.version, m.features, entries)
  }

  /** The entries other than the two optional ones. */
  lemma OptionalEntries(e: GameEntry)
    ensures e != ExportOptions && e != Print ==>
      e in {GetLastError, Create, Destroy, Clone, CopyFrom, Compare, ImportState,
        ExportState, PlayersToMove, GetConcreteMoves, IsLegalMove, MakeMove, GetResults,
        GetMoveCode, GetMoveStr}
  {
    match e
    case GetLastError => case Create => case ExportOptions => case Destroy =>
    case Clone => case CopyFrom => case Compare => case ImportState =>
    case ExportState => case PlayersToMove => case GetConcreteMoves =>
    case IsLegalMove => case MakeMove => case GetResults => case GetMoveCode =>
    case GetMoveStr => case Print =>
  }

  const SIZER_FAILURE := "string buffer length must not be 0"
  const MAX_MOVES_FAILURE := "max_moves does not fit usize"

  /** What `check_sizer` demands: the state and move strings always have
      room, the options and print strings when their feature is on, and
      `max_moves` fits the platform's `usize`. */
  predicate SizerOk(s: BufSizer, f: GameFeatures, usizeMax: nat)
  {
    StringSizesOk(s, f) && s.maxMoves <= usizeMax
  }

  /** The string buffers a sizer promises have room for the NUL. */
  predicate StringSizesOk(s: BufSizer, f: GameFeatures)
  {
    s.stateStr > 0 && s.moveStr > 0
    && (f.options ==> s.optionsStr > 0)
    && (f.printing ==> s.printStr > 0)
  }

  /** `check_sizer`: `None` when the sizer is accepted, otherwise the
      message the first failing assertion panics with, in source order. */
  function CheckSizer(s: BufSizer, f: GameFeatures, usizeMax: nat): (r: Option<string>)
    ensures r.None? <==> SizerOk(s, f, usizeMax)
    ensures r == Some(MAX_MOVES_FAILURE) <==>
      !(f.options && s.optionsStr == 0) && s.stateStr > 0 && s.maxMoves > usizeMax
    ensures r.Some? && r.value != MAX_MOVES_FAILURE ==> r == Some(SIZER_FAILURE)
    ensures s.stateStr == 0 ==> r == Some(SIZER_FAILURE)
    ensures s.moveStr == 0 && s.maxMoves <= usizeMax ==> r == Some(SIZER_FAILURE)
  {
    if f.options && s.optionsStr == 0 then Some(SIZER_FAILURE)
    else if s.stateStr == 0 then Some(SIZER_FAILURE)
    else if s.maxMoves > usizeMax then Some(MAX_MOVES_FAILURE)
    else if s.moveStr == 0 then Some(SIZER_FAILURE)
    else if f.printing && s.printStr == 0 then Some(SIZER_FAILURE)
    else None
  }

  /** The model's name for the panic of an output buffer pushed past its
      capacity (the buffer type itself is not part of this model). */
  const BUFFER_FULL := "output buffer full"

  /** The auxiliary state in `data2`. */
  class Aux {
    var error: string

    /** `Aux::default`: no error yet. */
    constructor ()
      ensures error == ""
    {
      error := "";
    }

    /** `set_error`. */
    method SetError(message: string)
      modifies this
      ensures error == message
    {
      error := message;
    }
  }

  /** A game handle. */
  class Game<G> {
    var methods: GameMethodsTable
    var sizer: BufSizer
    var data1: Option<G>
    var data2: Option<Aux>

    /** A created handle: its object comes with aux and with a sizer that
        `check_sizer` accepted. */
    ghost predicate Valid()
      reads this
    {
      data1.Some? ==> data2.Some? && StringSizesOk(sizer, methods.features)
    }

    /** A handle the host may call the game's methods on. */
    ghost predicate Live()
      reads this
    {
      data1.Some? && Valid()
    }

    /** The host allocates a handle and sets its method table; the slots
        hold nothing the bridge relies on. */
    constructor (methods: GameMethodsTable)
      ensures this.methods == methods && data1.None? && data2.None?
    {
      this.methods := methods;
      sizer := BufSizer(0, 0, 0, 0, 0, 0, 0);
      data1 := None;
      data2 := None;
    }

    /** `get_last_error`: the message of aux, never the game object. */
    function GetLastError(): (e: string)
      requires data2.Some?
      reads this`data2, data2.value
      ensures e == data2.value.error
    {
      data2.value.error
    }

    /** `create`: nulls `data1`, puts a fresh aux in `data2`, then calls the
        plugin's `create`, whose outcome is `created`.  An error is stored
        in aux and its code returned, `data1` staying null; an accepted
        sizer is written and the object stored.  A sizer `check_sizer`
        refuses ends the process. */
    method Create(created: Result<(G, BufSizer), Error>, usizeMax: nat) returns (st: Status)
      modifies this
      ensures methods == old(methods)
      ensures data2.Some? && fresh(data2.value)
      ensures created.Err? ==>
        st == Failure(created.error.code) && data1.None? && sizer == old(sizer)
        && data2.value.error == created.error.message
      ensures created.Ok? && CheckSizer(created.value.1, methods.features, usizeMax).Some? ==>
        st == Abort(CheckSizer(created.value.1, methods.features, usizeMax).value)
      ensures created.Ok? && CheckSizer(created.value.1, methods.features, usizeMax).None? ==>
        st == Success && data1 == Some(created.value.0) && sizer == created.value.1
        && data2.value.error == ""
      ensures Valid()
    {
      data1 := None;
      var aux := new Aux();
      data2 := None;
      data2 := Some(aux);
      if created.Err? {
        aux.SetError(created.error.message);
        return Failure(created.error.code);
      }
      var (data, s) := created.value;
      var check := CheckSizer(s, methods.features, usizeMax);
      if check.Some? {
        return Abort(check.value);
      }
      sizer := s;
      data1 := Some(data);
      st := Success;
    }

    /** `destroy`: frees and nulls `data1` when it is set, then does the
        same for `data2`; destroying a destroyed handle changes nothing. */
    method Destroy() returns (st: Status)
      modifies this
      ensures data1.None? && data2.None? && st == Success
      ensures methods == old(methods) && sizer == old(sizer)
      ensures Valid()
    {
      if data1.Some? {
        data1 := None;
      }
      if data2.Some? {
        data2 := None;
      }
      st := Success;
    }

    /** `clone`: copies the handle into `target`, then gives the target a
        null `data1`, a fresh aux with no error, and finally a clone of the
        game object.  The source handle is not changed. */
    method CloneInto(target: Game<G>) returns (st: Status)
      requires Live() && target != this
      modifies target
      ensures target.methods == methods && target.sizer == sizer
      ensures target.data1 == data1
      ensures target.data2.Some? && fresh(target.data2.value) && target.data2.value.error == ""
      ensures target.Live() && st == Success
    {
      target.methods, target.sizer, target.data1, target.data2 := methods, sizer, data1, data2;
      target.data1 := None;
      var aux := new Aux();
      target.data2 := None;
      target.data2 := Some(aux);
      target.data1 := Some(data1.value);
      st := Success;
    }

    /** `surena_try!` after a plugin call that returned a value: the object
        after the call is kept either way; on an error its message is
        stored in aux and its code returned. */
    method Finish<R>(s: Step<G, R>) returns (st: Status, value: Option<R>)
      requires Live()
      modifies this, data2.value
      ensures data1 == Some(s.next) && data2 == old(data2) && Live()
      ensures methods == old(methods) && sizer == old(sizer)
      ensures s.result.Ok? ==> (st == Success && value == Some(s.result.value)
        && data2.value.error == old(data2.value.error))
      ensures s.result.Err? ==> (st == Failure(s.result.error.code) && value.None?
        && data2.value.error == s.result.error.message)
    {
      data1 := Some(s.next);
      if s.result.Err? {
        data2.value.SetError(s.result.error.message);
        return Failure(s.result.error.code), None;
      }
      return Success, Some(s.result.value);
    }

    /** `copy_from`: the plugin copies `other`'s object into this one;
        both objects are borrowed mutably.  Only the two objects and this
        handle's aux change. */
    method CopyFromGame(other: Game<G>, copy: (G, G) -> Step<(G, G), ()>) returns (st: Status)
      requires Live() && other.data1.Some? && other != this
      modifies this, other, data2.value
      ensures Live() && data2 == old(data2) && methods == old(methods) && sizer == old(sizer)
      ensures other.methods == old(other.methods) && other.sizer == old(other.sizer) && other.data2 == old(other.data2)
      ensures other.data1 == Some(copy(old(data1.value), old(other.data1.value)).next.1)
      ensures data1 == Some(copy(old(data1.value), old(other.data1.value)).next.0)
      ensures var r := copy(old(data1.value), old(other.data1.value)).result;
        (st.Success? <==> r.Ok?)
        && (r.Ok? ==> st == Success && data2.value.error == old(data2.value.error))
        && (r.Err? ==> st == Failure(r.error.code) && data2.value.error == r.error.message)
    {
      var s := copy(data1.value, other.data1.value);
      other.data1 := Some(s.next.1);
      var unused;
      st, unused := Finish(Step(s.next.0, s.result));
    }

    /** `compare`: the plugin's own equality (`PartialEq::eq`) on the two
        objects; neither handle changes. */
    method CompareGame(other: Game<G>, eq: (G, G) -> bool) returns (st: Status, equal: bool)
      requires Live() && other.data1.Some?
      ensures st == Success
      ensures equal == eq(data1.value, other.data1.value)
    {
      equal := eq(data1.value, other.data1.value);
      st := Success;
    }

    /** `import_state`: a null string reaches the plugin as `None`. */
    method ImportStateGame(importer: (G, Option<string>) -> Step<G, ()>, text: Option<string>) returns (st: Status)
      requires Live()
      modifies this, data2.value
      ensures Live() && data2 == old(data2) && methods == old(methods) && sizer == old(sizer)
      ensures data1 == Some(importer(old(data1.value), text).next)
      ensures var r := importer(old(data1.value), text).result;
        (st.Success? <==> r.Ok?)
        && (r.Ok? ==> st == Success && data2.value.error == old(data2.value.error))
        && (r.Err? ==> st == Failure(r.error.code) && data2.value.error == r.error.message)
    {
      var unused;
      st, unused := Finish(importer(data1.value, text));
    }

    /** The string exports: the plugin writes into a view of the host's
        buffer that holds `limit - 1` bytes, leaving room for the NUL.
        `ret_size` follows the view's length.  A write past the view ends
        the process; a failure stores the message and writes no NUL; a
        success writes the NUL at `ret_size`.  Nothing past the written
        bytes is touched, and the handle stays live. */
    method WriteString(limit: nat, f: Fill<G, NonZeroByte>, buf: array<byte>) returns (st: Status, retSize: nat)
      requires Live() && 1 <= limit <= buf.Length
      modifies this, buf, data2.value
      ensures Live() && data2 == old(data2) && methods == old(methods) && sizer == old(sizer)
      ensures st.Abort? <==> |f.pushed| > limit - 1
      ensures retSize < limit
      ensures !st.Abort? ==> (data1 == Some(f.next) && retSize == |f.pushed| && buf[..retSize] == f.pushed)
      ensures st.Success? <==> !st.Abort? && f.result.Ok?
      ensures st.Success? ==> (retSize < buf.Length && buf[retSize] == 0
        && buf[retSize + 1..] == old(buf[..])[retSize + 1..]
        && data2.value.error == old(data2.value.error))
      ensures st.Failure? ==> (st.code == f.result.error.code
        && data2.value.error == f.result.error.message
        && buf[retSize..] == old(buf[..])[retSize..])
    {
      var view := new PtrVec<byte>(buf, limit - 1);
      var fits := view.PushAll(f.pushed);
      retSize := view.len;
      if !fits {
        return Abort(BUFFER_FULL), retSize;
      }
      var unused;
      st, unused := Finish(Step(f.next, f.result));
      if st.Success? {
        buf[retSize] := 0;
      }
    }

    /** `export_options`, present only with the options feature. */
    method ExportOptionsGame(exporter: G -> Fill<G, NonZeroByte>, buf: array<byte>) returns (st: Status, retSize: nat)
      requires Live() && methods.features.options && sizer.optionsStr <= buf.Length
      modifies this, buf, data2.value
      ensures Live() && data2 == old(data2) && methods == old(methods) && sizer == old(sizer)
      ensures retSize < buf.Length
      ensures var f := exporter(old(data1.value));
        (st.Abort? <==> |f.pushed| >= old(sizer.optionsStr))
        && (!st.Abort? ==> data1 == Some(f.next) && retSize == |f.pushed| && buf[..retSize] == f.pushed)
        && (st.Success? <==> !st.Abort? && f.result.Ok?)
        && (st.Success? ==> (buf[retSize] == 0 && buf[retSize + 1..] == old(buf[..])[retSize + 1..]
            && data2.value.error == old(data2.value.error)))
        && (st.Failure? ==> (st.code == f.result.error.code && data2.value.error == f.result.error.message
            && buf[retSize..] == old(buf[..])[retSize..]))
    {
      st, retSize := WriteString(sizer.optionsStr, exporter(data1.value), buf);
    }

    /** `export_state`. */
    method ExportStateGame(exporter: G -> Fill<G, NonZeroByte>, buf: array<byte>) returns (st: Status, retSize: nat)
      requires Live() && sizer.stateStr <= buf.Length
      modifies this, buf, data2.value
      ensures Live() && data2 == old(data2) && methods == old(methods) && sizer == old(sizer)
      ensures retSize < buf.Length
      ensures var f := exporter(old(data1.value));
        (st.Abort? <==> |f.pushed| >= old(sizer.stateStr))
        && (!st.Abort? ==> data1 == Some(f.next) && retSize == |f.pushed| && buf[..retSize] == f.pushed)
        && (st.Success? <==> !st.Abort? && f.result.Ok?)
        && (st.Success? ==> (buf[retSize] == 0 && buf[retSize + 1..] == old(buf[..])[retSize + 1..]
            && data2.value.error == old(data2.value.error)))
        && (st.Failure? ==> (st.code == f.result.error.code && data2.value.error == f.result.error.message
            && buf[retSize..] == old(buf[..])[retSize..]))
    {
      st, retSize := WriteString(sizer.stateStr, exporter(data1.value), buf);
    }

    /** `get_move_str`. */
    method GetMoveStrGame(show: (G, PlayerId, MoveCode) -> Fill<G, NonZeroByte>, player: PlayerId, mov: MoveCode,
                          buf: array<byte>) returns (st: Status, retSize: nat)
      requires Live() && sizer.moveStr <= buf.Length
      modifies this, buf, data2.value
      ensures Live() && data2 == old(data2) && methods == old(methods) && sizer == old(sizer)
      ensures retSize < buf.Length
      ensures var f := show(old(data1.value), player, mov);
        (st.Abort? <==> |f.pushed| >= old(sizer.moveStr))
        && (!st.Abort? ==> data1 == Some(f.next) && retSize == |f.pushed| && buf[..retSize] == f.pushed)
        && (st.Success? <==> !st.Abort? && f.result.Ok?)
        && (st.Success? ==> (buf[retSize] == 0 && buf[retSize + 1..] == old(buf[..])[retSize + 1..]
            && data2.value.error == old(data2.value.error)))
        && (st.Failure? ==> (st.code == f.result.error.code && data2.value.error == f.result.error.message
            && buf[retSize..] == old(buf[..])[retSize..]))
    {
      st, retSize := WriteString(sizer.moveStr, show(data1.value, player, mov), buf);
    }

    /** `print`, present only with the print feature. */
    method PrintGame(printer: G -> Fill<G, NonZeroByte>, buf: array<byte>) returns (st: Status, retSize: nat)
      requires Live() && methods.features.printing && sizer.printStr <= buf.Length
      modifies this, buf, data2.value
      ensures Live() && data2 == old(data2) && methods == old(methods) && sizer == old(sizer)
      ensures retSize < buf.Length
      ensures var f := printer(old(data1.value));
        (st.Abort? <==> |f.pushed| >= old(sizer.printStr))
        && (!st.Abort? ==> data1 == Some(f.next) && retSize == |f.pushed| && buf[..retSize] == f.pushed)
        && (st.Success? <==> !st.Abort? && f.result.Ok?)
        && (st.Success? ==> (buf[retSize] == 0 && buf[retSize + 1..] == old(buf[..])[retSize + 1..]
            && data2.value.error == old(data2.value.error)))
        && (st.Failure? ==> (st.code == f.result.error.code && data2.value.error == f.result.error.message
            && buf[retSize..] == old(buf[..])[retSize..]))
    {
      st, retSize := WriteString(sizer.printStr, printer(data1.value), buf);
    }

    /** The list exports: the plugin pushes into a view of the host's array
        holding `limit` elements; the count is written back only on
        success. */
    method WriteList<T>(limit: nat, f: Fill<G, T>, buf: array<T>) returns (st: Status, count: nat)
      requires Live() && limit <= buf.Length
      modifies this, buf, data2.value
      ensures Live() && data2 == old(data2) && methods == old(methods) && sizer == old(sizer)
      ensures st.Abort? <==> |f.pushed| > limit
      ensures count <= limit
      ensures !st.Abort? ==> (data1 == Some(f.next) && count == |f.pushed| <= limit
        && buf[..count] == f.pushed && buf[count..] == old(buf[..])[count..])
      ensures st.Success? <==> !st.Abort? && f.result.Ok?
      ensures st.Success? ==> data2.value.error == old(data2.value.error)
      ensures st.Failure? ==> st.code == f.result.error.code && data2.value.error == f.result.error.message
    {
      var view := new PtrVec<T>(buf, limit);
      var fits := view.PushAll(f.pushed);
      count := view.len;
      if !fits {
        return Abort(BUFFER_FULL), count;
      }
      var unused;
      st, unused := Finish(Step(f.next, f.result));
    }

    /** `players_to_move`: `ret_count` is the length as a byte, which the
        one-byte capacity makes exact. */
    method PlayersToMoveGame(list: G -> Fill<G, PlayerId>, players: array<PlayerId>) returns (st: Status, retCount: Option<u8>)
      requires Live() && sizer.maxPlayersToMove <= players.Length
      modifies this, players, data2.value
      ensures Live() && data2 == old(data2) && methods == old(methods) && sizer == old(sizer)
      ensures var f := list(old(data1.value));
        (st.Abort? <==> |f.pushed| > old(sizer.maxPlayersToMove))
        && (!st.Abort? ==> (data1 == Some(f.next) && players[..|f.pushed|] == f.pushed
            && players[|f.pushed|..] == old(players[..])[|f.pushed|..]))
        && (st.Success? <==> !st.Abort? && f.result.Ok?)
        && (st.Success? ==> retCount == Some(|f.pushed|) && data2.value.error == old(data2.value.error))
        && (st.Failure? ==> st.code == f.result.error.code && retCount.None? && data2.value.error == f.result.error.message)
    {
      var count;
      st, count := WriteList(sizer.maxPlayersToMove, list(data1.value), players);
      retCount := if st.Success? then Some(count % U8_MODULUS) else None;
    }

    /** `get_results`. */
    method GetResultsGame(list: G -> Fill<G, PlayerId>, players: array<PlayerId>) returns (st: Status, retCount: Option<u8>)
      requires Live() && sizer.maxResults <= players.Length
      modifies this, players, data2.value
      ensures Live() && data2 == old(data2) && methods == old(methods) && sizer == old(sizer)
      ensures var f := list(old(data1.value));
        (st.Abort? <==> |f.pushed| > old(sizer.maxResults))
        && (!st.Abort? ==> (data1 == Some(f.next) && players[..|f.pushed|] == f.pushed
            && players[|f.pushed|..] == old(players[..])[|f.pushed|..]))
        && (st.Success? <==> !st.Abort? && f.result.Ok?)
        && (st.Success? ==> retCount == Some(|f.pushed|) && data2.value.error == old(data2.value.error))
        && (st.Failure? ==> st.code == f.result.error.code && retCount.None? && data2.value.error == f.result.error.message)
    {
      var count;
      st, count := WriteList(sizer.maxResults, list(data1.value), players);
      retCount := if st.Success? then Some(count % U8_MODULUS) else None;
    }

    /** `get_concrete_moves`: `ret_count` is the length as a 32-bit value,
        exact since `max_moves` is itself 32 bits. */
    method GetConcreteMovesGame(list: (G, PlayerId) -> Fill<G, MoveCode>, player: PlayerId, moves: array<MoveCode>)
      returns (st: Status, retCount: Option<u32>)
      requires Live() && sizer.maxMoves <= moves.Length
      modifies this, moves, data2.value
      ensures Live() && data2 == old(data2) && methods == old(methods) && sizer == old(sizer)
      ensures var f := list(old(data1.value), player);
        (st.Abort? <==> |f.pushed| > old(sizer.maxMoves))
        && (!st.Abort? ==> (data1 == Some(f.next) && moves[..|f.pushed|] == f.pushed
            && moves[|f.pushed|..] == old(moves[..])[|f.pushed|..]))
        && (st.Success? <==> !st.Abort? && f.result.Ok?)
        && (st.Success? ==> retCount == Some(|f.pushed|) && data2.value.error == old(data2.value.error))
        && (st.Failure? ==> st.code == f.result.error.code && retCount.None? && data2.value.error == f.result.error.message)
    {
      var count;
      st, count := WriteList(sizer.maxMoves, list(data1.value, player), moves);
      retCount := if st.Success? then Some(count % U32_MODULUS) else None;
    }

    /** `is_legal_move`. */
    method IsLegalMoveGame(check: (G, PlayerId, MoveCode) -> Step<G, ()>, player: PlayerId, mov: MoveCode) returns (st: Status)
      requires Live()
      modifies this, data2.value
      ensures Live() && data2 == old(data2) && methods == old(methods) && sizer == old(sizer)
      ensures data1 == Some(check(old(data1.value), player, mov).next)
      ensures var r := check(old(data1.value), player, mov).result;
        (st.Success? <==> r.Ok?)
        && (r.Ok? ==> st == Success && data2.value.error == old(data2.value.error))
        && (r.Err? ==> st == Failure(r.error.code) && data2.value.error == r.error.message)
    {
      var unused;
      st, unused := Finish(check(data1.value, player, mov));
    }

    /** `make_move`. */
    method MakeMoveGame(move: (G, PlayerId, MoveCode) -> Step<G, ()>, player: PlayerId, mov: MoveCode) returns (st: Status)
      requires Live()
      modifies this, data2.value
      ensures Live() && data2 == old(data2) && methods == old(methods) && sizer == old(sizer)
      ensures data1 == Some(move(old(data1.value), player, mov).next)
      ensures var r := move(old(data1.value), player, mov).result;
        (st.Success? <==> r.Ok?)
        && (r.Ok? ==> st == Success && data2.value.error == old(data2.value.error))
        && (r.Err? ==> st == Failure(r.error.code) && data2.value.error == r.error.message)
    {
      var unused;
      st, unused := Finish(move(data1.value, player, mov));
    }

    /** `get_move_code`: the move is written out only on success. */
    method GetMoveCodeGame(parse: (G, PlayerId, string) -> Step<G, MoveCode>, player: PlayerId, text: string)
      returns (st: Status, retMove: Option<MoveCode>)
      requires Live()
      modifies this, data2.value
      ensures Live() && data2 == old(data2) && methods == old(methods) && sizer == old(sizer)
      ensures data1 == Some(parse(old(data1.value), player, text).next)
      ensures var r := parse(old(data1.value), player, text).result;
        (r.Ok? ==> st == Success && retMove == Some(r.value) && data2.value.error == old(data2.value.error))
        && (r.Err? ==> st == Failure(r.error.code) && retMove.None? && data2.value.error == r.error.message)
    {
      st, retMove := Finish(parse(data1.value, player, text));
    }
  }
}
