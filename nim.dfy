/** The example rules engine (example/src/game.rs): misère Nim.  A counter
    starts at an initial value; the two players, A and B, take turns
    subtracting between 1 and `max_sub` from it, and the player who reaches
    0 loses, so the player to move at 0 is the winner.

    The game's data is a plain `Copy` struct; `NimState` is its value and
    the functions over it state what every capability method computes.
    The methods that change the game through `&mut self` are those of the
    class `Nim` below, each tied to the function that specifies it. */
module Nim {
  import opened Common
  import opened Text

  type Counter = u16

  const DEFAULT_COUNTER: Counter := 21
  const DEFAULT_MAX_SUB: Counter := 3

  /** The game's data: `turn` false means A is to move. */
  datatype NimState = NimState(counter: Counter, maxSub: Counter, initialCounter: Counter, turn: bool)

  /** `GameInit`: how the host asks for a new game. */
  datatype GameInit =
    | DefaultInit
    | Standard(opts: Option<string>, legacy: Option<string>, state: Option<string>)
    | Serialized(bytes: seq<byte>)

  /** `Nim::new`: a fresh game at its initial counter, A to move. */
  function New(counter: Counter, maxSub: Counter): (s: NimState)
    ensures s.counter == s.initialCounter == counter && s.maxSub == maxSub && !s.turn
  {
    NimState(counter, maxSub, counter, false)
  }

  /** `Nim::default`: counter 21, subtract at most 3. */
  function DefaultState(): (s: NimState)
    ensures s.counter == s.initialCounter == 21 && s.maxSub == 3 && !s.turn
  {
    New(DEFAULT_COUNTER, DEFAULT_MAX_SUB)
  }

  /** `player_id`: A is player 1, B player 2. */
  function PlayerIdOf(s: NimState): (p: PlayerId)
    ensures p == 1 || p == 2
    ensures p == 1 <==> !s.turn
  {
    if s.turn then 2 else 1
  }

  /** `player_char`: the letter of the player to move. */
  function PlayerChar(s: NimState): (c: char)
    ensures c == 'A' || c == 'B'
    ensures c == 'A' <==> !s.turn
  {
    if s.turn then 'B' else 'A'
  }

  /** `player_count`: two players, and every player id the game hands out
      is one of them. */
  function PlayerCount(): (n: u8)
    ensures n == 2
    ensures forall s: NimState :: 1 <= PlayerIdOf(s) <= n
  {
    2
  }

  /** The player token of a state string: `a`/`A` is A, `b`/`B` is B. */
  function ParsePlayer(tok: string): (turn: Option<bool>)
    ensures turn == Some(false) <==> tok == "a" || tok == "A"
    ensures turn == Some(true) <==> tok == "b" || tok == "B"
  {
    if tok == "a" || tok == "A" then Some(false)
    else if tok == "b" || tok == "B" then Some(true)
    else None
  }

  /** `from_options`: the first two words are the starting counter and the
      maximum subtrahend, both 16-bit decimal numbers, read in that order;
      further words are ignored. */
  function FromOptions(opts: string): (r: Result<NimState, Error>)
    ensures r.Ok? <==>
      var t := Tokens(opts);
      |t| >= 2 && ParseU16(t[0]).Ok? && ParseU16(t[1]).Ok? && ParseU16(t[1]).value > 0
    ensures r.Ok? ==>
      var t := Tokens(opts);
      r.value == New(ParseU16(t[0]).value, ParseU16(t[1]).value) && r.value.maxSub > 0
    ensures r.Err? ==> (r.error.code == InvalidOptions <==>
      var t := Tokens(opts);
      |t| >= 2 && ParseU16(t[0]).Ok? && ParseU16(t[1]) == Ok(0))
    ensures r.Err? ==> r.error.code == InvalidInput || r.error.code == InvalidOptions
  {
    var t := Tokens(opts);
    if |t| == 0 then
      Err(Error(InvalidInput, "missing starting counter\0"))
    else
      match ParseU16(t[0])
      case Err(e) => Err(Error(InvalidInput, "counter parsing error: " + IntErrorMessage(e)))
      case Ok(counter) =>
        if |t| < 2 then
          Err(Error(InvalidInput, "missing maximum subtrahend\0"))
        else
          match ParseU16(t[1])
          case Err(e) => Err(Error(InvalidInput, "subtrahend parsing error: " + IntErrorMessage(e)))
          case Ok(maxSub) =>
            if maxSub == 0 then Err(Error(InvalidOptions, "maximum subtrahend is zero\0"))
            else Ok(New(counter, maxSub))
  }

  /** `reset`: back to the initial counter with A to move. */
  function Resetted(s: NimState): (r: NimState)
    ensures r.counter == s.initialCounter && !r.turn
    ensures r.maxSub == s.maxSub && r.initialCounter == s.initialCounter
  {
    s.(counter := s.initialCounter, turn := false)
  }

  /** `import_state`: no text, or only whitespace, resets the game;
      otherwise the first word names the player to move and the second is
      the counter.  The player is stored before the counter is parsed, so a
      bad counter leaves the new player in place.  The options are never
      touched. */
  function Imported(s: NimState, text: Option<string>): (r: Step<NimState, ()>)
    ensures r.next.maxSub == s.maxSub && r.next.initialCounter == s.initialCounter
    ensures r.result.Err? ==> r.result.error.code == InvalidInput && r.next.counter == s.counter
    ensures (text.None? || AllWhitespace(text.value)) ==> r == Step(Resetted(s), Ok(()))
    ensures text.Some? && |Tokens(text.value)| >= 2 ==>
      var t := Tokens(text.value);
      (ParsePlayer(t[0]).None? ==> r.next == s && r.result.Err?) &&
      (ParsePlayer(t[0]).Some? ==> r.next.turn == ParsePlayer(t[0]).value) &&
      (r.result.Ok? <==> ParsePlayer(t[0]).Some? && ParseU16(t[1]).Ok?) &&
      (r.result.Ok? ==> r.next.counter == ParseU16(t[1]).value)
    ensures text.Some? && |Tokens(text.value)| == 1 ==> r.next == s && r.result.Err?
  {
    match text
    case None => Step(Resetted(s), Ok(()))
    case Some(str) =>
      var t := Tokens(str);
      if |t| == 0 then
        Step(Resetted(s), Ok(()))
      else if |t| < 2 then
        Step(s, Err(Error(InvalidInput, "missing counter value\0")))
      else
        match ParsePlayer(t[0])
        case None => Step(s, Err(Error(InvalidInput, "invalid player code\0")))
        case Some(turn) =>
          var s1 := s.(turn := turn);
          match ParseU16(t[1])
          case Err(e) => Step(s1, Err(Error(InvalidInput, "counter parsing error: " + IntErrorMessage(e))))
          case Ok(c) => Step(s1.(counter := c), Ok(()))
  }

  /** `export_state`: the player's letter, a space and the counter, so
      exactly two words. */
  function StateText(s: NimState): (t: string)
    ensures Tokens(t) == [[PlayerChar(s)], ShowNat(s.counter)]
  {
    var c := [PlayerChar(s)];
    assert IsWord(c);
    TokensOfPair(c, ShowNat(s.counter));
    c + " " + ShowNat(s.counter)
  }

  /** `export_options`: the initial counter and the maximum subtrahend, as
      two words in that order. */
  function OptionsText(s: NimState): (t: string)
    ensures Tokens(t) == [ShowNat(s.initialCounter), ShowNat(s.maxSub)]
  {
    TokensOfPair(ShowNat(s.initialCounter), ShowNat(s.maxSub));
    ShowNat(s.initialCounter) + " " + ShowNat(s.maxSub)
  }

  /** `print`: the exported state and a line break. */
  function PrintText(s: NimState): (t: string)
    ensures |t| > 0 && t[|t| - 1] == '\n' && t[..|t| - 1] == StateText(s)
  {
    StateText(s) + "\n"
  }

  /** `players_to_move`: the player whose turn it is, while the counter is
      above 0. */
  function PlayersToMove(s: NimState): (ps: seq<PlayerId>)
    ensures |ps| <= 1 && forall i :: 0 <= i < |ps| ==> ps[i] == PlayerIdOf(s)
    ensures PlayerIdOf(s) in ps <==> s.counter > 0
  {
    if s.counter > 0 then [PlayerIdOf(s)] else []
  }

  /** `get_results`: once the counter is 0 the player to move has won. */
  function Results(s: NimState): (ps: seq<PlayerId>)
    ensures |ps| <= 1 && forall i :: 0 <= i < |ps| ==> ps[i] == PlayerIdOf(s)
    ensures PlayerIdOf(s) in ps <==> s.counter == 0
  {
    if s.counter == 0 then [PlayerIdOf(s)] else []
  }

  /** At every state exactly one of the two lists is non-empty: the game is
      either running or decided, never both. */
  lemma RunningOrDecided(s: NimState)
    ensures (|PlayersToMove(s)| == 1) != (|Results(s)| == 1)
    ensures |PlayersToMove(s)| + |Results(s)| == 1
  {
  }

  /** `sub_too_large`. */
  function SubTooLarge(mov: nat, max: nat): (r: Result<(), Error>)
    ensures r.Ok? <==> mov <= max
    ensures r.Err? ==> r.error.code == InvalidInput
  {
    if mov > max then Err(Error(InvalidInput, "can subtract at most " + ShowNat(max)))
    else Ok(())
  }

  /** `is_legal_move` as written: the checks run in source order, and the
      last one compares the move truncated to 16 bits (`mov as Counter`)
      with the counter, not with `max_sub`. */
  function IsLegalMoveAsWritten(s: NimState, player: PlayerId, mov: MoveCode): (r: Result<(), Error>)
    ensures r.Ok? <==> s.counter > 0 && mov != 0 && player == PlayerIdOf(s) && mov % U16_MODULUS <= s.counter
    ensures s.counter == 0 ==> r == Err(Error(InvalidInput, "game already over\0"))
    ensures s.counter > 0 && mov == 0 ==> r == Err(Error(InvalidInput, "need to subtract at least one\0"))
    ensures s.counter > 0 && mov != 0 && player != PlayerIdOf(s) ==>
      r == Err(Error(InvalidInput, "this player is not to move\0"))
  {
    if s.counter == 0 then Err(Error(InvalidInput, "game already over\0"))
    else if mov == 0 then Err(Error(InvalidInput, "need to subtract at least one\0"))
    else if player != PlayerIdOf(s) then Err(Error(InvalidInput, "this player is not to move\0"))
    else SubTooLarge(mov % U16_MODULUS, s.counter)
  }

  /** `is_legal_move` as evidently intended: the same checks in the same
      order, with the full 64-bit move bounded by both the counter and
      `max_sub`, as `get_concrete_moves` and `get_move_data` bound it. */
  function IsLegalMove(s: NimState, player: PlayerId, mov: MoveCode): (r: Result<(), Error>)
    ensures r.Ok? <==> s.counter > 0 && player == PlayerIdOf(s) && 1 <= mov <= s.maxSub && mov <= s.counter
    ensures s.counter == 0 ==> r == Err(Error(InvalidInput, "game already over\0"))
    ensures s.counter > 0 && mov == 0 ==> r == Err(Error(InvalidInput, "need to subtract at least one\0"))
    ensures s.counter > 0 && mov != 0 && player != PlayerIdOf(s) ==>
      r == Err(Error(InvalidInput, "this player is not to move\0"))
  {
    if s.counter == 0 then Err(Error(InvalidInput, "game already over\0"))
    else if mov == 0 then Err(Error(InvalidInput, "need to subtract at least one\0"))
    else if player != PlayerIdOf(s) then Err(Error(InvalidInput, "this player is not to move\0"))
    else SubTooLarge(mov, Min(s.maxSub, s.counter))
  }

  /** The intended check is stricter than the written one: every move it
      accepts the written one accepts too. */
  lemma LegalIsLegalAsWritten(s: NimState, player: PlayerId, mov: MoveCode)
    requires IsLegalMove(s, player, mov).Ok?
    ensures IsLegalMoveAsWritten(s, player, mov).Ok?
  {
  }

  /** `make_move`: subtracts the move, truncated to 16 bits, and passes the
      turn.  The host calls it only for a move `is_legal_move` accepted,
      which excludes underflow. */
  function Moved(s: NimState, mov: MoveCode): (r: NimState)
    requires mov % U16_MODULUS <= s.counter
    ensures r.counter == s.counter - mov % U16_MODULUS && r.turn == !s.turn
    ensures r.maxSub == s.maxSub && r.initialCounter == s.initialCounter
  {
    s.(counter := s.counter - mov % U16_MODULUS, turn := !s.turn)
  }

  /** A legal move takes exactly `mov` off the counter, so the game ends,
      and hands the turn to the other player. */
  lemma LegalMoveProgress(s: NimState, player: PlayerId, mov: MoveCode)
    requires IsLegalMove(s, player, mov).Ok?
    ensures IsLegalMoveAsWritten(s, player, mov).Ok?
    ensures Moved(s, mov).counter == s.counter - mov < s.counter
    ensures PlayerIdOf(Moved(s, mov)) != PlayerIdOf(s)
  {
  }

  /** `get_move_data`: the text is a 16-bit decimal number, at most
      `max_sub`.  The whole text is parsed, so surrounding spaces are an
      error, and 0 is not rejected here. */
  function GetMoveData(s: NimState, text: string): (r: Result<MoveCode, Error>)
    ensures r.Ok? <==> ParseU16(text).Ok? && ParseU16(text).value <= s.maxSub
    ensures r.Ok? ==> r.value == ParseU16(text).value
    ensures r.Err? ==> r.error.code == InvalidInput
  {
    match ParseU16(text)
    case Err(e) => Err(Error(InvalidInput, "move parsing error: " + IntErrorMessage(e)))
    case Ok(mov) =>
      match SubTooLarge(mov, s.maxSub)
      case Err(e) => Err(e)
      case Ok(_) => Ok(mov)
  }

  /** `get_move_str`: the move code in decimal. */
  function MoveText(mov: MoveCode): (t: string)
    ensures |t| > 0 && AllDigits(t)
  {
    ShowNat(mov)
  }

  /** A move within `max_sub` printed by `get_move_str` is read back by
      `get_move_data`; in particular every concrete move is. */
  lemma MoveTextRoundTrip(s: NimState, mov: MoveCode)
    requires mov <= s.maxSub
    ensures GetMoveData(s, MoveText(mov)) == Ok(mov)
  {
    ParseShowNat(mov);
  }

  /** `export_state` then `import_state` restores the player to move and
      the counter, and keeps the options of the game it is imported into. */
  lemma StateRoundTrip(s: NimState, t: NimState)
    ensures Imported(s, Some(StateText(t))) == Step(s.(counter := t.counter, turn := t.turn), Ok(()))
  {
    ParseShowNat(t.counter);
  }

  /** `export_options` then `from_options` rebuilds the same counter limit
      and maximum subtrahend, with the initial counter as the counter. */
  lemma OptionsRoundTrip(s: NimState)
    requires s.maxSub > 0
    ensures FromOptions(OptionsText(s)) == Ok(New(s.initialCounter, s.maxSub))
  {
    ParseShowNat(s.initialCounter);
    ParseShowNat(s.maxSub);
  }

  /** The two static messages of `create` as written: unlike every other
      static message of the game they carry no trailing NUL. */
  const LEGACY_UNSUPPORTED_AS_WRITTEN := "legacy not supported"
  const SERIALIZED_UNSUPPORTED_AS_WRITTEN := "initialization via serialized state unsupported"

  /** The same messages terminated as the game's rule for static errors
      asks. */
  const LEGACY_UNSUPPORTED := LEGACY_UNSUPPORTED_AS_WRITTEN + "\0"
  const SERIALIZED_UNSUPPORTED := SERIALIZED_UNSUPPORTED_AS_WRITTEN + "\0"

  /** As written, the host reading either message as a C string finds no
      terminator inside it. */
  lemma CreateMessagesUnterminatedAsWritten()
    ensures ReadCString(LEGACY_UNSUPPORTED_AS_WRITTEN).None?
    ensures ReadCString(SERIALIZED_UNSUPPORTED_AS_WRITTEN).None?
  {
    assert '\0' !in LEGACY_UNSUPPORTED_AS_WRITTEN;
    ReadUnterminated(LEGACY_UNSUPPORTED_AS_WRITTEN);
    NoNulInSerializedMessage();
    ReadUnterminated(SERIALIZED_UNSUPPORTED_AS_WRITTEN);
  }

  /** The longer message, checked in two halves. */
  lemma NoNulInSerializedMessage()
    ensures '\0' !in SERIALIZED_UNSUPPORTED_AS_WRITTEN
  {
    var a, b := "initialization via ", "serialized state unsupported";
    assert '\0' !in a && '\0' !in b;
    assert a + b == SERIALIZED_UNSUPPORTED_AS_WRITTEN;
  }

  /** `create`: the default game; or options (the default ones when none
      are given) and then a state, refusing legacy data; serialized states
      are not supported. */
  function Created(init: GameInit): (r: Result<NimState, Error>)
    ensures init.DefaultInit? ==> r == Ok(DefaultState())
    ensures init.Serialized? ==> r.Err? && r.error.code == FeatureUnsupported
    ensures init.Standard? && init.legacy.Some? ==> r.Err? && r.error.code == InvalidLegacy
    ensures init.Standard? && init.legacy.None? && init.opts.None? ==>
      r == (var st := Imported(DefaultState(), init.state);
            if st.result.Ok? then Ok(st.next) else Err(st.result.error))
    ensures init.Standard? && init.legacy.None? && init.opts.Some? ==>
      r == (var g := FromOptions(init.opts.value);
            if g.Err? then Err(g.error)
            else var st := Imported(g.value, init.state);
              if st.result.Ok? then Ok(st.next) else Err(st.result.error))
    ensures r.Ok? ==> r.value.maxSub > 0
  {
    match init
    case DefaultInit => Ok(DefaultState())
    case Standard(opts, legacy, state) =>
      if legacy.Some? then
        Err(Error(InvalidLegacy, LEGACY_UNSUPPORTED))
      else
        var g := if opts.Some? then FromOptions(opts.value) else Ok(DefaultState());
        if g.Err? then Err(g.error)
        else
          var st := Imported(g.value, state);
          if st.result.Err? then Err(st.result.error) else Ok(st.next)
    case Serialized(_) => Err(Error(FeatureUnsupported, SERIALIZED_UNSUPPORTED))
  }

  /** With the terminators, every refusal of `create` itself is a C string
      the host reads back as the message. */
  lemma CreateMessagesTerminated(init: GameInit)
    requires init.Serialized? || (init.Standard? && init.legacy.Some?)
    ensures IsCString(Created(init).error.message)
    ensures ReadCString(Created(init).error.message) ==
      Some(if init.Serialized? then SERIALIZED_UNSUPPORTED_AS_WRITTEN else LEGACY_UNSUPPORTED_AS_WRITTEN)
  {
    var m := Created(init).error.message;
    assert '\0' !in LEGACY_UNSUPPORTED_AS_WRITTEN;
    NoNulInSerializedMessage();
    assert m[..|m| - 1] == if init.Serialized? then SERIALIZED_UNSUPPORTED_AS_WRITTEN else LEGACY_UNSUPPORTED_AS_WRITTEN;
    ReadTerminated(m);
  }

  /** The static messages of the option, state and move checks are C
      strings. */
  lemma StaticMessagesTerminated()
    ensures IsCString("missing starting counter\0") && IsCString("missing maximum subtrahend\0")
    ensures IsCString("maximum subtrahend is zero\0")
    ensures IsCString("missing counter value\0") && IsCString("invalid player code\0")
    ensures IsCString("game already over\0") && IsCString("need to subtract at least one\0")
    ensures IsCString("this player is not to move\0")
  {
  }

  /** A game created from its own exported options and state is the same
      game: options and state together serialise a game. */
  lemma CreateFromExports(s: NimState)
    requires s.maxSub > 0
    ensures Created(Standard(Some(OptionsText(s)), None, Some(StateText(s)))) == Ok(s)
  {
    OptionsRoundTrip(s);
    StateRoundTrip(New(s.initialCounter, s.maxSub), s);
  }

  /** The default game as the host sees it: "21 3", A to move with moves
      1, 2 and 3; after A takes 3 the state reads "B 18" and B is to move. */
  lemma DefaultGame()
    ensures OptionsText(DefaultState()) == "21 3"
    ensures StateText(DefaultState()) == "A 21"
    ensures PlayersToMove(DefaultState()) == [1] && Results(DefaultState()) == []
    ensures IsLegalMove(DefaultState(), 1, 3).Ok?
    ensures StateText(Moved(DefaultState(), 3)) == "B 18"
    ensures PlayersToMove(Moved(DefaultState(), 3)) == [2]
  {
    assert ShowNat(21) == ShowNat(2) + ['1'];
    assert ShowNat(18) == ShowNat(1) + ['8'];
  }

  /** As written, the move 65536 is accepted on the default game and, being
      0 once truncated, only passes the turn; the intended check refuses it. */
  lemma TruncatedMoveAccepted()
    ensures IsLegalMoveAsWritten(DefaultState(), 1, 65536).Ok?
    ensures Moved(DefaultState(), 65536).counter == DefaultState().counter
    ensures Moved(DefaultState(), 65536).turn
    ensures IsLegalMove(DefaultState(), 1, 65536).Err?
  {
  }

  /** As written, the move 4 is accepted on the default game although
      `max_sub` is 3 and `get_move_data` refuses "4"; the intended check
      refuses it. */
  lemma MoveAboveMaxSubAccepted()
    ensures IsLegalMoveAsWritten(DefaultState(), 1, 4).Ok?
    ensures GetMoveData(DefaultState(), "4").Err?
    ensures IsLegalMove(DefaultState(), 1, 4).Err?
  {
    assert ParseU16("4") == Ok(4) by {
      assert "4" == ShowNat(4);
      ParseShowNat(4);
    }
  }

  /** The game object the capability methods mutate through `&mut self`. */
  class Nim {
    var counter: Counter
    var maxSub: Counter
    var initialCounter: Counter
    var turn: bool

    function Value(): NimState
      reads this
    {
      NimState(counter, maxSub, initialCounter, turn)
    }

    constructor (s: NimState)
      ensures Value() == s
    {
      counter, maxSub, initialCounter, turn := s.counter, s.maxSub, s.initialCounter, s.turn;
    }

    /** `reset`. */
    method Reset()
      modifies this
      ensures Value() == Resetted(old(Value()))
    {
      counter := initialCounter;
      turn := false;
    }

    /** `copy_from`: the whole struct is copied. */
    method CopyFrom(other: Nim) returns (r: Result<(), Error>)
      modifies this
      ensures Value() == old(other.Value()) && r.Ok?
    {
      counter, maxSub, initialCounter, turn := other.counter, other.maxSub, other.initialCounter, other.turn;
      r := Ok(());
    }

    /** `import_state`. */
    method ImportState(text: Option<string>) returns (r: Result<(), Error>)
      modifies this
      ensures Value() == Imported(old(Value()), text).next
      ensures r == Imported(old(Value()), text).result
    {
      if text.None? {
        Reset();
        return Ok(());
      }
      var t := Tokens(text.value);
      if |t| == 0 {
        Reset();
        return Ok(());
      }
      if |t| < 2 {
        return Err(Error(InvalidInput, "missing counter value\0"));
      }
      var player := ParsePlayer(t[0]);
      if player.None? {
        return Err(Error(InvalidInput, "invalid player code\0"));
      }
      turn := player.value;
      var c := ParseU16(t[1]);
      if c.Err? {
        return Err(Error(InvalidInput, "counter parsing error: " + IntErrorMessage(c.error)));
      }
      counter := c.value;
      r := Ok(());
    }

    /** `make_move`, for a move the host has checked with `is_legal_move`. */
    method MakeMove(player: PlayerId, mov: MoveCode) returns (r: Result<(), Error>)
      requires IsLegalMoveAsWritten(Value(), player, mov).Ok?
      modifies this
      ensures Value() == Moved(old(Value()), mov) && r.Ok?
    {
      counter := counter - mov % U16_MODULUS;
      turn := !turn;
      r := Ok(());
    }

    /** `get_concrete_moves`: for the player to move, the moves 1 up to the
        smaller of `max_sub` and the counter, ascending; for anyone else,
        none.  They are exactly the moves the intended legality check
        accepts. */
    method GetConcreteMoves(player: PlayerId) returns (moves: seq<MoveCode>)
      ensures player != PlayerIdOf(Value()) ==> moves == []
      ensures player == PlayerIdOf(Value()) ==> |moves| == Min(maxSub, counter)
      ensures forall i :: 0 <= i < |moves| ==> moves[i] == i + 1
      ensures forall m: MoveCode :: m in moves <==> IsLegalMove(Value(), player, m).Ok?
    {
      moves := [];
      if player != PlayerIdOf(Value()) {
        return;
      }
      var top := Min(maxSub, counter);
      var mov := 1;
      while mov <= top
        invariant 1 <= mov <= top + 1
        invariant |moves| == mov - 1
        invariant forall i :: 0 <= i < |moves| ==> moves[i] == i + 1
      {
        moves := moves + [mov];
        mov := mov + 1;
      }
      forall m: MoveCode
        ensures m in moves <==> IsLegalMove(Value(), player, m).Ok?
      {
        if 1 <= m <= top {
          assert moves[m - 1] == m;
        }
      }
    }
  }
}
