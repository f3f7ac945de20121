# mirabel_rs bridge and example game, modelled in Dafny

mirabel_rs lets a Rust plugin provide games and frontends to the mirabel
host through the surena and mirabel C plugin interfaces. The host calls C
function pointers (trampolines) on a handle with two slots. `data1` holds
the plugin's object. `data2` holds the bridge's auxiliary state, which
keeps the last error message. Each trampoline calls one of the plugin's
safe capability methods. It maps an error to an error code and stores the
error's message for `get_last_error`.

This project models:

- `Surena` (surena_game.dfy): the game trampolines, `create_game_methods`
  and `check_sizer`. The handle is the class `Surena.Game`. Output buffers
  are host arrays behind a bounded `Buffers.PtrVec`.
- `Frontend` (frontend.dfy): the frontend trampolines, the `opts_*`
  entries and `create_frontend_methods`. It also covers the translation of
  pointer events by the display origin and the lazily created drawing
  surface. The handle is the class `Frontend.Frontend`.
- `Plugin` (plugin.dfy): the static table array and
  `plugin_get_*_methods`, which both entry-point macros generate.
- `MoveData` (move_data.dfy): the `move_data` wire codec and the host
  event wrapper `EventAny`/`EventEnum`.
- `SdlEvent` (sdl_event.dfy): the `SDL_Event` classifier and
  `sdl_button_mask`. The older src/sdl_event.rs has the same dispatch, so
  `SdlEvent.Classify` models both files.
- `Nim` (nim.dfy): the example game, misère Nim. `Nim.NimState` is the
  value of its `Copy` struct. Its functions state what each capability
  method computes. The class `Nim.Nim` carries the methods that change the
  game through `&mut self`.
- `Text` (text.dfy): the Rust standard-library text routines the example
  uses: `split_whitespace`, the decimal `Display` of an unsigned number,
  and `u16::from_str` with its three error kinds.

The plugin's capability methods are code the bridge cannot see, so they
are function parameters:

- A plain call is `G -> Step<G, R>`: the object after the call and its
  `Result`.
- A call that writes into an output buffer is `G -> Fill<G, T>`: the
  object after the call, the elements it pushed, and its result.
- A frontend call sees a `View` of what `Wrapped` exposes. It answers with
  a `Reply`, which also says whether it asked for the canvas.

A Rust panic inside an `extern "C"` function ends the process. It is
modelled as the status `Abort(reason)`.

Behaviour of the code that the model keeps as written:

- The frontend `create` trampoline returns `ERR_FEATURE_UNSUPPORTED` even
  when the plugin's `create` succeeded (src/gui/frontend.rs:180). The
  object is still stored. `Frontend.Frontend.CreateFrontend` states both.
- When a frontend or game `create` fails, `data1` stays null but `data2`
  already holds a fresh aux with the error message.
- The example's `is_legal_move` accepts the move 4 on the default game,
  although `max_sub` is 3. The game's own `get_concrete_moves`
  (example/src/game.rs:242-251) never offers 4, and `get_move_data`
  (example/src/game.rs:290-296) refuses "4". The model keeps the written
  check beside a corrected one. See "## Findings".
- `process_input` also subtracts the display origin from a mouse wheel
  event's `x` and `y`. In SDL2 these fields are scroll distances, not a
  position. The model keeps the subtraction as the code does it
  (`Frontend.Translate`).
- `import_state` of the example stores the player to move before it
  parses the counter. A bad counter therefore leaves the new player in
  place.

Static error messages carry the trailing NUL byte the code writes into
them (example/src/game.rs:39). The two messages of `create` have none as
written; `Nim.Created` uses corrected messages that do. See "## Findings".

## Model

| member | source | states |
|---|---|---|
| Buffers.PtrVec.Push | src/surena/game.rs:98-99 | a push succeeds exactly while the buffer has room; a full buffer is left as it was |
| Buffers.PtrVec.PushAll | src/surena/game.rs:254-269 | pushing a sequence succeeds exactly when all of it fits; then the contents are the old contents followed by the items; slots past the pushed ones are never written |
| MoveData.FromRef | src/base/event.rs:181-191 | a null pointer decodes to the move code held in `cl`; a non-null pointer decodes to a big move of exactly `len` bytes, the empty one included |
| MoveData.ToWire | src/base/event.rs:196-210 | a move code is sent in `cl` with a null pointer; a big move is sent with its length in `cl` and a pointer to exactly its bytes |
| MoveData.DecodeEncode | src/base/event.rs:181-210 | encoding a move and decoding it gives back the same move, for move codes and for big moves |
| MoveData.EncodeDecode | src/base/event.rs:181-210 | decoding then encoding keeps the `cl` word and the nullness of the pointer, and the pointer then holds exactly the decoded bytes |
| MoveData.EmptyBigMoveStaysBig | src/base/event.rs:185-187 | the empty big move is sent with a non-null pointer, so it never decodes as the move code 0 |
| MoveData.ToWireInjective | src/base/event.rs:196-210 | distinct moves have distinct wire encodings |
| MoveData.NewEventGameMove | src/base/event.rs:158-168 | a game-move event keeps its header, player and sync counter, and decodes its move with `from_ref` |
| MoveData.NewEventEnum | src/base/event.rs:90-104 | each of the four known tags selects its own variant, in both directions, and keeps the whole header; every other tag gives `Unknown` |
| MoveData.EventEnumPayloads | src/base/event.rs:90-104 | a move event carries the decoded move, a state event the host's state string, a load-methods event the methods and init info |
| MoveData.EventAny.constructor | src/base/event.rs:30-32 | the wrapper takes ownership of the event as it is |
| MoveData.EventAny.GetType | src/base/event.rs:35-37 | the type is the tag in the event's header |
| MoveData.EventAny.ToRust | src/base/event.rs:39-41 | the converted event's header carries the wrapper's own type tag |
| MoveData.EventAny.Drop | src/base/event.rs:69-73 | dropping the wrapper destroys the event exactly once |
| SdlEvent.Classify | src/gui/sdl_event.rs:28-38 | the variant names the raw tag; the event is `Unknown`, holding the unchanged raw event, exactly for tags without a variant; the payload is the matching member view, copied unchanged |
| SdlEvent.ClassifyByTag | src/sdl_event.rs:27-38 | in the older wrapper too, each known tag selects its own variant, in both directions, and every other tag gives `Unknown(e)` |
| SdlEvent.ClassifyPairsShareViews | src/gui/sdl_event.rs:31-35 | key-down and key-up read the same keyboard view; button-down and button-up read the same button view |
| SdlEvent.ClassifyDeterminedByTagAndView | src/gui/sdl_event.rs:28-38 | two raw events with the same known tag and the same member views classify alike |
| SdlEvent.ButtonMask | src/gui/sdl_event.rs:86-89 | the mask is defined exactly for buttons 1 to 32 and is then `2^(button-1)`, which fits 32 bits; other buttons panic |
| SdlEvent.ButtonMaskSingleBit | src/gui/sdl_event.rs:86-89 | the mask of a button in range has exactly one bit set, bit `button - 1` |
| SdlEvent.ButtonMasksDistinct | src/gui/sdl_event.rs:86-89 | distinct buttons have distinct masks |
| SdlEvent.ButtonMaskPanicsOutOfRange | src/gui/sdl_event.rs:87 | the assertion fails exactly for button 0 and for buttons above 32 |
| SdlEvent.RightButtonMask | src/gui/sdl_event.rs:80-85 | the mask of the right button is `0b100` |
| Text.WordLength | example/src/game.rs:35 | the leading word ends at the first whitespace character or at the end of the text |
| Text.Tokens | example/src/game.rs:179 | every word is non-empty and free of whitespace; there are no words exactly when the text is all whitespace |
| Text.TokensSkipSpace | example/src/game.rs:179 | leading whitespace does not change the words |
| Text.TokensOfPair | example/src/game.rs:218 | two words joined by one space split back into those two words |
| Text.ShowNat | example/src/game.rs:150 | a number is printed as a non-empty digit string whose decimal value is the number; the string has one digit exactly when the number is below 10, and starts with `0` exactly when the number is 0, so there are no leading zeros |
| Text.ReadCString | src/surena/game.rs:147-149 | the host reads a message up to its first NUL, and reads nothing sensible from a message without one |
| Text.ReadTerminated | src/surena/game.rs:147-149 | a NUL-terminated message with no earlier NUL reads back as itself without the terminator |
| Text.ReadUnterminated | src/surena/game.rs:147-149 | a message without any NUL cannot be read as a C string |
| Text.ParseDigits | example/src/game.rs:291 | the digit loop succeeds exactly on an all-digit text whose value fits 16 bits, and then yields that value |
| Text.ParseU16 | example/src/game.rs:291 | an empty text is an `Empty` error; a lone sign is an invalid digit; an unsigned text parses exactly when it is all digits and fits 16 bits |
| Text.ParseShowNat | example/src/game.rs:291 | a printed 16-bit number parses back to itself |
| Text.ParseRejectsWhitespace | example/src/game.rs:291 | a text holding whitespace never parses |
| Nim.New | example/src/game.rs:24-31 | a new game sits at its initial counter with A to move |
| Nim.DefaultState | example/src/game.rs:101-105 | the default game has counter 21 and maximum subtrahend 3 |
| Nim.PlayerIdOf | example/src/game.rs:86-91 | A is player 1 and B player 2 |
| Nim.PlayerChar | example/src/game.rs:93-98 | the letter is A exactly when A is to move |
| Nim.PlayerCount | example/src/game.rs:163-165 | there are two players, and every player id the game hands out lies between 1 and that count |
| Nim.ParsePlayer | example/src/game.rs:197-205 | `a`/`A` names A and `b`/`B` names B, both directions; any other token is refused |
| Nim.FromOptions | example/src/game.rs:33-78 | options parse exactly when the first two words are 16-bit numbers and the second is non-zero; then the game is new at that counter; a zero subtrahend is `InvalidOptions`, every other failure `InvalidInput` |
| Nim.Resetted | example/src/game.rs:81-84 | reset returns to the initial counter with A to move and keeps the options |
| Nim.Imported | example/src/game.rs:170-215 | no text or only whitespace resets; one word fails without change; otherwise a valid player is stored and the import succeeds exactly when the counter parses; options never change; a failure never changes the counter |
| Nim.StateText | example/src/game.rs:217-221 | the exported state is exactly two words: the letter of the player to move and the counter in decimal |
| Nim.OptionsText | example/src/game.rs:148-152 | the exported options are exactly two words: the initial counter and the maximum subtrahend, in decimal, in that order |
| Nim.PrintText | example/src/game.rs:308-312 | the printed board is the exported state followed by a line break |
| Nim.PlayersToMove | example/src/game.rs:232-237 | the player to move is listed exactly while the counter is above 0 |
| Nim.Results | example/src/game.rs:283-288 | the player to move is the winner exactly when the counter is 0 |
| Nim.RunningOrDecided | example/src/game.rs:232-288 | in every state exactly one of the two lists is non-empty |
| Nim.SubTooLarge | example/src/game.rs:335-344 | a subtraction passes exactly when it is at most the bound; otherwise it is `InvalidInput` |
| Nim.IsLegalMoveAsWritten | example/src/game.rs:254-275 | as written, a move passes exactly when the game is running, the move is non-zero, the player is to move, and the move truncated to 16 bits is at most the counter; each earlier check has its own message |
| Nim.IsLegalMove | example/src/game.rs:254-275 | corrected, a move passes exactly when the game is running, the player is to move, and the move lies between 1 and both `max_sub` and the counter |
| Nim.LegalIsLegalAsWritten | example/src/game.rs:254-275 | every move the corrected check accepts, the written one accepts too |
| Nim.Moved | example/src/game.rs:277-281 | a move takes its 16-bit truncation off the counter and passes the turn |
| Nim.LegalMoveProgress | example/src/game.rs:254-281 | a legal move lowers the counter by exactly the move and hands the turn to the other player |
| Nim.GetMoveData | example/src/game.rs:290-296 | a move text is read exactly when it is a 16-bit number not above `max_sub` |
| Nim.MoveText | example/src/game.rs:298-306 | a move is shown as a non-empty decimal digit string |
| Nim.MoveTextRoundTrip | example/src/game.rs:290-306 | a move within `max_sub`, once shown, is read back as itself |
| Nim.StateRoundTrip | example/src/game.rs:170-221 | importing an exported state restores its player and counter and keeps the options of the receiving game |
| Nim.OptionsRoundTrip | example/src/game.rs:33-78 | `from_options` of exported options rebuilds the initial counter and the maximum subtrahend |
| Nim.Created | example/src/game.rs:116-144 | create gives the default game, refuses legacy data with `InvalidLegacy` and serialized states with `FeatureUnsupported`; otherwise it builds the game from the options, passing on their error, or takes the default game without options, and imports the state into it, passing on its error; a created game never has subtrahend 0 |
| Nim.CreateMessagesUnterminatedAsWritten | example/src/game.rs:125-141 | as written, neither static message of `create` holds a NUL, so the host cannot read it as a C string |
| Nim.NoNulInSerializedMessage | example/src/game.rs:138-141 | the serialized-state message as written holds no NUL |
| Nim.CreateMessagesTerminated | example/src/game.rs:125-141 | with the terminator, each refusal of `create` is a C string that reads back as its message |
| Nim.StaticMessagesTerminated | example/src/game.rs:39-270 | every other static message of the game is a C string |
| Nim.CreateFromExports | example/src/game.rs:116-221 | creating from a game's own exported options and state gives back that game |
| Nim.DefaultGame | example/src/game.rs:101-105 | the default game exports "21 3" and "A 21" with A to move; after A takes 3 it reads "B 18" with B to move |
| Nim.TruncatedMoveAccepted | example/src/game.rs:273 | as written, move 65536 is accepted and only passes the turn; the corrected check refuses it |
| Nim.MoveAboveMaxSubAccepted | example/src/game.rs:273 | as written, move 4 is accepted on the default game while `get_move_data` refuses "4"; the corrected check refuses it |
| Nim.Nim.constructor | example/src/game.rs:24-31 | the object holds the given state |
| Nim.Nim.Reset | example/src/game.rs:81-84 | the object's new state is the reset of its old state |
| Nim.Nim.CopyFrom | example/src/game.rs:158-161 | the object becomes a copy of the other one |
| Nim.Nim.ImportState | example/src/game.rs:170-215 | the new state and the result are those of `Imported` on the old state |
| Nim.Nim.MakeMove | example/src/game.rs:277-281 | the new state is `Moved` of the old one, for a move `is_legal_move` accepted |
| Nim.Nim.GetConcreteMoves | example/src/game.rs:242-251 | the moves are 1 up to the smaller of `max_sub` and the counter, ascending; another player gets none; they are exactly the moves the corrected check accepts |
| Surena.CreateGameMethods | src/surena/game.rs:401-435 | the table copies the metadata; `export_options` and `print` are set exactly when their feature is; every other entry is always set |
| Surena.CheckSizer | src/surena/game.rs:490-506 | a sizer is accepted exactly when the state and move strings, and the options and print strings under their features, have room, and `max_moves` fits `usize`; the `max_moves` message is given exactly when the checks before it pass and `max_moves` does not fit; every other refusal gives the generic message |
| Surena.Aux.constructor | src/surena/game.rs:437-450 | a new aux has no error |
| Surena.Aux.SetError | src/surena/game.rs:467-469 | the message is stored |
| Surena.Game.GetLastError | src/surena/game.rs:147-149 | the last error is the message stored in aux |
| Surena.Game.Create | src/surena/game.rs:151-167 | a fresh aux is always installed; an error is stored with `data1` left null; a sizer `check_sizer` refuses aborts; otherwise the sizer and object are stored and `ERR_OK` returned |
| Surena.Game.Destroy | src/surena/game.rs:181-191 | both slots end null; a second destroy changes nothing |
| Surena.Game.CloneInto | src/surena/game.rs:193-209 | the target gets the same table, sizer and object and a fresh aux with no error; the source is unchanged |
| Surena.Game.Finish | src/surena/game.rs:86-96 | the object after the call is kept; on error the message is stored and its code returned; on success the value is passed on and the error message is unchanged |
| Surena.Game.CopyFromGame | src/surena/game.rs:211-219 | both objects become what the plugin's `copy_from` left; both handles keep their tables, sizers and aux; the status is `ERR_OK` or the plugin's code; an error's message is stored, and success keeps the old message |
| Surena.Game.CompareGame | src/surena/game.rs:221-230 | the answer is the plugin's own equality of the two objects and the status is `ERR_OK`; neither handle changes |
| Surena.Game.ImportStateGame | src/surena/game.rs:232-240 | the object follows the plugin's `import_state`; the handle stays live with its table, sizer and aux; the status is `ERR_OK` or the plugin's code; an error's message is stored, and success keeps the old message |
| Surena.Game.WriteString | src/surena/game.rs:169-179 | the string is written in order and `ret_size` is its length; more than `limit - 1` bytes aborts; the handle stays live with its table and sizer; a NUL follows only on success and nothing past it is written; a failure returns the plugin's code, stores the message and writes nothing past the bytes; success keeps the old message |
| Surena.Game.ExportOptionsGame | src/surena/game.rs:169-179 | the options string the plugin pushed is written in order into a buffer of `options_str` bytes and `ret_size` is its length; filling the buffer aborts; the handle stays live with its table and sizer; success writes the NUL and nothing past it and keeps the old message; a failure returns the plugin's code, stores its message and writes nothing past the string |
| Surena.Game.ExportStateGame | src/surena/game.rs:242-252 | the state string the plugin pushed is written in order into a buffer of `state_str` bytes and `ret_size` is its length; filling the buffer aborts; the handle stays live with its table and sizer; success writes the NUL and nothing past it and keeps the old message; a failure returns the plugin's code, stores its message and writes nothing past the string |
| Surena.Game.GetMoveStrGame | src/surena/game.rs:334-349 | the move string the plugin pushed is written in order into a buffer of `move_str` bytes and `ret_size` is its length; filling the buffer aborts; the handle stays live with its table and sizer; success writes the NUL and nothing past it and keeps the old message; a failure returns the plugin's code, stores its message and writes nothing past the string |
| Surena.Game.PrintGame | src/surena/game.rs:351-361 | the board text the plugin pushed is written in order into a buffer of `print_str` bytes and `ret_size` is its length; filling the buffer aborts; the handle stays live with its table and sizer; success writes the NUL and nothing past it and keeps the old message; a failure returns the plugin's code, stores its message and writes nothing past the string |
| Surena.Game.WriteList | src/surena/game.rs:254-269 | the pushed elements land in order; more than `limit` aborts; the rest of the array is untouched; the handle stays live with its table and sizer; the status is `ERR_OK` or the plugin's code; an error's message is stored, and success keeps the old message |
| Surena.Game.PlayersToMoveGame | src/surena/game.rs:254-269 | the players are written in order and the rest of the array is untouched; `ret_count` is their exact count, only on success; more than `max_players_to_move` aborts; the handle stays live with its table and sizer; a failure returns the plugin's code and stores its message, and success keeps the old message |
| Surena.Game.GetResultsGame | src/surena/game.rs:308-319 | the winners are written in order and the rest of the array is untouched; `ret_count` is their exact count, only on success; more than `max_results` aborts; the handle stays live with its table and sizer; a failure returns the plugin's code and stores its message, and success keeps the old message |
| Surena.Game.GetConcreteMovesGame | src/surena/game.rs:271-286 | the moves are written in order and the rest of the array is untouched; `ret_count` is their exact count, only on success; more than `max_moves` aborts; the handle stays live with its table and sizer; a failure returns the plugin's code and stores its message, and success keeps the old message |
| Surena.Game.IsLegalMoveGame | src/surena/game.rs:288-296 | the status is `ERR_OK` exactly when the plugin accepts the move, and the plugin's code otherwise; a refusal's message is stored, and acceptance keeps the old message; the handle keeps its table, sizer and aux |
| Surena.Game.MakeMoveGame | src/surena/game.rs:298-306 | the object follows the plugin's `make_move`; the status is `ERR_OK` or the plugin's code; an error's message is stored, and success keeps the old message; the handle keeps its table, sizer and aux |
| Surena.Game.GetMoveCodeGame | src/surena/game.rs:321-332 | the move code is written out only on success; otherwise the status is the plugin's code and its message is stored; success keeps the old message; the handle keeps its table, sizer and aux |
| Plugin.MethodsExport.constructor | src/surena/game.rs:44-46 | the static array starts uninitialised |
| Plugin.MethodsExport.Init | src/surena/game.rs:48-54 | initialisation stores the tables built from the macro's list |
| Plugin.MethodsExport.GetMethods | src/surena/game.rs:56-71 | the count is always reported; with an array given, exactly the first `count` slots receive the tables, in order, and nothing else is written |
| Frontend.CreateFrontendMethods | src/gui/frontend.rs:449-480 | the table copies the metadata; the three `opts_*` entries are set exactly when the options feature is; every other entry is always set |
| Frontend.Translate | src/gui/frontend.rs:229-243 | translation keeps the variant and tag; it moves a pointer event's position by exactly the display origin and leaves every other event unchanged |
| Frontend.TranslateInverse | src/gui/frontend.rs:229-243 | translating back by the negated origin restores the original event, so nothing but the position changes |
| Frontend.CanvasSurface | src/gui/frontend.rs:365-386 | a surface of the framebuffer's size is created only when none is cached; a cached one keeps its size and flush count; either way the canvas is moved to the display origin |
| Frontend.CanvasCreatedOnce | src/gui/frontend.rs:365-386 | asking for the canvas again reuses the surface the first request left |
| Frontend.Flushed | src/gui/frontend.rs:260-263 | flushing counts one flush on a cached surface and does nothing without one |
| Frontend.Aux.constructor | src/gui/frontend.rs:503-520 | a new aux has no error and no surface and holds the display data and options |
| Frontend.Aux.SetError | src/gui/frontend.rs:538-541 | the message is stored and the surface kept |
| Frontend.Aux.CanvasGet | src/gui/frontend.rs:365-386 | the cached surface becomes the canvas surface of the old one |
| Frontend.Frontend.ViewOf | src/gui/frontend.rs:302-323 | the plugin's view holds the aux's options, when there are any, and the display data's origin and framebuffer size |
| Frontend.Frontend.AfterCall | src/gui/frontend.rs:365-386 | a call that asked for the canvas leaves a surface at the display origin, new and of the framebuffer's size only when none was cached; without `skia` or without a request the cache is unchanged |
| Frontend.Frontend.GetLastError | src/gui/frontend.rs:157-159 | the last error is the message stored in aux |
| Frontend.Frontend.Dispatch | src/gui/frontend.rs:90-100 | the object after the call is kept; a canvas request caches a surface; on error the message is stored and its code returned |
| Frontend.Frontend.CreateFrontend | src/gui/frontend.rs:162-181 | a fresh aux with the display data and options is installed; an error is stored with `data1` left null; on success the object is stored and `ERR_FEATURE_UNSUPPORTED` is returned |
| Frontend.Frontend.DestroyFrontend | src/gui/frontend.rs:184-194 | both slots end null and the status is `ERR_OK` |
| Frontend.Frontend.RuntimeOptsDisplayFrontend | src/gui/frontend.rs:197-201 | the object follows the plugin's call and the cached surface its canvas requests; the handle keeps its table and aux; the status is `ERR_OK` or the plugin's code; an error's message is stored, and success keeps the old message |
| Frontend.Frontend.ProcessEventFrontend | src/gui/frontend.rs:204-213 | the plugin receives the event's `EventEnum` view; the owned event is destroyed exactly once; the object, surface, status and stored message follow the call as for every other call |
| Frontend.Frontend.ProcessInputFrontend | src/gui/frontend.rs:216-248 | the plugin receives the classified, translated event; with `skia` a resize drops the cached surface before the call |
| Frontend.Frontend.UpdateFrontend | src/gui/frontend.rs:251-255 | the object follows the plugin's call and the cached surface its canvas requests; the handle keeps its table and aux; the status is `ERR_OK` or the plugin's code; an error's message is stored, and success keeps the old message |
| Frontend.Frontend.RenderFrontend | src/gui/frontend.rs:258-266 | with `skia`, the cached surface is flushed once only after a successful render and only if one exists; a failed render flushes nothing |
| Frontend.Frontend.OptsCreateFrontend | src/gui/frontend.rs:129-139 | the out-slot holds a fresh, live box of the options exactly on success and is null otherwise; the status is `ERR_OK` or the plugin's code |
| Frontend.Frontend.OptsDisplayFrontend | src/gui/frontend.rs:141-147 | the options, not yet destroyed, are changed in place as the plugin leaves them; the status follows its result |
| Frontend.Frontend.OptsDestroyFrontend | src/gui/frontend.rs:149-153 | the box, destroyed at most once, is taken back with its options untouched, and the call always succeeds |
| Frontend.GameInfoOf | src/gui/frontend.rs:402-410 | the game info copies the table's names, version and features |
| Frontend.IsGameCompatibleFrontend | src/gui/frontend.rs:269-277 | the status is `ERR_OK` exactly when the plugin accepts the game; otherwise it is the plugin's code; the call never aborts |

## Left out

- Foreign calls are not modelled: `event_create_game_move`, `event_destroy`, `event_queue_push` and the skia surface calls. `EventAny` counts its destroy calls. The surface is a value that keeps its size, origin and flush count.
- `EventAny::new_game_move` (src/base/event.rs:44-50) is left out, because it consists of one foreign call.
- `QueueManager::push` (src/gui/frontend.rs:350-354) is left out, because it is a foreign call.
- `GameInit::new`, `ErrorString`, `PtrVec`, `ValidCStr` and `cstr_to_rust` are not part of this model. `GameInit` is a datatype of its three forms. A C string is a `string`, and a null pointer is `None`.
- The numeric values of mirabel's event-type tags come from generated bindings that are not part of this model. The four tags are distinct placeholders.
- The `Debug` implementations of the SDL wrapper (src/gui/sdl_event.rs:42-71) are left out. They only format text.
- The example frontend (example/src/frontend.rs), src/gui/skia_helper.rs, the build scripts and the module wiring are not part of this model.
- The plugin API version getters and the `plugin_cleanup_*` functions are left out. They return constants or do nothing.
- Dropping the plugin's object on `destroy` runs code the bridge cannot see. Destroy is modelled as nulling the slot.
- Dynamic error messages (`format!`) are modelled as their text. How the error type terminates them is not part of this model.
- Surena.Game.CloneInto: Rust `Clone` of the game object is modelled as a plain copy of its value.
- Surena.Game.Create: the width of `usize` is a parameter `usizeMax`. `check_sizer` compares `max_moves` against it.
- Surena.Game.WriteString: it assumes that the `StrBuf::from_c_char` view (src/surena/game.rs:175) holds `limit - 1` bytes and that the first push past it panics, here `Abort(BUFFER_FULL)`; the buffer type is not part of this model.
- Surena.Game.WriteList: it assumes that the `PtrVec` view holds `limit` elements and that the first push past it panics, here `Abort(BUFFER_FULL)`.
- Surena.Game.CompareGame: the plugin's `PartialEq` (the example derives it, example/src/game.rs:15) is a parameter `eq`; that it is an equivalence is not assumed.
- Surena.Game.WriteString: the host's `ret_size` pointer is the returned `retSize`. The model does not show that `PtrVec` updates it on every push.
- Frontend.Translate: casting the display origin from `f32` to `i32` and the `i32` subtraction are modelled on unbounded integers. Fractional origins, saturation and wrap-around are not captured.
- Frontend.CanvasSurface: the `f32` canvas matrix, the `u32` to `i32` casts of the framebuffer size, and what is drawn are not modelled.
- Frontend.Frontend.ProcessEventFrontend: the plugin is modelled as dropping the event before it returns. Keeping the event past the call is not captured.
- Nim.Created: the two refusals carry the terminated messages `LEGACY_UNSUPPORTED` and `SERIALIZED_UNSUPPORTED`; the text as written is `LEGACY_UNSUPPORTED_AS_WRITTEN` and `SERIALIZED_UNSUPPORTED_AS_WRITTEN`, without the NUL.
- Nim.StateText: the `.expect` on a string buffer that is too small belongs to the older buffer type the example is written against. It is not modelled. The bridge's side is `Surena.Game.WriteString`.
- Nim.OptionsText: the same.
- Text.Tokens: only the Unicode White_Space characters that `char::is_whitespace` accepts count as separators. Strings are sequences of code points with no encoding.

## Findings

| source | as written | input that shows it | evidently intended | confidence | as-written member | corrected member |
|---|---|---|---|---|---|---|
| example/src/game.rs:273 | `is_legal_move` truncates the 64-bit move to 16 bits before the bound check | move 65536 on the default game: it is accepted, and `make_move` then subtracts 0 and only passes the turn | the untruncated move is bounded | not executed | Nim.TruncatedMoveAccepted | Nim.LegalMoveProgress |
| example/src/game.rs:125-141 | the two static messages of `create` lack the trailing NUL that every other static message has and that the comment at line 39 demands | `create` with legacy data or a serialized state, then `get_last_error`: `ReadCString` of the message is `None`; whether the host overreads depends on the error type not adding a terminator, which is not part of this model | both messages end in a NUL byte | not executed | Nim.CreateMessagesUnterminatedAsWritten | Nim.CreateMessagesTerminated |
| example/src/game.rs:273 | `is_legal_move` bounds the move by the counter only, never by `max_sub` | move 4 on the default game (`max_sub` 3): accepted, although `get_concrete_moves` never offers it and `get_move_data` refuses "4" | the move is bounded by both `max_sub` and the counter | not executed | Nim.MoveAboveMaxSubAccepted | Nim.Nim.GetConcreteMoves |
