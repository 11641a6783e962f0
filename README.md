# ChAAnt chess.com agent — a Dafny model

ChAAnt drives a chess.com browser page to play games: an agent attaches
to one page, starts a game against a bot or online, waits for its turn,
turns a move notation into a pair of squares by asking the page's game
object, drags the piece and waits until the page confirms the move. This
project models four parts of it:

- the `Square` value type: parsing "e4"-style notation, the interned 8×8
  table, and rendering back;
- the latest chess.com agent: its page registry, move listeners, turn
  wait, move resolution, move with one reload-and-retry, history queries,
  and the state set up at game start and game over;
- the earlier revision of the same agent;
- `CollectiveMove`, which gathers notations the agent can resolve.

Layout:

| file | module | contents |
|---|---|---|
| `base.dfy` | `Base` | `Option`, `Result`, `AgentState`, `PlayState`, piece letters, colours, `BoardAccess` (what a page step returns), `PageRegistry` |
| `text.dfy` | `Text` | the JavaScript string operations the code relies on: `trim`, `toLowerCase`, `includes`, `startsWith`, `split` length |
| `square.dfy` | `Squares` | `Square`, the table initializer, `Square.square` |
| `agent_logic.dfy` | `AgentLogic` | the pure part of the latest agent, plus one specification function per state-changing operation over the record `Fields` (state, playing, asBlack, agentMoveNumber), with its properties |
| `chesscom_agent.dfy` | `Chesscom` | the latest agent as a class whose methods are proved to follow those specification functions; the page-side loops |
| `early_agent.dfy` | `ChesscomEarly` | the earlier agent as a class |
| `collective.dfy` | `Collective` | `CollectiveMove` as a class |

How the page is represented:

- Each browser step becomes an input of type `BoardAccess<T>`. It is
  `NoBoard` when `wc-chess-board` is missing, `EvalError` when the
  evaluation throws, and otherwise `Board(view)`.
- The turn wait reads a `WaitView`. This holds the last move number at the
  start of the wait, then the events that happen in order before the
  4-minute ceiling: a check of the last move, or the game-over hook firing.
  A trace that runs out stands for the 4-minute timer.
- A drag attempt reads a `DragView`. This holds whether the promotion piece
  could be clicked, the move numbers reported to the "Move" listener, and
  the move number when the deadline check runs. That number is `None`
  when the game has no last move yet. The deadline callback then throws a
  TypeError inside the page timer, so the drag's promise is never settled.
- The move grammar's match is an input (`MoveMatch`), with one field per
  capture group.
- Thrown values become `Failure` tags.
- An undefined `agentMoveNumber` is `None`. `+= 2` keeps it `None`,
  which models NaN.

## Model

| member | source | states |
|---|---|---|
| Squares.BuildTable | src/components/Square.ts:3-11 | the table is 8 rows of 8 squares and entry [i][j] has file i and rank j |
| Squares.Square.Rank | src/components/Square.ts:47-49 | the rank getter is the rank index, in 0..7 |
| Squares.Square.File | src/components/Square.ts:50-52 | as written, the file getter returns the rank index |
| Squares.Square.RankNotation | src/components/Square.ts:53-55 | one character, "1".."8", whose value minus one is the rank index |
| Squares.Square.FileNotation | src/components/Square.ts:56-58 | one letter "a".."h", the file-notation entry at the file index |
| Squares.Square.Notation | src/components/Square.ts:59-61 | two characters, file letter then rank digit, naming the square's indices |
| Squares.ToFileIndex | src/components/Square.ts:19-26 | succeeds iff the lower-cased argument is one of "a".."h"; the index names that letter; otherwise UnknownFile |
| Squares.CheckIndexWithinRange | src/components/Square.ts:27-31 | no error iff 0 <= idx < 8; otherwise the error for that coordinate |
| Squares.NumberOf | src/components/Square.ts:38-42 | JavaScript `Number` of one character: a digit gives its value, white space gives 0, anything else (and a missing character) is NaN |
| Squares.FromNotation | src/components/Square.ts:32-46 | an empty or over-long trimmed notation is BadFormat; a parsed square renders back to the trimmed, lower-cased input |
| Squares.ParseTrimmed | src/components/Square.ts:34-45 | the same for the already trimmed string |
| Squares.FromNotationAcceptsExactly | src/components/Square.ts:32-46 | the parse succeeds iff the trimmed input is a file letter (either case) and a digit 1..8 |
| Squares.NotationRoundTrip | src/components/Square.ts:32-61 | parsing a square's notation gives back that square |
| Squares.FromNotationInterned | src/components/Square.ts:32-45 | inputs equal after trim and lower-casing give the same square or the same error |
| Squares.FromNotationIsTableEntry | src/components/Square.ts:45 | a parsed square is the table entry at its file and rank |
| Squares.FileGetterIsRank | src/components/Square.ts:50-52 | file == rank for every square; on a8 it differs from the file index |
| Text.Trim | src/components/Square.ts:33 | the result is a contiguous slice of the input with only JavaScript white space removed around it, and it neither starts nor ends with white space |
| Text.Includes | chaant/core/src/agents/chesscom/ChesscomAgent.ts:230 | true iff the fragment occurs at some position |
| AgentLogic.BoardIndex | chaant/core/src/agents/chesscom/ChesscomAgent.ts:45-51 | both cell indices stay in 1..8 |
| AgentLogic.BoardIndexOrientation | chaant/core/src/agents/chesscom/ChesscomAgent.ts:45-51 | white and undefined colour have the a-file left and rank 8 on top; black is white turned 180°; distinct squares get distinct cells |
| AgentLogic.SettleCharacterised | chaant/core/src/agents/chesscom/ChesscomAgent.ts:271-313 | the wait resolves iff some check finds `(last ?? -1) + 1 >= counter` before any game-over signal, and rejects with GAMEOVER iff the signal comes first |
| AgentLogic.Attempt | chaant/core/src/agents/chesscom/ChesscomAgent.ts:118-154 | confirmed iff the board is present, a needed promotion click worked, and a reported move number or the one at the deadline reaches the counter; never settled iff no report confirms and the deadline finds no last move; timed out (-1) iff the deadline's move number falls short; failed iff the board, the evaluation or the promotion click fails |
| AgentLogic.TryMoveRetriesOnce | chaant/core/src/agents/chesscom/ChesscomAgent.ts:155-164 | done iff the first attempt is confirmed, or it timed out, the reload worked and the retry is confirmed; a second time-out is MoveTimedOut; the move stalls iff an attempt it reaches never settles; no third attempt |
| AgentLogic.CandidatesExactly | chaant/core/src/agents/chesscom/ChesscomAgent.ts:215-220 | the candidates are exactly the pieces of the given type and colour whose legal destinations include the target |
| AgentLogic.OriginFilter | chaant/core/src/agents/chesscom/ChesscomAgent.ts:230 | keeps exactly the candidates whose square contains the fragment, where an undefined fragment is the text "undefined" |
| AgentLogic.SelectOriginSound | chaant/core/src/agents/chesscom/ChesscomAgent.ts:207-235 | a success is a qualifying piece's square (containing the fragment when there were several); no piece iff there are no candidates or none left after the filter; ambiguous iff several are left |
| AgentLogic.NoFragmentReportsNoPiece | chaant/core/src/agents/chesscom/ChesscomAgent.ts:221-232 | several candidates and no fragment give "no piece", not "ambiguous" |
| AgentLogic.SingleCandidateIgnoresOrigin | chaant/core/src/agents/chesscom/ChesscomAgent.ts:221-234 | a lone candidate is chosen whatever the fragment |
| AgentLogic.CastleTable | chaant/core/src/agents/chesscom/ChesscomAgent.ts:23 | every entry parses; the king starts on the e-file of the colour's back rank and ends on g (short) or c (long) |
| AgentLogic.CastleKinds | chaant/core/src/agents/chesscom/ChesscomAgent.ts:190 | "o-o" selects the short row and "o-o-o" the long one |
| AgentLogic.PromotionRankEightOnly | chaant/core/src/agents/chesscom/ChesscomAgent.ts:239 | without a promotion group only a pawn reaching rank 8 needs a promotion piece; rank 1 is not checked |
| AgentLogic.JsRem | chaant/core/src/agents/chesscom/ChesscomAgent.ts:349 | JavaScript `%`: the remainder lies strictly between -b and b, is zero or has the dividend's sign, and the dividend minus it is a multiple of b |
| AgentLogic.LastMove | chaant/core/src/agents/chesscom/ChesscomAgent.ts:341-345 | the last ply lower-cased, or "" for an empty history |
| AgentLogic.AgentLastIndex | chaant/core/src/agents/chesscom/ChesscomAgent.ts:346-353 | the index is one of the last two, has the colour's parity when non-negative, and no later index has it |
| AgentLogic.AgentLastMoveIsOwnPly | chaant/core/src/agents/chesscom/ChesscomAgent.ts:346-353 | the result is the agent's last ply (even indices for white, odd for black), or "" when it has none |
| AgentLogic.Advance | chaant/core/src/agents/chesscom/ChesscomAgent.ts:101 | the counter rises by 2; undefined stays undefined |
| AgentLogic.WaitTurnOutcomes | chaant/core/src/agents/chesscom/ChesscomAgent.ts:259-325 | refused without change when not playing; only the state is assigned; TakingTurn iff the page reports the turn before any game-over; Idle only after the signal; every other failure is BrowserPageOutOfReach |
| AgentLogic.EnsureTurnFrame | chaant/core/src/agents/chesscom/ChesscomAgent.ts:175-181 | the guard only assigns the state and passes iff the agent then takes its turn |
| AgentLogic.ResolveFrame | chaant/core/src/agents/chesscom/ChesscomAgent.ts:182-257 | success and InvalidNotation leave the fields unchanged; every other failure is BrowserPageOutOfReach |
| AgentLogic.EvalMoveFrame | chaant/core/src/agents/chesscom/ChesscomAgent.ts:169-258 | only the state changes; a success leaves the agent TakingTurn and is the resolution made in that state |
| AgentLogic.ResolveCastling | chaant/core/src/agents/chesscom/ChesscomAgent.ts:187-195 | castling resolves iff the colour is known, to the king's move on the colour's back rank (long iff three dash-separated parts), with no promotion |
| AgentLogic.ResolvePieceMove | chaant/core/src/agents/chesscom/ChesscomAgent.ts:196-247 | a resolved move starts on the square of a qualifying piece of the agent's colour, ends on the matched destination, and carries a promotion piece whenever one is required |
| AgentLogic.MoveBySquareSucceeds | chaant/core/src/agents/chesscom/ChesscomAgent.ts:100-102 | a successful moveBySquare is MovedWaitingTurn with the counter exactly 2 higher, colour and play state kept |
| AgentLogic.MoveBySquareOutcomes | chaant/core/src/agents/chesscom/ChesscomAgent.ts:88-164 | refused when not playing; success is MovedWaitingTurn with the counter exactly 2 higher, after a confirmed attempt; with the turn in hand every failure other than a failed reload or a drag that never settles is MovedIllegal; those two leave every field as it was; a stalled move had an attempt that never settled |
| AgentLogic.MoveOutcomes | chaant/core/src/agents/chesscom/ChesscomAgent.ts:78-103 | a successful move is MovedWaitingTurn with the counter 2 higher and colour and play mode unchanged |
| AgentLogic.WaitTurnKeepsCounter | chaant/core/src/agents/chesscom/ChesscomAgent.ts:259-325 | waitTurn keeps the counter's parity matched to the colour |
| AgentLogic.EvalMoveKeepsCounter | chaant/core/src/agents/chesscom/ChesscomAgent.ts:169-258 | evalMove keeps the counter's parity matched to the colour |
| AgentLogic.MoveBySquareKeepsCounter | chaant/core/src/agents/chesscom/ChesscomAgent.ts:88-103 | moveBySquare keeps the counter's parity matched to the colour |
| AgentLogic.MoveKeepsCounter | chaant/core/src/agents/chesscom/ChesscomAgent.ts:78-87 | move keeps the counter's parity matched to the colour |
| AgentLogic.StartSetsCounter | chaant/core/src/agents/chesscom/ChesscomAgent.ts:563-565 | a started game sets the counter to 1 for black and 0 for white, matching the colour |
| Chesscom.IndexOf | chaant/core/src/agents/chesscom/ChesscomAgent.ts:73 | -1 iff absent; otherwise the first position holding the listener |
| Chesscom.RemoveFirstTakesOneOccurrence | chaant/core/src/agents/chesscom/ChesscomAgent.ts:72-77 | removal takes out exactly the first occurrence and keeps the rest in order; an absent listener leaves the list unchanged |
| Chesscom.AddThenRemove | chaant/core/src/agents/chesscom/ChesscomAgent.ts:69-77 | adding a new listener and removing it restores the list |
| Chesscom.AwaitTurn | chaant/core/src/agents/chesscom/ChesscomAgent.ts:271-313 | the page-side loop settles as the wait trace specifies |
| Chesscom.DragOnPage | chaant/core/src/agents/chesscom/ChesscomAgent.ts:118-154 | the page-side loop confirms as the attempt specifies |
| Chesscom.ResolveOnPage | chaant/core/src/agents/chesscom/ChesscomAgent.ts:207-235 | the `forEach` collection and the filter answer as the resolver specifies |
| Chesscom.ChesscomAgent.Create | chaant/core/src/agents/chesscom/ChesscomAgent.ts:24-36 | refused on a registered page; otherwise a fresh Idle, NotPlaying agent with no colour or counter and no listeners, its page added |
| Chesscom.ChesscomAgent.Dispose | chaant/core/src/agents/chesscom/ChesscomAgent.ts:681-687 | the page leaves the registry; once the page closes, the colour and counter are deleted |
| Chesscom.ChesscomAgent.AddOnMove | chaant/core/src/agents/chesscom/ChesscomAgent.ts:69-71 | appends the listener |
| Chesscom.ChesscomAgent.RemoveOnMove | chaant/core/src/agents/chesscom/ChesscomAgent.ts:72-77 | the list loses the first occurrence of the listener |
| Chesscom.ChesscomAgent.BlackOrWhite | chaant/core/src/agents/chesscom/ChesscomAgent.ts:335-340 | fails iff the colour is undefined; black iff asBlack |
| Chesscom.ChesscomAgent.ResolveBoardIndex | chaant/core/src/agents/chesscom/ChesscomAgent.ts:45-51 | the cell indices stay in 1..8 |
| Chesscom.ChesscomAgent.WaitTurn | chaant/core/src/agents/chesscom/ChesscomAgent.ts:259-325 | leaves the fields and answers as WaitTurnSpec |
| Chesscom.ChesscomAgent.GuardTurn | chaant/core/src/agents/chesscom/ChesscomAgent.ts:175-181 | leaves the fields and answers as EnsureTurn |
| Chesscom.ChesscomAgent.Resolve | chaant/core/src/agents/chesscom/ChesscomAgent.ts:182-257 | leaves the fields and answers as ResolveSpec |
| Chesscom.ChesscomAgent.EvalMove | chaant/core/src/agents/chesscom/ChesscomAgent.ts:169-258 | leaves the fields and answers as EvalMoveSpec |
| Chesscom.ChesscomAgent.TryMoveBySquare | chaant/core/src/agents/chesscom/ChesscomAgent.ts:104-168 | answers as TryMove; MovedIllegal exactly on a rejection, nothing else changed |
| Chesscom.ChesscomAgent.MoveBySquare | chaant/core/src/agents/chesscom/ChesscomAgent.ts:88-103 | leaves the fields and answers as MoveBySquareSpec |
| Chesscom.ChesscomAgent.Move | chaant/core/src/agents/chesscom/ChesscomAgent.ts:78-87 | leaves the fields as MoveSpec; calls every listener, in order, iff the result is MovedWaitingTurn |
| Chesscom.ChesscomAgent.PlayComputer | chaant/core/src/agents/chesscom/ChesscomAgent.ts:650-659 | a failure sets the thrown state value, or BrowserPageOutOfReach; a start sets colour, counter, AgainstComputer and TakingTurn |
| Chesscom.ChesscomAgent.PlayOnline | chaant/core/src/agents/chesscom/ChesscomAgent.ts:556-565 | the same, returning FirstWaitingTurn for black |
| Chesscom.ChesscomAgent.CompleteGameOver | chaant/core/src/agents/chesscom/ChesscomAgent.ts:464-466 | the game over sets NotPlaying and Idle |
| Chesscom.ChesscomAgent.GameOverListenFailed | chaant/core/src/agents/chesscom/ChesscomAgent.ts:467-474 | listens again iff still playing on a page with a board; otherwise BrowserPageOutOfReach |
| Chesscom.ChesscomAgent.FetchMoves | chaant/core/src/agents/chesscom/ChesscomAgent.ts:354-363 | the history, or [] when the page has none; a failed query is BrowserPageOutOfReach |
| Chesscom.ChesscomAgent.LastMove | chaant/core/src/agents/chesscom/ChesscomAgent.ts:341-345 | the last ply of the fetched history |
| Chesscom.ChesscomAgent.AgentLastMove | chaant/core/src/agents/chesscom/ChesscomAgent.ts:346-353 | the agent's last ply; an undefined colour rejects without changing the state |
| ChesscomEarly.ChesscomAgent.Create | src/agents/chesscom/ChesscomAgent.ts:16-25 | refused on a registered page; otherwise a fresh Idle, NotPlaying agent, its page added; the registry never shrinks |
| ChesscomEarly.ChesscomAgent.BlackOrWhite | src/agents/chesscom/ChesscomAgent.ts:93-98 | fails iff the colour is undefined; black iff asBlack |
| ChesscomEarly.ChesscomAgent.ResolveBoardIndex | src/agents/chesscom/ChesscomAgent.ts:27-33 | the cell indices stay in 1..8 |
| ChesscomEarly.ChesscomAgent.IndexIgnoresFile | src/agents/chesscom/ChesscomAgent.ts:28 | through the file getter, squares on one rank share a cell, although the flip itself separates them |
| ChesscomEarly.ChesscomAgent.Move | src/agents/chesscom/ChesscomAgent.ts:52-83 | MovedWaitingTurn iff the board is there and the colour known; a missing board is BoardNotFound, an undefined colour on a found board is ColourUndefined (read before any evaluation), a failed evaluation with a known colour is PageFailure; every failure, a missing board included, is MovedIllegal; play mode and colour untouched |
| ChesscomEarly.ChesscomAgent.WaitTurn | src/agents/chesscom/ChesscomAgent.ts:84-86 | not implemented |
| ChesscomEarly.ChesscomAgent.EvaluateBlackOrWhite | src/agents/chesscom/ChesscomAgent.ts:99-115 | black iff the board's code is 2; a missing board is BrowserPageOutOfReach; a failed evaluation changes nothing |
| ChesscomEarly.ChesscomAgent.EnsurePlaying | src/agents/chesscom/ChesscomAgent.ts:116-139 | passes iff the board reports a game; "not playing" leaves IdleIllegalPlay; board failures leave BrowserPageOutOfReach |
| ChesscomEarly.ChesscomAgent.PlayComputer | src/agents/chesscom/ChesscomAgent.ts:140-222 | success is AgainstComputer and TakingTurn with the board's colour; any failure rejects with the handler's TypeError, keeps the colour and play state, and keeps the state the failing step left: unchanged after setup or a failed colour evaluation, IdleIllegalPlay when no game is detected, BrowserPageOutOfReach when a board is missing |
| Collective.ValidateMeaning | src/misc/CollectiveMove.ts:16-27 | validation only changes the agent's state; a move validates only when the notation was read, and the agent is then taking its turn with every other field kept |
| Collective.UnreadableNotationRejected | src/misc/CollectiveMove.ts:16-27 | an unreadable notation during the agent's turn is answered false and changes nothing |
| Collective.UnknownPieceLosesContact | src/misc/CollectiveMove.ts:21-23 | a well-formed move with no matching piece makes validation throw the lost-contact error |
| Collective.Accepted | src/misc/CollectiveMove.ts:32-36 | every collected entry is the trimmed form of an accepted notation |
| Collective.CollectAllKeepsOrder | src/misc/CollectiveMove.ts:32-36 | after any run of additions, the old collection is a prefix followed by the accepted notations trimmed, in arrival order |
| Collective.CollectiveMove.Create | src/misc/CollectiveMove.ts:11-31 | refused for an agent that is not a chess.com agent; otherwise an empty collection with `onMoved` appended to the agent's listeners |
| Collective.CollectiveMove.EvalMove | src/misc/CollectiveMove.ts:16-27 | leaves the agent and answers as ValidateSpec |
| Collective.CollectiveMove.AddMove | src/misc/CollectiveMove.ts:32-36 | appends the trimmed notation iff it validated; the validation's error propagates |
| Collective.CollectiveMove.OnMoved | src/misc/CollectiveMove.ts:37-39 | empties the collection |
| Collective.CollectiveMove.OnMovedAsListener | src/misc/CollectiveMove.ts:15 | the registered listener fails with the unbound-`this` TypeError |
| Collective.CollectiveMove.ReceiveNotifications | src/misc/CollectiveMove.ts:15 | of the listener calls a confirmed move makes, exactly those of the collector's `onMoved` reject, so a registered collector sees at least one rejection and its collection is never emptied |

Where the code and its design description differ, the model follows the
code:

- Failures of move resolution are not recoverable in the code. The board
  helper `executeOnBoardElem` (ChesscomAgent.ts:379-394) sets
  BrowserPageOutOfReach for every error in the page-side resolver,
  including "no piece" and "ambiguous". The handler at lines 248-257 does
  the same for a missing promotion piece and a bad square. Only an
  unreadable notation, and castling with no colour, keep the state.
  `UnknownPieceLosesContact` shows the consequence: `CollectiveMove` then
  throws the lost-contact error instead of answering false.
- The origin filter runs only when there are several candidates. It
  searches for the text "undefined" when no fragment was given, so
  several candidates without a fragment report "no piece".
- The "GAMEOVER" outcome of `waitTurn` sets only the state to Idle.
  `playing` is reset by the game-over listener (lines 464-466).
- `playComputer` returns TakingTurn for black as well. Only `playOnline`
  returns FirstWaitingTurn. Both set the play mode to AgainstComputer.
- `CollectiveMove` imports the earlier agent, which has neither
  `evalMove` nor `addOnMove`. It is modelled against the latest agent,
  whose members it calls.

## Left out

- Pixel coordinates, the random jitter of `getRandomHalf`, `getClientRects`
  and `clientWidth` in `resolveBoardSquare`: floating point and randomness.
  Only the integer index flip is modelled.
- Navigation, selectors, clicks, modal dismissal, MutationObserver waits,
  `isGuest`, `selectTimeControl`, `searchElement`, `getTranslation`,
  `isPlaying`/`evalPlaying` and bot selection. A game start is reduced to
  its outcome (`StartOutcome`): the state value it threw, another error,
  or the colour it found.
- Timers are the end of an event trace, not clocks. This applies to the
  5-second re-check and the 4-minute ceiling of `waitTurn`, and to the 5 s
  (+1 s when promoting) deadline of a drag.
- The move grammar `notationMoveRegex` is loaded from a file that is not
  part of this model. Its match is an input, and the `replace(/\s*/, "")`
  sanitisation happens before that match.
- Squares.FromNotation: strings are sequences of code points, so the
  length test and the `[1]` index count a character outside the Basic
  Multilingual Plane as one, where JavaScript counts two UTF-16 units.
  The accepted notations are the same, but for such input the error can
  differ: "a" followed by an emoji is RankNotANumber here and the format
  error in the code.
- Squares.ParseTrimmed: the same code-point counting as
  `Squares.FromNotation`.
- `toLowerCase` is modelled over ASCII letters only, and `trim` over the
  ECMAScript white-space code points.
- A drag that never settles is reported as `DragNeverSettled` with the
  agent's fields unchanged. In the code the `move` call stays pending.
  Any timeout the browser driver puts on a pending evaluation is not
  modelled; if one applied, its rejection would end in MovedIllegal.
- Concurrency: every method is atomic. The overlapping promises are not
  modelled: background `listenForGameOver`, fire-and-forget listener calls,
  `initAsync`.
- `listenForGameOver`'s page-side handler and its recursive re-listen are
  reduced to the two effects `CompleteGameOver` and `GameOverListenFailed`.
  The `onGameOver` handler call and the `chaantGameOver` hook are not
  modelled.
- `premove` and `isGuest` are not modelled. `status` and `playingState`
  of both revisions are plain reads of the `state` and `playing` fields.
- The earlier revision's `playRapid`, `playBlitz`, `playBullet` and
  `playClassical` throw "not implemented", like its `waitTurn`.
  `ChesscomEarly.ChesscomAgent.WaitTurn` stands for all five.
- Chesscom.ChesscomAgent.ResolveBoardIndex: it uses the square's file
  index. The latest agent imports its own `Square` class from
  `chaant/core/src/components/Square`, which is not part of this model.
  That class is modelled by `Squares` from `src/components/Square.ts`:
  its `Square.square`, `notation` and `rankNotation` are taken to behave
  as they do there, and only its `file` getter is taken to return the
  file index rather than the rank.
- Chesscom.ChesscomAgent.Dispose: a failing `page.close()` is modelled
  only by its effect (colour and counter stay). The rejection itself is
  not returned.
- `CollectiveMove`'s vote counting, commit timer and `MIN`/`MAX`
  constants are not in the modelled code (only a TODO at line 10).
- `PlayState.ts` and the earlier agent's `AgentState` are not part of this
  model. `PlayState` holds only the two values the agents assign.
  `AgentState` follows chaant/core/src/components/AgentState.ts, a plain
  string enum with no `values` member.
