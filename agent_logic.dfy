/** The deterministic part of the latest chess.com agent
    (chaant/core/src/agents/chesscom/ChesscomAgent.ts): the board-index
    flip, the turn and confirmation predicates, the page-side waits as
    traces of page events, move resolution, castling, promotion, the
    history queries, and one specification function per state-changing
    operation, over a record of the agent's fields. */
module AgentLogic {
  import opened Base
  import opened Text
  import opened Squares

  // ---------------------------------------------------------------------
  // Errors: the values the agent throws, as tags.

  datatype AgentError =
    | NotPlaying                    // "Agent is not playing"
    | CouldNotMove(seen: AgentState) // waitTurn settled on a state other than TakingTurn
    | BoardNotFound                 // the board element is missing
    | PageFailure                   // an in-page evaluation threw or rejected
    | WaitTimedOut                  // the 4-minute ceiling of waitTurn
    | MoveTimedOut                  // the move was not confirmed after the reload
    | ReloadFailure                 // the reload after a first time-out threw
    | DragNeverSettled              // the drag's page promise neither resolved nor rejected
    | InvalidNotation               // the move grammar did not match, or castling without a colour
    | NoPiece                       // thrown as 1 by the page-side resolver
    | Ambiguous                     // thrown as 2 by the page-side resolver
    | PromotionUnspecified          // "Promotion piece must be specified"
    | ColourUndefined               // "Agent piece color is not defined"
    | PageAlreadyAttached           // the constructor's uniqueness check
    | StartFailed(cause: StartError) // a failed playComputer / playOnline
    | NotDetectedPlaying            // "Agent is not detected to be playing"
    | NotImplemented                // "Method not implemented."
    | HandlerTypeError              // the TypeError raised inside a catch handler

  /** What a failing game start threw: an `AgentState` value, or anything else. */
  datatype StartError = StateValue(s: AgentState) | OtherCause

  /** The agent's fields that its operations assign. `moveNumber` is
      `agentMoveNumber`; `None` stands for undefined (and for the NaN that
      `+= 2` makes of it), which every comparison treats as false. */
  datatype Fields = Fields(state: AgentState, playing: PlayState, asBlack: Option<bool>, moveNumber: Option<int>)

  /** The move counter agrees with the colour: it counts the plies expected
      before the agent's next move, so it is even for white, odd for black. */
  predicate CounterInSync(f: Fields) {
    f.moveNumber.Some? ==>
      f.asBlack.Some? && f.moveNumber.value >= 0
      && f.moveNumber.value % 2 == (if f.asBlack.value then 1 else 0)
  }

  // ---------------------------------------------------------------------
  // Orientation (the index part of resolveBoardSquare).

  /** The 1-based column and row, counted from the top-left corner of the
      board as displayed, of the square with the given file and rank: the
      board shows rank 8 on top for white and is turned round for black. */
  function BoardIndex(file: int, rank: int, asBlack: Option<bool>): (idx: (int, int))
    requires 0 <= file < 8 && 0 <= rank < 8
    ensures 1 <= idx.0 <= 8 && 1 <= idx.1 <= 8
  {
    var fileIdx, rankIdx := file + 1, rank + 1;
    if asBlack == Some(true) then (8 - fileIdx + 1, rankIdx) else (fileIdx, 8 - rankIdx + 1)
  }

  /** White's view has the a-file on the left and rank 8 on top; black's
      view is white's turned by half a circle; distinct squares land on
      distinct cells. */
  lemma BoardIndexOrientation(file: int, rank: int, file': int, rank': int)
    requires 0 <= file < 8 && 0 <= rank < 8 && 0 <= file' < 8 && 0 <= rank' < 8
    ensures BoardIndex(file, rank, None) == (file + 1, 8 - rank)
    ensures BoardIndex(file, rank, Some(false)) == BoardIndex(file, rank, None)
    ensures var w := BoardIndex(file, rank, None);
      BoardIndex(file, rank, Some(true)) == (9 - w.0, 9 - w.1)
    ensures forall b :: (file, rank) != (file', rank') ==>
      BoardIndex(file, rank, b) != BoardIndex(file', rank', b)
  {
  }

  // ---------------------------------------------------------------------
  // Turn and confirmation predicates.

  /** waitTurn's test: the page's last move number (or -1 when there is
      none), plus one, has reached the agent's counter. */
  predicate TurnReady(last: Option<int>, moveNumber: Option<int>) {
    moveNumber.Some? && last.GetOr(-1) + 1 >= moveNumber.value
  }

  /** The move-confirmation test: the page's last move number has reached
      the agent's counter. */
  predicate MoveConfirmed(last: int, moveNumber: Option<int>) {
    moveNumber.Some? && last >= moveNumber.value
  }

  // ---------------------------------------------------------------------
  // The page-side wait of waitTurn, as a trace of page events.

  /** An event the page-side wait reacts to: a check of the last move (the
      immediate check, a "Move" listener call or the 5-second re-check),
      or the game-over hook firing. */
  datatype WaitEvent = Observe(last: Option<int>) | GameOverSignal

  /** What the wait sees: the last move when it starts, then the events
      that happen before the 4-minute ceiling. */
  datatype WaitView = WaitView(initialLast: Option<int>, events: seq<WaitEvent>)

  datatype Settlement = TurnArrived | GameOverRejected | TimedOut

  /** How the wait's promise settles on a trace of events; a trace that
      runs out is the 4-minute timer firing. */
  function Settle(moveNumber: Option<int>, events: seq<WaitEvent>): Settlement
  {
    if events == [] then TimedOut
    else match events[0]
      case GameOverSignal => GameOverRejected
      case Observe(last) =>
        if TurnReady(last, moveNumber) then TurnArrived else Settle(moveNumber, events[1..])
  }

  function WaitSettle(moveNumber: Option<int>, w: WaitView): Settlement {
    if TurnReady(w.initialLast, moveNumber) then TurnArrived else Settle(moveNumber, w.events)
  }

  /** Event `i` is a check that finds the turn ready. */
  predicate ReadyAt(moveNumber: Option<int>, events: seq<WaitEvent>, i: int) {
    0 <= i < |events| && events[i].Observe? && TurnReady(events[i].last, moveNumber)
  }

  /** Nothing before event `i` settles the wait. */
  predicate UnsettledBefore(moveNumber: Option<int>, events: seq<WaitEvent>, i: int)
    requires 0 <= i <= |events|
  {
    forall k :: 0 <= k < i ==> events[k].Observe? && !TurnReady(events[k].last, moveNumber)
  }

  /** The wait resolves exactly when some check finds the turn ready before
      any game-over signal, and rejects with "GAMEOVER" exactly when the
      signal comes first. */
  lemma SettleCharacterised(moveNumber: Option<int>, events: seq<WaitEvent>)
    ensures Settle(moveNumber, events) == TurnArrived <==>
      exists i :: ReadyAt(moveNumber, events, i) && UnsettledBefore(moveNumber, events, i)
    ensures Settle(moveNumber, events) == GameOverRejected <==>
      exists i :: 0 <= i < |events| && events[i].GameOverSignal? && UnsettledBefore(moveNumber, events, i)
  {
    SettleArrived(moveNumber, events);
    SettleGameOver(moveNumber, events);
  }

  /** Past a first check that does not find the turn ready, the events
      before `i + 1` settle nothing exactly when those of the rest before
      `i` settle nothing. */
  lemma UnsettledShift(moveNumber: Option<int>, events: seq<WaitEvent>, i: int)
    requires events != [] && events[0].Observe? && !TurnReady(events[0].last, moveNumber)
    requires 0 <= i < |events|
    ensures UnsettledBefore(moveNumber, events, i + 1) <==> UnsettledBefore(moveNumber, events[1..], i)
  {
    var rest := events[1..];
    if UnsettledBefore(moveNumber, rest, i) {
      forall k | 0 <= k < i + 1
        ensures events[k].Observe? && !TurnReady(events[k].last, moveNumber)
      {
        if k > 0 {
          assert events[k] == rest[k - 1];
        }
      }
    }
    if UnsettledBefore(moveNumber, events, i + 1) {
      forall k | 0 <= k < i
        ensures rest[k].Observe? && !TurnReady(rest[k].last, moveNumber)
      {
        assert rest[k] == events[k + 1];
      }
    }
  }

  /** The TurnArrived half of `SettleCharacterised`. */
  lemma {:induction false} SettleArrived(moveNumber: Option<int>, events: seq<WaitEvent>)
    ensures Settle(moveNumber, events) == TurnArrived <==>
      exists i :: ReadyAt(moveNumber, events, i) && UnsettledBefore(moveNumber, events, i)
  {
    if events == [] {
    } else if events[0].Observe? && !TurnReady(events[0].last, moveNumber) {
      var rest := events[1..];
      SettleArrived(moveNumber, rest);
      if exists i :: ReadyAt(moveNumber, events, i) && UnsettledBefore(moveNumber, events, i) {
        var i :| ReadyAt(moveNumber, events, i) && UnsettledBefore(moveNumber, events, i);
        UnsettledShift(moveNumber, events, i - 1);
        assert ReadyAt(moveNumber, rest, i - 1);
      }
      if exists i :: ReadyAt(moveNumber, rest, i) && UnsettledBefore(moveNumber, rest, i) {
        var i :| ReadyAt(moveNumber, rest, i) && UnsettledBefore(moveNumber, rest, i);
        UnsettledShift(moveNumber, events, i);
        assert ReadyAt(moveNumber, events, i + 1);
      }
    } else if events[0].Observe? {
      assert ReadyAt(moveNumber, events, 0) && UnsettledBefore(moveNumber, events, 0);
    } else {
      forall i | ReadyAt(moveNumber, events, i)
        ensures !UnsettledBefore(moveNumber, events, i)
      {
        assert i != 0;
      }
    }
  }

  /** The GameOverRejected half of `SettleCharacterised`. */
  lemma {:induction false} SettleGameOver(moveNumber: Option<int>, events: seq<WaitEvent>)
    ensures Settle(moveNumber, events) == GameOverRejected <==>
      exists i :: 0 <= i < |events| && events[i].GameOverSignal? && UnsettledBefore(moveNumber, events, i)
  {
    if events == [] {
    } else if events[0].Observe? && !TurnReady(events[0].last, moveNumber) {
      var rest := events[1..];
      SettleGameOver(moveNumber, rest);
      if exists i :: 0 <= i < |events| && events[i].GameOverSignal? && UnsettledBefore(moveNumber, events, i) {
        var i :| 0 <= i < |events| && events[i].GameOverSignal? && UnsettledBefore(moveNumber, events, i);
        UnsettledShift(moveNumber, events, i - 1);
        assert rest[i - 1].GameOverSignal?;
      }
      if exists i :: 0 <= i < |rest| && rest[i].GameOverSignal? && UnsettledBefore(moveNumber, rest, i) {
        var i :| 0 <= i < |rest| && rest[i].GameOverSignal? && UnsettledBefore(moveNumber, rest, i);
        UnsettledShift(moveNumber, events, i);
        assert events[i + 1].GameOverSignal?;
      }
    } else if events[0].Observe? {
      forall i | 0 <= i < |events| && events[i].GameOverSignal?
        ensures !UnsettledBefore(moveNumber, events, i)
      {
        assert i != 0;
      }
    } else {
      assert events[0].GameOverSignal? && UnsettledBefore(moveNumber, events, 0);
    }
  }

  // ---------------------------------------------------------------------
  // The page-side confirmation of a drag, and the one-reload retry.

  /** What a drag attempt sees once the pointer events are dispatched:
      whether the promotion piece could be clicked, the last move numbers
      reported to the "Move" listener, and the last move number when the
      5-second timer fires (`None` when the game has no last move yet). */
  datatype DragView = DragView(promotionClicked: bool, observed: seq<int>, atDeadline: Option<int>)

  /** How one drag attempt ends. `NeverSettles`: the timer callback read
      the number of a last move that does not exist, so it threw inside the
      page and the attempt's promise was left pending. */
  datatype AttemptResult = Confirmed | TimedOutAttempt | NeverSettles | AttemptFailed(cause: AgentError)

  /** Some move number reported to the "Move" listener reaches the counter. */
  predicate ListenerConfirms(d: DragView, moveNumber: Option<int>) {
    exists i :: 0 <= i < |d.observed| && MoveConfirmed(d.observed[i], moveNumber)
  }

  /** One tryMoveBySquare attempt: confirmed when some reported move number,
      or the one seen at the deadline, reaches the counter; rejected with
      -1 when the deadline sees a last move short of it; never settled
      when the deadline finds no last move at all; failed when the board,
      the square evaluation or the promotion click fails. */
  function Attempt(moveNumber: Option<int>, promoting: bool, a: BoardAccess<DragView>): (r: AttemptResult)
    ensures r == Confirmed <==>
      && a.Board? && moveNumber.Some? && (!promoting || a.view.promotionClicked)
      && (ListenerConfirms(a.view, moveNumber)
          || (a.view.atDeadline.Some? && MoveConfirmed(a.view.atDeadline.value, moveNumber)))
    ensures r == NeverSettles <==>
      && a.Board? && (!promoting || a.view.promotionClicked)
      && !ListenerConfirms(a.view, moveNumber) && a.view.atDeadline.None?
    ensures r == TimedOutAttempt <==>
      && a.Board? && (!promoting || a.view.promotionClicked)
      && !ListenerConfirms(a.view, moveNumber)
      && a.view.atDeadline.Some? && !MoveConfirmed(a.view.atDeadline.value, moveNumber)
    ensures r.AttemptFailed? <==> !a.Board? || (promoting && !a.view.promotionClicked)
  {
    match a
    case NoBoard => AttemptFailed(BoardNotFound)
    case EvalError => AttemptFailed(PageFailure)
    case Board(d) =>
      if promoting && !d.promotionClicked then AttemptFailed(PageFailure)
      else if ListenerConfirms(d, moveNumber) then Confirmed
      else match d.atDeadline
        case None => NeverSettles
        case Some(last) => if MoveConfirmed(last, moveNumber) then Confirmed else TimedOutAttempt
  }

  datatype TryOutcome = MoveDone | MoveRejected(cause: AgentError) | ReloadFailed | MoveStalled

  /** tryMoveBySquare: a timed-out first attempt reloads the page and tries
      once more with `reloaded` set; the retry sees the `retry` view. */
  function TryMove(moveNumber: Option<int>, promoting: bool, reloaded: bool,
                   first: BoardAccess<DragView>, reloadOk: bool, retry: BoardAccess<DragView>): TryOutcome
    decreases if reloaded then 0 else 1
  {
    match Attempt(moveNumber, promoting, first)
    case Confirmed => MoveDone
    case AttemptFailed(cause) => MoveRejected(cause)
    case NeverSettles => MoveStalled
    case TimedOutAttempt =>
      if reloaded then MoveRejected(MoveTimedOut)
      else if !reloadOk then ReloadFailed
      else TryMove(moveNumber, promoting, true, retry, reloadOk, retry)
  }

  /** The retry is attempted at most once: the move is done exactly when the
      first attempt is confirmed, or it timed out, the reload worked and the
      second attempt is confirmed; a second time-out is MoveTimedOut; an
      attempt whose deadline finds no last move leaves the move hanging,
      without a reload. */
  lemma TryMoveRetriesOnce(moveNumber: Option<int>, promoting: bool,
                           first: BoardAccess<DragView>, reloadOk: bool, retry: BoardAccess<DragView>)
    ensures var r := TryMove(moveNumber, promoting, false, first, reloadOk, retry);
      var a1, a2 := Attempt(moveNumber, promoting, first), Attempt(moveNumber, promoting, retry);
      && (r == MoveDone <==> a1 == Confirmed || (a1 == TimedOutAttempt && reloadOk && a2 == Confirmed))
      && (r == ReloadFailed <==> a1 == TimedOutAttempt && !reloadOk)
      && (r == MoveRejected(MoveTimedOut) <==> a1 == TimedOutAttempt && reloadOk && a2 == TimedOutAttempt)
      && (r == MoveStalled <==> a1 == NeverSettles || (a1 == TimedOutAttempt && reloadOk && a2 == NeverSettles))
      && (a1 != TimedOutAttempt ==> r == TryMove(moveNumber, promoting, true, first, reloadOk, retry))
  {
  }

  // ---------------------------------------------------------------------
  // Move resolution (evalMove).

  /** The groups of the move grammar's match: the matched text, the piece
      letter, the origin fragment, the destination, the destination of a
      pawn promotion, and the promotion piece. */
  datatype MoveMatch = MoveMatch(
    text: string,
    piece: Option<PieceNotation>,
    origin: Option<string>,
    dest: Option<string>,
    promotionDest: Option<string>,
    promoteTo: Option<PieceNotation>)

  /** A piece as the page's game object lists it. */
  datatype PagePiece = PagePiece(kind: PieceNotation, colour: Colour, square: string)

  /** The part of the page's game object the resolver queries. */
  datatype GameSnapshot = GameSnapshot(
    pieces: seq<PagePiece>,
    legal: map<string, seq<string>>,
    playingAs: Option<Colour>)

  /** `getLegalMovesForSquare`: the destinations of the piece on `sq`. */
  function LegalFrom(g: GameSnapshot, sq: string): seq<string> {
    if sq in g.legal then g.legal[sq] else []
  }

  /** A piece the resolver keeps: of the right type and colour, with `to`
      among its legal destinations (an undefined `to` is never included). */
  predicate IsCandidate(g: GameSnapshot, pc: PagePiece, piece: PieceNotation, to: Option<string>, colour: Colour) {
    pc.kind == piece && to.Some? && to.value in LegalFrom(g, pc.square) && pc.colour == colour
  }

  /** The candidates among `ps`, in the order the page lists them. */
  function Candidates(g: GameSnapshot, ps: seq<PagePiece>, piece: PieceNotation, to: Option<string>, colour: Colour): seq<PagePiece>
  {
    if ps == [] then []
    else
      var rest := Candidates(g, ps[..|ps| - 1], piece, to, colour);
      if IsCandidate(g, ps[|ps| - 1], piece, to, colour) then rest + [ps[|ps| - 1]] else rest
  }

  /** The candidates are exactly the listed pieces that qualify. */
  lemma {:induction false} CandidatesExactly(g: GameSnapshot, ps: seq<PagePiece>, piece: PieceNotation, to: Option<string>, colour: Colour)
    ensures forall pc :: pc in Candidates(g, ps, piece, to, colour) <==> pc in ps && IsCandidate(g, pc, piece, to, colour)
    ensures |Candidates(g, ps, piece, to, colour)| <= |ps|
  {
    if ps != [] {
      var init := ps[..|ps| - 1];
      CandidatesExactly(g, init, piece, to, colour);
      assert ps == init + [ps[|ps| - 1]];
    }
  }

  /** The disambiguation filter: keep the candidates whose square contains
      the origin fragment. An undefined fragment is converted to the text
      "undefined" by `String.prototype.includes`. */
  function OriginFilter(cands: seq<PagePiece>, origin: Option<string>): (r: seq<PagePiece>)
    ensures |r| <= |cands|
    ensures forall pc :: pc in r <==> pc in cands && Includes(pc.square, origin.GetOr("undefined"))
    ensures (forall pc :: pc in cands ==> !Includes(pc.square, origin.GetOr("undefined"))) ==> r == []
  {
    if cands == [] then []
    else
      var rest := OriginFilter(cands[1..], origin);
      assert forall pc :: pc in cands <==> pc == cands[0] || pc in cands[1..];
      if Includes(cands[0].square, origin.GetOr("undefined")) then [cands[0]] + rest else rest
  }

  /** The page-side closure of evalMove: the origin square of the one piece
      that can make the move. */
  function SelectOrigin(g: GameSnapshot, piece: PieceNotation, origin: Option<string>, to: Option<string>): (r: Result<string, AgentError>)
  {
    match g.playingAs
    case None => Failure(PageFailure)
    case Some(colour) =>
      var legalPieces := Candidates(g, g.pieces, piece, to, colour);
      if |legalPieces| == 0 then Failure(NoPiece)
      else if 1 < |legalPieces| then
        var narrowed := OriginFilter(legalPieces, origin);
        if |narrowed| == 0 then Failure(NoPiece)
        else if 1 < |narrowed| then Failure(Ambiguous)
        else Success(narrowed[0].square)
      else Success(legalPieces[0].square)
  }

  /** What the resolver answers: a success names a piece of the agent's
      colour and type that can reach `to`, and that is the only candidate or
      the only one whose square contains the origin fragment; NoPiece means
      no candidate (or none left after the fragment); Ambiguous means
      several left after it. */
  lemma SelectOriginSound(g: GameSnapshot, piece: PieceNotation, origin: Option<string>, to: Option<string>)
    requires g.playingAs.Some?
    ensures var r := SelectOrigin(g, piece, origin, to);
      var cands := Candidates(g, g.pieces, piece, to, g.playingAs.value);
      && (r.Success? ==> exists pc :: pc in g.pieces && IsCandidate(g, pc, piece, to, g.playingAs.value) && pc.square == r.value)
      && (r.Success? && |cands| > 1 ==> Includes(r.value, origin.GetOr("undefined")))
      && (r == Failure(NoPiece) <==> |cands| == 0 || (|cands| > 1 && |OriginFilter(cands, origin)| == 0))
      && (r == Failure(Ambiguous) <==> |cands| > 1 && |OriginFilter(cands, origin)| > 1)
  {
    var colour := g.playingAs.value;
    var cands := Candidates(g, g.pieces, piece, to, colour);
    CandidatesExactly(g, g.pieces, piece, to, colour);
    if |cands| > 1 {
      var narrowed := OriginFilter(cands, origin);
      if |narrowed| == 1 {
        assert narrowed[0] in narrowed;
      }
    } else if |cands| == 1 {
      assert cands[0] in cands;
    }
  }

  /** With several candidates and no origin fragment the filter searches
      the squares for the text "undefined", finds nothing, and the move is
      reported as NoPiece rather than Ambiguous. */
  lemma NoFragmentReportsNoPiece(g: GameSnapshot, piece: PieceNotation, to: Option<string>)
    requires g.playingAs.Some?
    requires forall pc :: pc in g.pieces ==> |pc.square| == 2
    requires |Candidates(g, g.pieces, piece, to, g.playingAs.value)| > 1
    ensures SelectOrigin(g, piece, None, to) == Failure(NoPiece)
  {
    var cands := Candidates(g, g.pieces, piece, to, g.playingAs.value);
    CandidatesExactly(g, g.pieces, piece, to, g.playingAs.value);
    forall pc | pc in cands
      ensures !Includes(pc.square, None.GetOr("undefined"))
    {
      assert |"undefined"| == 9;
    }
    assert OriginFilter(cands, None) == [];
  }

  /** A single candidate is taken whatever the origin fragment says. */
  lemma SingleCandidateIgnoresOrigin(g: GameSnapshot, piece: PieceNotation, origin: Option<string>, origin': Option<string>, to: Option<string>)
    requires g.playingAs.Some?
    requires |Candidates(g, g.pieces, piece, to, g.playingAs.value)| == 1
    ensures SelectOrigin(g, piece, origin, to) == SelectOrigin(g, piece, origin', to)
    ensures SelectOrigin(g, piece, origin, to).Success?
  {
  }

  // ---------------------------------------------------------------------
  // Castling.

  datatype CastleKind = KingSide | QueenSide

  /** `o-o-o` when splitting the move on "-" gives at least three parts. */
  function CastleKindOf(text: string): CastleKind {
    if SplitLength(text, '-') >= 3 then QueenSide else KingSide
  }

  predicate IsCastling(m: MoveMatch) {
    StartsWith(Lower(m.text), "o-o")
  }

  /** The fixed castling table: the king's origin and destination squares. */
  function CastleTable(kind: CastleKind, black: bool): (squares: (string, string))
    ensures FromNotation(squares.0).Success? && FromNotation(squares.1).Success?
    ensures var from, to := FromNotation(squares.0).value, FromNotation(squares.1).value;
      && from.fileIdx == 4
      && from.rankIdx == to.rankIdx == (if black then 7 else 0)
      && to.fileIdx == (if kind == KingSide then 6 else 2)
  {
    match kind
    case KingSide =>
      if black then CastleSquare("e8", Square(4, 7)); CastleSquare("g8", Square(6, 7)); ("e8", "g8")
      else CastleSquare("e1", Square(4, 0)); CastleSquare("g1", Square(6, 0)); ("e1", "g1")
    case QueenSide =>
      if black then CastleSquare("e8", Square(4, 7)); CastleSquare("c8", Square(2, 7)); ("e8", "c8")
      else CastleSquare("e1", Square(4, 0)); CastleSquare("c1", Square(2, 0)); ("e1", "c1")
  }

  /** A table entry parses to the square it names. */
  lemma CastleSquare(s: string, sq: Square)
    requires sq.Notation() == s
    ensures FromNotation(s) == Success(sq)
  {
    NotationRoundTrip(sq);
  }

  /** The two castling notations pick the two table rows. */
  lemma CastleKinds()
    ensures CastleKindOf("o-o") == KingSide
    ensures CastleKindOf("o-o-o") == QueenSide
  {
    assert "o-o"[1..] == "-o" && "-o"[1..] == "o";
    assert "o-o-o"[1..] == "-o-o" && "-o-o"[1..] == "o-o";
  }

  // ---------------------------------------------------------------------
  // Promotion.

  /** A promotion is required when the grammar matched a promotion group,
      or a pawn moves to a square whose rank digit is "8"; rank "1" is not
      checked. */
  predicate PromotionRequired(promotionGroup: bool, piece: PieceNotation, to: Square) {
    promotionGroup || (piece == Pawn && to.RankNotation() == "8")
  }

  /** A pawn reaching the last rank needs a promotion piece exactly when
      that rank is the eighth: a black pawn reaching rank 1 without a
      promotion group does not. */
  lemma PromotionRankEightOnly(to: Square)
    ensures PromotionRequired(false, Pawn, to) <==> to.rankIdx == 7
    ensures forall p :: p != Pawn ==> !PromotionRequired(false, p, to)
  {
    if to.rankIdx == 7 {
      assert to.RankNotation() == "8";
    }
  }

  // ---------------------------------------------------------------------
  // History queries.

  /** JavaScript's `%`: the remainder takes the sign of the dividend. */
  function JsRem(a: int, b: int): (r: int)
    requires b > 0
    ensures -b < r < b
    ensures r == 0 || (r < 0 <==> a < 0)
    ensures (a - r) % b == 0
  {
    if a < 0 then
      var q, m := (-a) / b, (-a) % b;
      assert a + m == (-q) * b;
      MultipleRem(-q, b);
      -m
    else
      var q, m := a / b, a % b;
      assert a - m == q * b;
      MultipleRem(q, b);
      m
  }

  /** A multiple of `b` leaves no remainder. */
  lemma MultipleRem(k: int, b: int)
    requires b > 0
    ensures (k * b) % b == 0
  {
    var x := k * b;
    var c := k - x / b;
    assert x == (x / b) * b + x % b;
    assert c * b == k * b - (x / b) * b;
    assert c * b == x % b;
  }


  /** `lastMove`: the most recent ply of the history, lower-cased, or "". */
  function LastMove(history: seq<string>): (r: string)
    ensures history != [] ==> r == Lower(history[|history| - 1])
    ensures history == [] ==> r == ""
  {
    if |history| > 0 then Lower(history[|history| - 1]) else ""
  }

  /** The index `agentLastMove` reads: starting from the last index, one
      step back when its parity belongs to the opponent. */
  function AgentLastIndex(length: nat, black: bool): (i: int)
    ensures length - 2 <= i < length
    ensures i >= 0 ==> i % 2 == (if black then 1 else 0)
    ensures forall k :: i < k < length ==> k % 2 != (if black then 1 else 0)
  {
    var last := length - 1;
    if (black && JsRem(last, 2) == 0) || (!black && JsRem(last, 2) == 1) then last - 1 else last
  }

  /** `agentLastMove`: the agent's own most recent ply (white plays the even
      indices, black the odd ones), lower-cased, or "" when it has none. */
  function AgentLastMove(history: seq<string>, black: bool): (r: string)
  {
    var last := AgentLastIndex(|history|, black);
    if last >= 0 then Lower(history[last]) else ""
  }

  /** Index `k` is a ply of the agent's colour and no later ply is. */
  predicate IsLastOwnPly(history: seq<string>, black: bool, k: int) {
    && 0 <= k < |history|
    && k % 2 == (if black then 1 else 0)
    && forall j :: k < j < |history| ==> j % 2 != (if black then 1 else 0)
  }

  /** The agent's last move is the last ply of the history with the agent's
      parity (white plays the even indices, black the odd ones), and empty
      when no ply has that parity. */
  lemma AgentLastMoveIsOwnPly(history: seq<string>, black: bool)
    ensures (forall k :: 0 <= k < |history| ==> k % 2 != (if black then 1 else 0))
      ==> AgentLastMove(history, black) == ""
    ensures forall k :: IsLastOwnPly(history, black, k) ==> AgentLastMove(history, black) == Lower(history[k])
  {
    var i := AgentLastIndex(|history|, black);
    forall k | IsLastOwnPly(history, black, k)
      ensures AgentLastMove(history, black) == Lower(history[k])
    {
      assert k == i;
    }
  }

  // ---------------------------------------------------------------------
  // Specifications of the state-changing operations, over the fields.

  /** `agentMoveNumber += 2`; undefined stays undefined (NaN). */
  function Advance(moveNumber: Option<int>): (r: Option<int>)
    ensures moveNumber.Some? <==> r.Some?
    ensures moveNumber.Some? ==> r.value == moveNumber.value + 2
  {
    match moveNumber
    case None => None
    case Some(n) => Some(n + 2)
  }

  /** waitTurn. */
  function WaitTurnSpec(f: Fields, page: BoardAccess<WaitView>): (Fields, Result<AgentState, AgentError>)
  {
    if f.playing == PlayState.NotPlaying then (f, Failure(AgentError.NotPlaying))
    else match page
      case NoBoard => (f.(state := BrowserPageOutOfReach), Failure(BoardNotFound))
      case EvalError => (f.(state := BrowserPageOutOfReach), Failure(PageFailure))
      case Board(w) =>
        match WaitSettle(f.moveNumber, w)
        case TurnArrived => (f.(state := TakingTurn), Success(TakingTurn))
        case GameOverRejected => (f.(state := Idle), Success(Idle))
        case TimedOut => (f.(state := BrowserPageOutOfReach), Failure(WaitTimedOut))
  }

  /** The guard shared by evalMove and moveBySquare: unless the agent is
      already taking its turn, wait for it, and give up unless the wait
      settles on TakingTurn. */
  function EnsureTurn(f: Fields, wait: BoardAccess<WaitView>): (Fields, Result<AgentState, AgentError>)
  {
    if f.state == TakingTurn then (f, Success(TakingTurn))
    else
      var (f1, w) := WaitTurnSpec(f, wait);
      if w.Failure? then (f1, w)
      else if w.value != TakingTurn then (f1, Failure(CouldNotMove(w.value)))
      else (f1, w)
  }

  /** What evalMove resolves a move to. */
  datatype Resolved = Resolved(from: Square, to: Square, promoteTo: Option<PieceNotation>)

  function LowerOpt(s: Option<string>): Option<string> {
    match s
    case None => None
    case Some(v) => Some(Lower(v))
  }

  /** The destination group: the plain destination, else the promotion's. */
  function Destination(m: MoveMatch): Option<string> {
    if m.dest.Some? then LowerOpt(m.dest) else LowerOpt(m.promotionDest)
  }

  /** The body of evalMove after the wait for the turn: `m` is the grammar's
      match (`None` when it does not match), `query` what the page-side
      resolver sees. */
  function ResolveSpec(f: Fields, m: Option<MoveMatch>, query: BoardAccess<GameSnapshot>): (Fields, Result<Resolved, AgentError>)
  {
    match m
    case None => (f, Failure(InvalidNotation))
    case Some(mm) =>
      if IsCastling(mm) then
        match f.asBlack
        case None => (f, Failure(InvalidNotation))
        case Some(black) =>
          var squares := CastleTable(CastleKindOf(Lower(mm.text)), black);
          (f, Success(Resolved(FromNotation(squares.0).value, FromNotation(squares.1).value, None)))
      else
        var piece := mm.piece.GetOr(Pawn);
        var to := Destination(mm);
        match query
        case NoBoard => (f.(state := BrowserPageOutOfReach), Failure(BoardNotFound))
        case EvalError => (f.(state := BrowserPageOutOfReach), Failure(PageFailure))
        case Board(g) =>
          match SelectOrigin(g, piece, LowerOpt(mm.origin), to)
          case Failure(e) => (f.(state := BrowserPageOutOfReach), Failure(e))
          case Success(fromSquare) =>
            var fromSq, toSq := FromNotation(fromSquare), FromNotation(to.GetOr(""));
            if fromSq.Failure? || toSq.Failure? then (f.(state := BrowserPageOutOfReach), Failure(PageFailure))
            else if PromotionRequired(mm.promotionDest.Some?, piece, toSq.value) && mm.promoteTo.None? then
              (f.(state := BrowserPageOutOfReach), Failure(PromotionUnspecified))
            else (f, Success(Resolved(fromSq.value, toSq.value, mm.promoteTo)))
  }

  /** evalMove. */
  function EvalMoveSpec(f: Fields, m: Option<MoveMatch>, wait: BoardAccess<WaitView>, query: BoardAccess<GameSnapshot>): (Fields, Result<Resolved, AgentError>)
  {
    var (f1, w) := EnsureTurn(f, wait);
    if w.Failure? then (f1, Failure(w.error)) else ResolveSpec(f1, m, query)
  }

  /** moveBySquare (its squares only place the pointer, so they do not
      appear here). */
  function MoveBySquareSpec(f: Fields, promoteTo: Option<PieceNotation>, wait: BoardAccess<WaitView>,
                            first: BoardAccess<DragView>, reloadOk: bool, retry: BoardAccess<DragView>): (Fields, Result<AgentState, AgentError>)
  {
    if f.playing == PlayState.NotPlaying then (f, Failure(AgentError.NotPlaying))
    else
      var (f1, w) := EnsureTurn(f, wait);
      if w.Failure? then (f1, Failure(w.error))
      else match TryMove(f1.moveNumber, promoteTo.Some?, false, first, reloadOk, retry)
        case MoveDone => (f1.(moveNumber := Advance(f1.moveNumber), state := MovedWaitingTurn), Success(MovedWaitingTurn))
        case MoveRejected(cause) => (f1.(state := MovedIllegal), Failure(cause))
        case ReloadFailed => (f1, Failure(ReloadFailure))
        case MoveStalled => (f1, Failure(DragNeverSettled))
  }

  /** move: resolve, then move by square. */
  function MoveSpec(f: Fields, m: Option<MoveMatch>, wait: BoardAccess<WaitView>, query: BoardAccess<GameSnapshot>,
                    first: BoardAccess<DragView>, reloadOk: bool, retry: BoardAccess<DragView>): (Fields, Result<AgentState, AgentError>)
  {
    var (f1, e) := EvalMoveSpec(f, m, wait, query);
    if e.Failure? then (f1, Failure(e.error))
    else MoveBySquareSpec(f1, e.value.promoteTo, wait, first, reloadOk, retry)
  }

  /** How a game start's browser steps end: a thrown value, or a started
      game with the colour the board reports. */
  datatype StartOutcome = StartAborted(error: StartError) | Started(asBlack: bool)

  /** The end of playComputer (`online` false) and playOnline (`online`
      true). */
  function StartSpec(f: Fields, outcome: StartOutcome, online: bool): (Fields, Result<AgentState, AgentError>)
  {
    match outcome
    case StartAborted(e) =>
      var state := if e.StateValue? then e.s else BrowserPageOutOfReach;
      (f.(state := state), Failure(StartFailed(e)))
    case Started(black) =>
      var state := if online && black then FirstWaitingTurn else TakingTurn;
      (Fields(state, AgainstComputer, Some(black), Some(if black then 1 else 0)), Success(state))
  }

  // ---------------------------------------------------------------------
  // Properties of the operations.

  /** waitTurn refuses when not playing and touches nothing else; it only
      ever assigns the state; it returns TakingTurn only when the page
      reported the turn ready before any game-over signal, and Idle only
      when the signal came first; every other failure leaves the agent
      BrowserPageOutOfReach. */
  lemma WaitTurnOutcomes(f: Fields, page: BoardAccess<WaitView>)
    ensures var (f1, r) := WaitTurnSpec(f, page);
      && (f.playing == PlayState.NotPlaying ==> f1 == f && r == Failure(AgentError.NotPlaying))
      && f1 == f.(state := f1.state)
      && (r == Success(TakingTurn) <==>
            f.playing != PlayState.NotPlaying && page.Board?
            && (TurnReady(page.view.initialLast, f.moveNumber)
                || exists i :: ReadyAt(f.moveNumber, page.view.events, i) && UnsettledBefore(f.moveNumber, page.view.events, i)))
      && (r == Success(Idle) ==>
            page.Board? && !TurnReady(page.view.initialLast, f.moveNumber)
            && exists i :: 0 <= i < |page.view.events| && page.view.events[i].GameOverSignal?
                 && UnsettledBefore(f.moveNumber, page.view.events, i))
      && (r.Success? ==> f1.state == r.value && (r.value == TakingTurn || r.value == Idle))
      && (r.Failure? && f.playing != PlayState.NotPlaying ==> f1.state == BrowserPageOutOfReach)
  {
    if page.Board? {
      SettleCharacterised(f.moveNumber, page.view.events);
    }
  }

  /** A successful moveBySquare: MovedWaitingTurn, the counter exactly 2
      higher, colour and play state kept. */
  lemma MoveBySquareSucceeds(f: Fields, promoteTo: Option<PieceNotation>, wait: BoardAccess<WaitView>,
                             first: BoardAccess<DragView>, reloadOk: bool, retry: BoardAccess<DragView>)
    ensures var (f1, r) := MoveBySquareSpec(f, promoteTo, wait, first, reloadOk, retry);
      r.Success? ==>
        && r.value == MovedWaitingTurn && f1.state == MovedWaitingTurn
        && f.moveNumber.Some? && f1.moveNumber == Some(f.moveNumber.value + 2)
        && f1.asBlack == f.asBlack && f1.playing == f.playing
  {
    EnsureTurnFrame(f, wait);
  }

  /** moveBySquare: refused when not playing; a success sets
      MovedWaitingTurn and raises the counter by exactly 2, and happens only
      when an attempt saw the page's move number reach the counter; once
      the turn is in hand, every failure other than a failed reload or a
      drag that never settles ends in MovedIllegal, and those two leave the
      agent's fields as they were. */
  lemma MoveBySquareOutcomes(f: Fields, promoteTo: Option<PieceNotation>, wait: BoardAccess<WaitView>,
                             first: BoardAccess<DragView>, reloadOk: bool, retry: BoardAccess<DragView>)
    ensures var (f1, r) := MoveBySquareSpec(f, promoteTo, wait, first, reloadOk, retry);
      && (f.playing == PlayState.NotPlaying ==> f1 == f && r == Failure(AgentError.NotPlaying))
      && f1.playing == f.playing && f1.asBlack == f.asBlack
      && (r.Success? ==>
            && r.value == MovedWaitingTurn && f1.state == MovedWaitingTurn
            && f.moveNumber.Some? && f1.moveNumber == Some(f.moveNumber.value + 2)
            && (Attempt(f.moveNumber, promoteTo.Some?, first) == Confirmed
                || (reloadOk && Attempt(f.moveNumber, promoteTo.Some?, retry) == Confirmed)))
      && (r.Failure? ==> f1.moveNumber == f.moveNumber)
      && (f.playing != PlayState.NotPlaying && f.state == TakingTurn && r.Failure? ==>
            (r.error != ReloadFailure && r.error != DragNeverSettled ==> f1.state == MovedIllegal))
      && (f.playing != PlayState.NotPlaying && f.state == TakingTurn ==>
            (r == Failure(ReloadFailure) || r == Failure(DragNeverSettled) ==> f1 == f))
      && (f.playing != PlayState.NotPlaying && f.state == TakingTurn && r == Failure(DragNeverSettled) ==>
            Attempt(f.moveNumber, promoteTo.Some?, first) == NeverSettles
            || (reloadOk && Attempt(f.moveNumber, promoteTo.Some?, retry) == NeverSettles))
      && (f.playing != PlayState.NotPlaying && f.state == TakingTurn && r == Failure(MoveTimedOut) ==>
            Attempt(f.moveNumber, promoteTo.Some?, first) == TimedOutAttempt && reloadOk
            && Attempt(f.moveNumber, promoteTo.Some?, retry) == TimedOutAttempt)
  {
    TryMoveRetriesOnce(f.moveNumber, promoteTo.Some?, first, reloadOk, retry);
  }

  /** The turn guard only ever assigns the state, and lets a caller
      through exactly when the agent is (now) taking its turn. */
  lemma EnsureTurnFrame(f: Fields, wait: BoardAccess<WaitView>)
    ensures var (f1, w) := EnsureTurn(f, wait);
      && f1 == f.(state := f1.state)
      && (w.Success? <==> f1.state == TakingTurn && (f.state == TakingTurn || f.playing != PlayState.NotPlaying))
  {
    WaitTurnOutcomes(f, wait);
  }

  /** Resolving a move only ever assigns the state: it succeeds, or fails
      on a notation it cannot read, without touching it; every failure of
      the page query or after it (including "no piece" and "ambiguous",
      which the board helper reports like any page error) leaves the agent
      BrowserPageOutOfReach. */
  lemma ResolveFrame(f: Fields, m: Option<MoveMatch>, query: BoardAccess<GameSnapshot>)
    ensures var (f1, r) := ResolveSpec(f, m, query);
      && f1 == f.(state := f1.state)
      && (r.Success? ==> f1 == f && m.Some?)
      && (r.Failure? && r.error != InvalidNotation ==> f1.state == BrowserPageOutOfReach)
      && (r.Failure? && r.error == InvalidNotation ==> f1 == f)
  {
  }

  /** evalMove is the turn guard followed by the resolution: it succeeds
      only with the agent taking its turn, and changes nothing but the
      state. */
  lemma EvalMoveFrame(f: Fields, m: Option<MoveMatch>, wait: BoardAccess<WaitView>, query: BoardAccess<GameSnapshot>)
    ensures var (f1, r) := EvalMoveSpec(f, m, wait, query);
      && f1 == f.(state := f1.state)
      && (r.Success? ==>
            f1.state == TakingTurn && m.Some? && r == ResolveSpec(f.(state := TakingTurn), m, query).1)
  {
    EnsureTurnFrame(f, wait);
    var (f0, w) := EnsureTurn(f, wait);
    if w.Success? {
      ResolveFrame(f0, m, query);
    }
  }

  /** The counter stays in step with the colour (0 or 1 when a game
      starts, then moved only by 2) across waitTurn, ... */
  lemma WaitTurnKeepsCounter(f: Fields, wait: BoardAccess<WaitView>)
    requires CounterInSync(f)
    ensures CounterInSync(WaitTurnSpec(f, wait).0)
  {
    WaitTurnOutcomes(f, wait);
  }

  /** ... evalMove, ... */
  lemma EvalMoveKeepsCounter(f: Fields, m: Option<MoveMatch>, wait: BoardAccess<WaitView>, query: BoardAccess<GameSnapshot>)
    requires CounterInSync(f)
    ensures CounterInSync(EvalMoveSpec(f, m, wait, query).0)
  {
    EvalMoveFrame(f, m, wait, query);
  }

  /** ... moveBySquare, ... */
  lemma MoveBySquareKeepsCounter(f: Fields, promoteTo: Option<PieceNotation>, wait: BoardAccess<WaitView>,
                                 first: BoardAccess<DragView>, reloadOk: bool, retry: BoardAccess<DragView>)
    requires CounterInSync(f)
    ensures CounterInSync(MoveBySquareSpec(f, promoteTo, wait, first, reloadOk, retry).0)
  {
    MoveBySquareOutcomes(f, promoteTo, wait, first, reloadOk, retry);
    EnsureTurnFrame(f, wait);
  }

  /** ... move, ... */
  lemma MoveKeepsCounter(f: Fields, m: Option<MoveMatch>, wait: BoardAccess<WaitView>, query: BoardAccess<GameSnapshot>,
                         first: BoardAccess<DragView>, reloadOk: bool, retry: BoardAccess<DragView>)
    requires CounterInSync(f)
    ensures CounterInSync(MoveSpec(f, m, wait, query, first, reloadOk, retry).0)
  {
    EvalMoveKeepsCounter(f, m, wait, query);
    var (f1, e) := EvalMoveSpec(f, m, wait, query);
    if e.Success? {
      MoveBySquareKeepsCounter(f1, e.value.promoteTo, wait, first, reloadOk, retry);
    }
  }

  /** ... and the start of a game, whatever held before. */
  lemma StartSetsCounter(f: Fields, outcome: StartOutcome, online: bool)
    requires CounterInSync(f)
    ensures CounterInSync(StartSpec(f, outcome, online).0)
    ensures outcome.Started? ==> StartSpec(f, outcome, online).0.moveNumber == Some(if outcome.asBlack then 1 else 0)
  {
  }

  /** A resolved castling gives the king's squares on the agent's back rank
      and no promotion. */
  lemma ResolveCastling(f: Fields, m: Option<MoveMatch>, query: BoardAccess<GameSnapshot>)
    requires m.Some? && IsCastling(m.value)
    ensures var r := ResolveSpec(f, m, query).1;
      && (r.Success? <==> f.asBlack.Some?)
      && (r.Success? ==>
            r.value.from.fileIdx == 4 && r.value.promoteTo.None?
            && r.value.from.rankIdx == r.value.to.rankIdx == (if f.asBlack.value then 7 else 0)
            && r.value.to.fileIdx == (if SplitLength(Lower(m.value.text), '-') >= 3 then 2 else 6))
  {
  }

  /** What any other resolved move means: the origin is the square of a
      piece of the agent's colour and of the named type (a pawn when none is
      named) that the page lists as able to reach the destination, the
      destination is the matched one, and a promotion piece is carried
      whenever one is required. */
  lemma ResolvePieceMove(f: Fields, m: Option<MoveMatch>, query: BoardAccess<GameSnapshot>)
    requires m.Some? && !IsCastling(m.value)
    ensures var r := ResolveSpec(f, m, query).1;
      var piece, to := m.value.piece.GetOr(Pawn), Destination(m.value);
      r.Success? ==>
        && query.Board? && query.view.playingAs.Some? && to.Some?
        && r.value.to.Notation() == Lower(Trim(to.value))
        && (exists pc :: pc in query.view.pieces
              && IsCandidate(query.view, pc, piece, to, query.view.playingAs.value)
              && FromNotation(pc.square) == Success(r.value.from))
        && r.value.promoteTo == m.value.promoteTo
        && (PromotionRequired(m.value.promotionDest.Some?, piece, r.value.to) ==> r.value.promoteTo.Some?)
  {
    var r := ResolveSpec(f, m, query).1;
    if r.Success? {
      var piece, to := m.value.piece.GetOr(Pawn), Destination(m.value);
      SelectOriginSound(query.view, piece, LowerOpt(m.value.origin), to);
    }
  }

  /** A successful move was resolved and then confirmed on the page: the
      agent now waits for its next turn and its counter has advanced by one
      full move; nothing else about the session changed. */
  lemma MoveOutcomes(f: Fields, m: Option<MoveMatch>, wait: BoardAccess<WaitView>, query: BoardAccess<GameSnapshot>,
                     first: BoardAccess<DragView>, reloadOk: bool, retry: BoardAccess<DragView>)
    ensures var (f1, r) := MoveSpec(f, m, wait, query, first, reloadOk, retry);
      r.Success? ==>
        && m.Some? && r.value == MovedWaitingTurn && f1.state == MovedWaitingTurn
        && f.moveNumber.Some? && f1.moveNumber == Some(f.moveNumber.value + 2)
        && f1.asBlack == f.asBlack && f1.playing == f.playing
  {
    var (f1, e) := EvalMoveSpec(f, m, wait, query);
    EvalMoveFrame(f, m, wait, query);
    if e.Success? {
      assert MoveSpec(f, m, wait, query, first, reloadOk, retry)
          == MoveBySquareSpec(f1, e.value.promoteTo, wait, first, reloadOk, retry);
      MoveBySquareSucceeds(f1, e.value.promoteTo, wait, first, reloadOk, retry);
    }
  }

}
