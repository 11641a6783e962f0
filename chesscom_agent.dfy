/** The latest chess.com agent (chaant/core/src/agents/chesscom/ChesscomAgent.ts)
    as an object: the page registry, the move listeners, and the operations
    that update the agent's fields in place. What the browser page shows is
    passed in as `BoardAccess` views; each state-changing method is proved
    to leave the fields as the matching specification function of
    AgentLogic says. */
module Chesscom {
  import opened Base
  import opened Text
  import opened Squares
  import opened AgentLogic

  /** A move listener, by identity (`indexOf` compares references). */
  type Listener = nat

  // ---------------------------------------------------------------------
  // The listener list.

  /** `Array.prototype.indexOf`: the first position of `x`, or -1. */
  function IndexOf(s: seq<Listener>, x: Listener): (i: int)
    ensures -1 <= i < |s|
    ensures i == -1 <==> x !in s
    ensures i >= 0 ==> s[i] == x && x !in s[..i]
  {
    if s == [] then -1
    else if s[0] == x then 0
    else
      var j := IndexOf(s[1..], x);
      if j == -1 then -1
      else
        assert s[..j + 1] == [s[0]] + s[1..][..j];
        j + 1
  }

  /** The list after `removeOnMove(x)`: `splice(indexOf(x), 1)` when found. */
  function RemoveFirst(s: seq<Listener>, x: Listener): seq<Listener> {
    var i := IndexOf(s, x);
    if i > -1 then s[..i] + s[i + 1..] else s
  }

  /** Removing a listener takes out exactly one occurrence, the first, and
      keeps the others in order; an absent listener leaves the list as it
      is. */
  lemma RemoveFirstTakesOneOccurrence(s: seq<Listener>, x: Listener)
    ensures x !in s ==> RemoveFirst(s, x) == s
    ensures x in s ==> multiset(RemoveFirst(s, x)) == multiset(s) - multiset{x}
    ensures x in s ==> exists i :: 0 <= i < |s| && s[i] == x && x !in s[..i] && RemoveFirst(s, x) == s[..i] + s[i + 1..]
  {
    if x in s {
      var i := IndexOf(s, x);
      assert s == s[..i] + [s[i]] + s[i + 1..];
      assert multiset(s) == multiset(s[..i]) + multiset{x} + multiset(s[i + 1..]);
    }
  }

  /** Adding a listener that was not registered and removing it again
      restores the list. */
  lemma {:induction false} AddThenRemove(s: seq<Listener>, x: Listener)
    requires x !in s
    ensures RemoveFirst(s + [x], x) == s
  {
    assert IndexOf(s + [x], x) == |s| by {
      assert (s + [x])[|s|] == x && (s + [x])[..|s|] == s;
    }
    assert (s + [x])[..|s|] == s;
  }

  // ---------------------------------------------------------------------
  // The page-side code, driven by what the page reports.

  /** The promise waitTurn evaluates in the page: the immediate check, then
      each event in order until one settles it. */
  method AwaitTurn(moveNumber: Option<int>, w: WaitView) returns (s: Settlement)
    ensures s == WaitSettle(moveNumber, w)
  {
    if TurnReady(w.initialLast, moveNumber) {
      return TurnArrived;
    }
    var i := 0;
    while i < |w.events|
      invariant 0 <= i <= |w.events|
      invariant Settle(moveNumber, w.events[i..]) == Settle(moveNumber, w.events)
    {
      assert w.events[i..][1..] == w.events[i + 1..];
      match w.events[i]
      case GameOverSignal =>
        return GameOverRejected;
      case Observe(last) =>
        if TurnReady(last, moveNumber) {
          return TurnArrived;
        }
      i := i + 1;
    }
    assert w.events[i..] == [];
    return TimedOut;
  }

  /** The drag tryMoveBySquare evaluates in the page: the promotion click,
      then the reports of the "Move" listener in order, then the check at
      the deadline, which throws inside the timer when the game has no last
      move. */
  method DragOnPage(moveNumber: Option<int>, promoting: bool, d: DragView) returns (r: AttemptResult)
    ensures r == Attempt(moveNumber, promoting, Board(d))
  {
    if promoting && !d.promotionClicked {
      return AttemptFailed(PageFailure);
    }
    var i := 0;
    while i < |d.observed|
      invariant 0 <= i <= |d.observed|
      invariant forall k :: 0 <= k < i ==> !MoveConfirmed(d.observed[k], moveNumber)
    {
      if MoveConfirmed(d.observed[i], moveNumber) {
        return Confirmed;
      }
      i := i + 1;
    }
    if d.atDeadline.None? {
      return NeverSettles;
    }
    r := if MoveConfirmed(d.atDeadline.value, moveNumber) then Confirmed else TimedOutAttempt;
  }

  /** The resolver evalMove evaluates in the page: collect the candidates
      with `forEach`, then narrow them by the origin fragment. */
  method ResolveOnPage(g: GameSnapshot, piece: PieceNotation, origin: Option<string>, to: Option<string>)
    returns (r: Result<string, AgentError>)
    ensures r == SelectOrigin(g, piece, origin, to)
  {
    if g.playingAs.None? {
      return Failure(PageFailure);
    }
    var colour := g.playingAs.value;
    var legalPieces: seq<PagePiece> := [];
    var i := 0;
    while i < |g.pieces|
      invariant 0 <= i <= |g.pieces|
      invariant legalPieces == Candidates(g, g.pieces[..i], piece, to, colour)
    {
      assert g.pieces[..i + 1][..i] == g.pieces[..i];
      if IsCandidate(g, g.pieces[i], piece, to, colour) {
        legalPieces := legalPieces + [g.pieces[i]];
      }
      i := i + 1;
    }
    assert g.pieces[..i] == g.pieces;
    if |legalPieces| == 0 {
      return Failure(NoPiece);
    }
    if 1 < |legalPieces| {
      legalPieces := OriginFilter(legalPieces, origin);
      if |legalPieces| == 0 {
        return Failure(NoPiece);
      }
      if 1 < |legalPieces| {
        return Failure(Ambiguous);
      }
    }
    return Success(legalPieces[0].square);
  }

  // ---------------------------------------------------------------------
  // The agent.

  class ChesscomAgent {
    const page: PageId
    const registry: PageRegistry
    var state: AgentState
    var playing: PlayState
    var asBlack: Option<bool>
    var agentMoveNumber: Option<int>
    var onMoves: seq<Listener>

    /** The fields the operations assign, as the specifications see them. */
    function Current(): Fields
      reads this
    {
      Fields(state, playing, asBlack, agentMoveNumber)
    }

    /** The body of the constructor once the page is known to be free. */
    constructor Attach(registry: PageRegistry, page: PageId)
      requires page !in registry.pages
      modifies registry
      ensures this.registry == registry && this.page == page
      ensures Current() == Fields(Idle, PlayState.NotPlaying, None, None) && onMoves == []
      ensures registry.pages == old(registry.pages) + {page}
    {
      this.page := page;
      this.registry := registry;
      state := Idle;
      playing := PlayState.NotPlaying;
      asBlack := None;
      agentMoveNumber := None;
      onMoves := [];
      new;
      registry.pages := registry.pages + {page};
    }

    /** `new ChesscomAgent(page)`: refused when the page already has an
        agent; otherwise a fresh idle agent, with the page registered. */
    static method Create(registry: PageRegistry, page: PageId) returns (r: Result<ChesscomAgent, AgentError>)
      modifies registry
      ensures old(page in registry.pages) ==> r == Failure(PageAlreadyAttached) && registry.pages == old(registry.pages)
      ensures old(page !in registry.pages) ==>
        && r.Success? && fresh(r.value) && r.value.registry == registry && r.value.page == page
        && r.value.Current() == Fields(Idle, PlayState.NotPlaying, None, None) && r.value.onMoves == []
        && registry.pages == old(registry.pages) + {page}
    {
      if page in registry.pages {
        return Failure(PageAlreadyAttached);
      }
      var agent := new ChesscomAgent.Attach(registry, page);
      return Success(agent);
    }

    /** `dispose`: releases the page; when closing the page succeeds the
        colour and the counter are deleted too. */
    method Dispose(closeOk: bool)
      modifies this, registry
      ensures registry.pages == old(registry.pages) - {page}
      ensures closeOk ==> asBlack == None && agentMoveNumber == None
      ensures !closeOk ==> asBlack == old(asBlack) && agentMoveNumber == old(agentMoveNumber)
      ensures state == old(state) && playing == old(playing) && onMoves == old(onMoves)
    {
      registry.pages := registry.pages - {page};
      if closeOk {
        asBlack := None;
        agentMoveNumber := None;
      }
    }

    method AddOnMove(listener: Listener)
      modifies this
      ensures onMoves == old(onMoves) + [listener]
      ensures Current() == old(Current())
    {
      onMoves := onMoves + [listener];
    }

    method RemoveOnMove(listener: Listener)
      modifies this
      ensures onMoves == RemoveFirst(old(onMoves), listener)
      ensures Current() == old(Current())
    {
      var idx := IndexOf(onMoves, listener);
      if idx > -1 {
        onMoves := onMoves[..idx] + onMoves[idx + 1..];
      }
    }

    /** The `blackOrWhite` getter. */
    function BlackOrWhite(): (r: Result<Colour, AgentError>)
      reads this
      ensures r.Failure? <==> asBlack.None?
      ensures r.Failure? ==> r.error == ColourUndefined
      ensures r.Success? ==> (r.value == Black <==> asBlack.value)
    {
      match asBlack
      case None => Failure(ColourUndefined)
      case Some(black) => Success(if black then Black else White)
    }

    /** The board indices `resolveBoardSquare` computes for a square. */
    function ResolveBoardIndex(sq: Square): (idx: (int, int))
      reads this
      ensures 1 <= idx.0 <= 8 && 1 <= idx.1 <= 8
    {
      BoardIndex(sq.fileIdx, sq.rankIdx, asBlack)
    }

    /** `waitTurn`, against what the page reports. */
    method WaitTurn(board: BoardAccess<WaitView>) returns (r: Result<AgentState, AgentError>)
      modifies this
      ensures Current() == WaitTurnSpec(old(Current()), board).0
      ensures r == WaitTurnSpec(old(Current()), board).1
      ensures onMoves == old(onMoves)
    {
      if playing == PlayState.NotPlaying {
        return Failure(AgentError.NotPlaying);
      }
      match board
      case NoBoard =>
        state := BrowserPageOutOfReach;
        return Failure(BoardNotFound);
      case EvalError =>
        state := BrowserPageOutOfReach;
        return Failure(PageFailure);
      case Board(w) =>
        var settled := AwaitTurn(agentMoveNumber, w);
        match settled
        case TurnArrived =>
          state := TakingTurn;
          return Success(TakingTurn);
        case GameOverRejected =>
          state := Idle;
          return Success(Idle);
        case TimedOut =>
          state := BrowserPageOutOfReach;
          return Failure(WaitTimedOut);
    }

    /** The guard at the head of evalMove and moveBySquare. */
    method GuardTurn(wait: BoardAccess<WaitView>) returns (r: Result<AgentState, AgentError>)
      modifies this
      ensures Current() == EnsureTurn(old(Current()), wait).0
      ensures r == EnsureTurn(old(Current()), wait).1
      ensures onMoves == old(onMoves)
    {
      if state == TakingTurn {
        return Success(TakingTurn);
      }
      r := WaitTurn(wait);
      if r.Success? && r.value != TakingTurn {
        r := Failure(CouldNotMove(r.value));
      }
    }

    /** evalMove after the guard: castling from the table, any other move
        through the page-side resolver and `Square.square`. */
    method Resolve(m: Option<MoveMatch>, query: BoardAccess<GameSnapshot>) returns (r: Result<Resolved, AgentError>)
      modifies this
      ensures Current() == ResolveSpec(old(Current()), m, query).0
      ensures r == ResolveSpec(old(Current()), m, query).1
      ensures onMoves == old(onMoves)
    {
      if m.None? {
        return Failure(InvalidNotation);
      }
      var mm := m.value;
      if IsCastling(mm) {
        if asBlack.None? {
          return Failure(InvalidNotation);
        }
        var squares := CastleTable(CastleKindOf(Lower(mm.text)), asBlack.value);
        return Success(Resolved(FromNotation(squares.0).value, FromNotation(squares.1).value, None));
      }
      var piece := mm.piece.GetOr(Pawn);
      var to := Destination(mm);
      match query
      case NoBoard =>
        state := BrowserPageOutOfReach;
        return Failure(BoardNotFound);
      case EvalError =>
        state := BrowserPageOutOfReach;
        return Failure(PageFailure);
      case Board(g) =>
        var selected := ResolveOnPage(g, piece, LowerOpt(mm.origin), to);
        if selected.Failure? {
          state := BrowserPageOutOfReach;
          return Failure(selected.error);
        }
        var fromSq, toSq := FromNotation(selected.value), FromNotation(to.GetOr(""));
        if fromSq.Failure? || toSq.Failure? {
          state := BrowserPageOutOfReach;
          return Failure(PageFailure);
        }
        if PromotionRequired(mm.promotionDest.Some?, piece, toSq.value) && mm.promoteTo.None? {
          state := BrowserPageOutOfReach;
          return Failure(PromotionUnspecified);
        }
        return Success(Resolved(fromSq.value, toSq.value, mm.promoteTo));
    }

    /** `evalMove`: `m` is the move grammar's match of the notation. */
    method EvalMove(m: Option<MoveMatch>, wait: BoardAccess<WaitView>, query: BoardAccess<GameSnapshot>)
      returns (r: Result<Resolved, AgentError>)
      modifies this
      ensures Current() == EvalMoveSpec(old(Current()), m, wait, query).0
      ensures r == EvalMoveSpec(old(Current()), m, wait, query).1
      ensures onMoves == old(onMoves)
    {
      var w := GuardTurn(wait);
      if w.Failure? {
        return Failure(w.error);
      }
      r := Resolve(m, query);
    }

    /** `tryMoveBySquare`: one drag; a time-out reloads the page and tries
        once more; any other unconfirmed end is MovedIllegal. */
    method TryMoveBySquare(promoting: bool, reloaded: bool, first: BoardAccess<DragView>, reloadOk: bool, retry: BoardAccess<DragView>)
      returns (t: TryOutcome)
      modifies this
      decreases if reloaded then 0 else 1
      ensures t == TryMove(old(agentMoveNumber), promoting, reloaded, first, reloadOk, retry)
      ensures Current() == old(Current()).(state := if t.MoveRejected? then MovedIllegal else old(state))
      ensures onMoves == old(onMoves)
    {
      var attempt: AttemptResult;
      match first {
        case NoBoard =>
          state := BrowserPageOutOfReach;
          attempt := AttemptFailed(BoardNotFound);
        case EvalError =>
          attempt := AttemptFailed(PageFailure);
        case Board(d) =>
          attempt := DragOnPage(agentMoveNumber, promoting, d);
      }
      match attempt
      case Confirmed =>
        return MoveDone;
      case NeverSettles =>
        return MoveStalled;
      case AttemptFailed(cause) =>
        state := MovedIllegal;
        return MoveRejected(cause);
      case TimedOutAttempt =>
        if reloaded {
          state := MovedIllegal;
          return MoveRejected(MoveTimedOut);
        }
        if !reloadOk {
          return ReloadFailed;
        }
        t := TryMoveBySquare(promoting, true, retry, reloadOk, retry);
    }

    /** `moveBySquare`. The squares only place the pointer, which the drag
        views stand for. */
    method MoveBySquare(promoteTo: Option<PieceNotation>, wait: BoardAccess<WaitView>,
                        first: BoardAccess<DragView>, reloadOk: bool, retry: BoardAccess<DragView>)
      returns (r: Result<AgentState, AgentError>)
      modifies this
      ensures Current() == MoveBySquareSpec(old(Current()), promoteTo, wait, first, reloadOk, retry).0
      ensures r == MoveBySquareSpec(old(Current()), promoteTo, wait, first, reloadOk, retry).1
      ensures onMoves == old(onMoves)
    {
      if playing == PlayState.NotPlaying {
        return Failure(AgentError.NotPlaying);
      }
      var w := GuardTurn(wait);
      if w.Failure? {
        return Failure(w.error);
      }
      var t := TryMoveBySquare(promoteTo.Some?, false, first, reloadOk, retry);
      match t
      case MoveDone =>
        agentMoveNumber := Advance(agentMoveNumber);
        state := MovedWaitingTurn;
        return Success(MovedWaitingTurn);
      case MoveRejected(cause) =>
        return Failure(cause);
      case ReloadFailed =>
        return Failure(ReloadFailure);
      case MoveStalled =>
        return Failure(DragNeverSettled);
    }

    /** `move`: resolve, move by square, and call the listeners, in order,
        only when the move was confirmed; `notified` lists the calls. */
    method Move(m: Option<MoveMatch>, wait: BoardAccess<WaitView>, query: BoardAccess<GameSnapshot>,
                first: BoardAccess<DragView>, reloadOk: bool, retry: BoardAccess<DragView>)
      returns (r: Result<AgentState, AgentError>, notified: seq<Listener>)
      modifies this
      ensures Current() == MoveSpec(old(Current()), m, wait, query, first, reloadOk, retry).0
      ensures r == MoveSpec(old(Current()), m, wait, query, first, reloadOk, retry).1
      ensures onMoves == old(onMoves)
      ensures notified == if r == Success(MovedWaitingTurn) then onMoves else []
    {
      var e := EvalMove(m, wait, query);
      if e.Failure? {
        return Failure(e.error), [];
      }
      r := MoveBySquare(e.value.promoteTo, wait, first, reloadOk, retry);
      notified := if r == Success(MovedWaitingTurn) then onMoves else [];
    }

    /** The end of `playComputer`: the browser steps' outcome decides. */
    method PlayComputer(outcome: StartOutcome) returns (r: Result<AgentState, AgentError>)
      modifies this
      ensures Current() == StartSpec(old(Current()), outcome, false).0
      ensures r == StartSpec(old(Current()), outcome, false).1
      ensures onMoves == old(onMoves)
    {
      r := Start(outcome, false);
    }

    /** The end of `playOnline` (behind playRapid, playBlitz, playBullet
        and playClassical). */
    method PlayOnline(outcome: StartOutcome) returns (r: Result<AgentState, AgentError>)
      modifies this
      ensures Current() == StartSpec(old(Current()), outcome, true).0
      ensures r == StartSpec(old(Current()), outcome, true).1
      ensures onMoves == old(onMoves)
    {
      r := Start(outcome, true);
    }

    method Start(outcome: StartOutcome, online: bool) returns (r: Result<AgentState, AgentError>)
      modifies this
      ensures Current() == StartSpec(old(Current()), outcome, online).0
      ensures r == StartSpec(old(Current()), outcome, online).1
      ensures onMoves == old(onMoves)
    {
      match outcome
      case StartAborted(e) =>
        state := if e.StateValue? then e.s else BrowserPageOutOfReach;
        return Failure(StartFailed(e));
      case Started(black) =>
        asBlack := Some(black);
        agentMoveNumber := Some(if black then 1 else 0);
        playing := AgainstComputer;
        state := if online && black then FirstWaitingTurn else TakingTurn;
        return Success(state);
    }

    /** What listenForGameOver does once the page reports the game over. */
    method CompleteGameOver()
      modifies this
      ensures Current() == old(Current()).(playing := PlayState.NotPlaying, state := Idle)
      ensures onMoves == old(onMoves)
    {
      playing := PlayState.NotPlaying;
      state := Idle;
    }

    /** listenForGameOver when its page-side wait fails: it listens again
        while playing on a chess.com page that still shows a board, and
        otherwise gives the page up. */
    method GameOverListenFailed(pageStillOnGame: bool) returns (relisten: bool)
      modifies this
      ensures relisten <==> old(playing) != PlayState.NotPlaying && pageStillOnGame
      ensures relisten ==> Current() == old(Current())
      ensures !relisten ==> Current() == old(Current()).(state := BrowserPageOutOfReach)
      ensures onMoves == old(onMoves)
    {
      relisten := playing != PlayState.NotPlaying && pageStillOnGame;
      if !relisten {
        state := BrowserPageOutOfReach;
      }
    }

    /** `fetchMoves`: the page's SAN history, `[]` when it has none; a
        failing board query leaves the agent out of reach. */
    method FetchMoves(history: BoardAccess<Option<seq<string>>>) returns (r: Result<seq<string>, AgentError>)
      modifies this
      ensures r.Success? <==> history.Board?
      ensures r.Success? ==> r.value == history.view.GetOr([]) && Current() == old(Current())
      ensures r.Failure? ==> Current() == old(Current()).(state := BrowserPageOutOfReach)
      ensures onMoves == old(onMoves)
    {
      match history
      case NoBoard =>
        state := BrowserPageOutOfReach;
        return Failure(BoardNotFound);
      case EvalError =>
        state := BrowserPageOutOfReach;
        return Failure(PageFailure);
      case Board(h) =>
        return Success(h.GetOr([]));
    }

    /** The `lastMove` getter. */
    method LastMove(history: BoardAccess<Option<seq<string>>>) returns (r: Result<string, AgentError>)
      modifies this
      ensures r.Success? <==> history.Board?
      ensures r.Success? ==> r.value == AgentLogic.LastMove(history.view.GetOr([])) && Current() == old(Current())
      ensures r.Failure? ==> Current() == old(Current()).(state := BrowserPageOutOfReach)
      ensures onMoves == old(onMoves)
    {
      var moves := FetchMoves(history);
      if moves.Failure? {
        return Failure(moves.error);
      }
      return Success(AgentLogic.LastMove(moves.value));
    }

    /** The `agentLastMove` getter: the colour is read after the history
        arrives, and its absence rejects without touching the state. */
    method AgentLastMove(history: BoardAccess<Option<seq<string>>>) returns (r: Result<string, AgentError>)
      modifies this
      ensures r.Success? <==> history.Board? && old(asBlack).Some?
      ensures r.Success? ==> r.value == AgentLogic.AgentLastMove(history.view.GetOr([]), old(asBlack).value)
      ensures history.Board? ==> Current() == old(Current())
      ensures !history.Board? ==> Current() == old(Current()).(state := BrowserPageOutOfReach)
      ensures onMoves == old(onMoves)
    {
      var moves := FetchMoves(history);
      if moves.Failure? {
        return Failure(moves.error);
      }
      var colour := BlackOrWhite();
      if colour.Failure? {
        return Failure(colour.error);
      }
      return Success(AgentLogic.AgentLastMove(moves.value, colour.value == Black));
    }
  }
}
