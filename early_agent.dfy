/** The earlier revision of the chess.com agent
    (src/agents/chesscom/ChesscomAgent.ts): the same page registry and
    board flip, a `move` that drags without waiting for a turn or counting
    moves, and a `playComputer` whose failure handler raises a TypeError
    of its own. */
module ChesscomEarly {
  import opened Base
  import opened Squares
  import opened AgentLogic

  class ChesscomAgent {
    const page: PageId
    const registry: PageRegistry
    var state: AgentState
    var playing: PlayState
    var asBlack: Option<bool>

    constructor Attach(registry: PageRegistry, page: PageId)
      requires page !in registry.pages
      modifies registry
      ensures this.registry == registry && this.page == page
      ensures state == Idle && playing == PlayState.NotPlaying && asBlack == None
      ensures registry.pages == old(registry.pages) + {page}
    {
      this.page := page;
      this.registry := registry;
      state := Idle;
      playing := PlayState.NotPlaying;
      asBlack := None;
      new;
      registry.pages := registry.pages + {page};
    }

    /** `new ChesscomAgent(page)`. There is no `dispose`, so a page, once
        attached, stays in the registry. */
    static method Create(registry: PageRegistry, page: PageId) returns (r: Result<ChesscomAgent, AgentError>)
      modifies registry
      ensures old(page in registry.pages) ==> r == Failure(PageAlreadyAttached) && registry.pages == old(registry.pages)
      ensures old(page !in registry.pages) ==>
        && r.Success? && fresh(r.value) && r.value.registry == registry && r.value.page == page
        && r.value.state == Idle && r.value.playing == PlayState.NotPlaying && r.value.asBlack == None
        && registry.pages == old(registry.pages) + {page}
      ensures old(registry.pages) <= registry.pages
    {
      if page in registry.pages {
        return Failure(PageAlreadyAttached);
      }
      var agent := new ChesscomAgent.Attach(registry, page);
      return Success(agent);
    }

    /** The `blackOrWhite` getter. */
    function BlackOrWhite(): (r: Result<Colour, AgentError>)
      reads this
      ensures r.Failure? <==> asBlack.None?
      ensures r.Failure? ==> r.error == ColourUndefined
      ensures r.Success? ==> (r.value == Black <==> asBlack.value)
    {
      match asBlack
      case None => Failure(ColourUndefined)
      case Some(black) => Success(if black then Black else White)
    }

    /** The board cell `resolveBoardSquare` targets. It reads the square's
        `file` getter, which reports the rank (see `IndexIgnoresFile`). */
    function ResolveBoardIndex(sq: Square): (idx: (int, int))
      reads this
      ensures 1 <= idx.0 <= 8 && 1 <= idx.1 <= 8
    {
      BoardIndex(sq.File(), sq.Rank(), asBlack)
    }

    /** Through the `file` getter, the column depends on the rank alone:
        squares on the same rank land on the same cell, so "a1" and "h1"
        are dragged from the same place. */
    lemma IndexIgnoresFile(sq: Square, sq': Square)
      requires sq.rankIdx == sq'.rankIdx
      ensures ResolveBoardIndex(sq) == ResolveBoardIndex(sq')
      ensures ResolveBoardIndex(sq) == BoardIndex(sq.rankIdx, sq.rankIdx, asBlack)
      ensures sq.fileIdx != sq'.fileIdx ==> BoardIndex(sq.fileIdx, sq.rankIdx, asBlack) != BoardIndex(sq'.fileIdx, sq'.rankIdx, asBlack)
    {
      FileGetterIsRank(sq);
      FileGetterIsRank(sq');
      BoardIndexOrientation(sq.fileIdx, sq.rankIdx, sq'.fileIdx, sq'.rankIdx);
    }

    /** `move`: `board` is what the board lookup and the drag evaluation
        come back with. The colour is read once the board is found and
        before any square is resolved, so an undefined colour rejects with
        its own error even where the evaluation would fail. Success is
        MovedWaitingTurn; every failure, including the missing board whose
        BrowserPageOutOfReach the handler overwrites, is MovedIllegal.
        Neither `playing` nor any move count is consulted. */
    method Move(from: Square, to: Square, board: BoardAccess<()>) returns (r: Result<AgentState, AgentError>)
      modifies this
      ensures r.Success? <==> board.Board? && old(asBlack).Some?
      ensures r.Success? ==> r.value == MovedWaitingTurn && state == MovedWaitingTurn
      ensures r.Failure? ==> state == MovedIllegal
      ensures board.NoBoard? ==> r == Failure(BoardNotFound)
      ensures !board.NoBoard? && old(asBlack).None? ==> r == Failure(ColourUndefined)
      ensures board.EvalError? && old(asBlack).Some? ==> r == Failure(PageFailure)
      ensures playing == old(playing) && asBlack == old(asBlack)
    {
      if board.NoBoard? {
        state := BrowserPageOutOfReach;
        r := Failure(BoardNotFound);
      } else {
        var colour := BlackOrWhite();
        if colour.Failure? {
          r := Failure(colour.error);
        } else if board.EvalError? {
          r := Failure(PageFailure);
        } else {
          var cells := (ResolveBoardIndex(from), ResolveBoardIndex(to));
          r := Success(MovedWaitingTurn);
        }
      }
      if r.Failure? {
        state := MovedIllegal;
      } else {
        state := MovedWaitingTurn;
      }
    }

    /** `waitTurn`, and likewise playRapid, playBlitz, playBullet and
        playClassical: not implemented. */
    method WaitTurn() returns (r: Result<AgentState, AgentError>)
      ensures r == Failure(NotImplemented)
    {
      r := Failure(NotImplemented);
    }

    /** `evaluateBlackOrWhite`: `board` carries the board's `playingAs`
        code; black is code 2. A missing board leaves the agent out of
        reach; a failing evaluation rejects and changes nothing. */
    method EvaluateBlackOrWhite(board: BoardAccess<Option<int>>) returns (r: Result<(), AgentError>)
      modifies this
      ensures r.Success? <==> board.Board?
      ensures r.Success? ==> asBlack == Some(board.view == Some(2)) && state == old(state)
      ensures board.NoBoard? ==> state == BrowserPageOutOfReach && asBlack == old(asBlack)
      ensures board.EvalError? ==> state == old(state) && asBlack == old(asBlack)
      ensures playing == old(playing)
    {
      match board
      case NoBoard =>
        state := BrowserPageOutOfReach;
        return Failure(BoardNotFound);
      case EvalError =>
        return Failure(PageFailure);
      case Board(code) =>
        asBlack := Some(code == Some(2));
        return Success(());
    }

    /** `ensurePlaying`: `board` carries whether the board reports a game in
        progress. A board that reports none leaves IdleIllegalPlay, because
        that rejection is returned rather than thrown and so escapes the
        handler; a missing board or failing evaluation is caught and leaves
        BrowserPageOutOfReach. */
    method EnsurePlaying(board: BoardAccess<bool>) returns (r: Result<(), AgentError>)
      modifies this
      ensures r.Success? <==> board == Board(true)
      ensures r.Success? ==> state == old(state)
      ensures board == Board(false) ==> r == Failure(NotDetectedPlaying) && state == IdleIllegalPlay
      ensures !board.Board? ==> r.Failure? && state == BrowserPageOutOfReach
      ensures playing == old(playing) && asBlack == old(asBlack)
    {
      match board
      case NoBoard =>
        state := BrowserPageOutOfReach;
        return Failure(BoardNotFound);
      case EvalError =>
        state := BrowserPageOutOfReach;
        return Failure(PageFailure);
      case Board(isPlaying) =>
        if isPlaying {
          return Success(());
        }
        state := IdleIllegalPlay;
        return Failure(NotDetectedPlaying);
    }

    /** `playComputer`: `setupOk` says whether the navigation and bot
        selection steps went through. On success the agent plays against
        the computer and takes its turn. On any failure the handler calls
        `AgentState.values`, which does not exist, so the call rejects with
        that TypeError and the state stays whatever the failing step left:
        untouched after a setup failure, IdleIllegalPlay or
        BrowserPageOutOfReach after `ensurePlaying`, BrowserPageOutOfReach
        after a missing board or untouched after a failed evaluation in
        `evaluateBlackOrWhite`; the colour is never set by a failing call. */
    method PlayComputer(setupOk: bool, playingCheck: BoardAccess<bool>, colourCheck: BoardAccess<Option<int>>)
      returns (r: Result<AgentState, AgentError>)
      modifies this
      ensures r.Success? <==> setupOk && playingCheck == Board(true) && colourCheck.Board?
      ensures r.Success? ==>
        && r.value == TakingTurn && state == TakingTurn && playing == AgainstComputer
        && asBlack == Some(colourCheck.view == Some(2))
      ensures r.Failure? ==> r.error == HandlerTypeError && playing == old(playing) && asBlack == old(asBlack)
      ensures !setupOk ==> state == old(state) && asBlack == old(asBlack)
      ensures setupOk && playingCheck == Board(false) ==> state == IdleIllegalPlay
      ensures setupOk && !playingCheck.Board? ==> state == BrowserPageOutOfReach
      ensures setupOk && playingCheck == Board(true) && colourCheck.NoBoard? ==> state == BrowserPageOutOfReach
      ensures setupOk && playingCheck == Board(true) && colourCheck.EvalError? ==> state == old(state)
    {
      if !setupOk {
        return Failure(HandlerTypeError);
      }
      var ensured := EnsurePlaying(playingCheck);
      if ensured.Failure? {
        return Failure(HandlerTypeError);
      }
      var evaluated := EvaluateBlackOrWhite(colourCheck);
      if evaluated.Failure? {
        return Failure(HandlerTypeError);
      }
      playing := AgainstComputer;
      state := TakingTurn;
      return Success(TakingTurn);
    }
  }
}
