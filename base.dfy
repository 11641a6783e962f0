/** Shared vocabulary of the agent model: the result wrappers used in place of
    thrown values, the agent's published state, its play mode, piece letters
    and the page's colour codes. */
module Base {

  datatype Option<+T> = None | Some(value: T) {
    function GetOr(default: T): T {
      match this
      case Some(v) => v
      case None => default
    }
  }

  /** A thrown value becomes `Failure`; a resolved promise becomes `Success`. */
  datatype Result<+R, +E> = Success(value: R) | Failure(error: E)

  /** The agent's externally observable status (AgentState.ts). */
  datatype AgentState =
    | MovedWaitingTurn
    | MovedIllegal
    | FirstWaitingTurn
    | TakingTurn
    | Idle
    | IdleIllegalPlay
    | BrowserPageOutOfReach

  /** Whether a game session is active; only the two values the agents use. */
  datatype PlayState = NotPlaying | AgainstComputer

  /** Piece letters as the page's game object reports them (Util.ts). */
  datatype PieceNotation = Pawn | Rook | Knight | Bishop | Queen | King {
    function Letter(): (c: char)
      ensures c in "prnbqk"
    {
      match this
      case Pawn => 'p'
      case Rook => 'r'
      case Knight => 'n'
      case Bishop => 'b'
      case Queen => 'q'
      case King => 'k'
    }
  }

  /** The page's colour codes: 1 is white, 2 is black. */
  datatype Colour = White | Black {
    function Code(): (n: int)
      ensures n == 1 || n == 2
    {
      if White? then 1 else 2
    }
  }

  /** What a step run against the page's board element can come back with:
      the board element is missing, the in-page evaluation throws or
      rejects, or the evaluation yields a view of the page. */
  datatype BoardAccess<+T> = NoBoard | EvalError | Board(view: T)

  /** A browser page, by identity. */
  type PageId = nat

  /** An agent class's `UNIQUE_PAGES`: the pages that have an agent of that
      class attached. */
  class PageRegistry {
    var pages: set<PageId>

    constructor ()
      ensures pages == {}
    {
      pages := {};
    }
  }
}
