/** The move collector (src/misc/CollectiveMove.ts): it gathers the move
    notations that the chess.com agent can resolve, in arrival order, and
    empties the collection when told that a move was made. */
module Collective {
  import opened Base
  import opened Text
  import opened AgentLogic
  import opened Chesscom

  /** The agent handed to the constructor: a chess.com agent, or any other
      implementation of the agent interface. */
  datatype AgentRef = ChesscomRef(agent: ChesscomAgent) | OtherAgent

  /** The listener the constructor registers: the prototype's `onMoved`
      method, one function shared by every collector. */
  const ON_MOVED: Listener := 0

  datatype CollectError =
    | UnsupportedAgent   // "Undefined collective move for agent ..."
    | LostContact        // "Can't eval move, agent lost contact with browser"
    | UnboundThis        // the TypeError of `onMoved` called without its object

  /** The validation closure over the agent's fields: true when evalMove
      resolves (its squares are then always defined), false when it
      rejects, unless the agent is then out of reach, which throws. */
  function ValidateSpec(f: Fields, m: Option<MoveMatch>, wait: BoardAccess<WaitView>, query: BoardAccess<GameSnapshot>)
    : (Fields, Result<bool, CollectError>)
  {
    var (f1, e) := EvalMoveSpec(f, m, wait, query);
    if e.Success? then (f1, Success(true))
    else if f1.state == BrowserPageOutOfReach then (f1, Failure(LostContact))
    else (f1, Success(false))
  }

  /** The collection after `addMove(notation)` with the validation's answer. */
  function AddMoveSpec(collection: seq<string>, notation: string, valid: Result<bool, CollectError>): seq<string> {
    if valid == Success(true) then collection + [Trim(notation)] else collection
  }

  /** A move is collected only when the agent is taking its turn and the
      notation was read; the validation then leaves every other field of
      the agent as it was, and it never changes anything but the state. */
  lemma ValidateMeaning(f: Fields, m: Option<MoveMatch>, wait: BoardAccess<WaitView>, query: BoardAccess<GameSnapshot>)
    ensures var (f1, r) := ValidateSpec(f, m, wait, query);
      && f1 == f.(state := f1.state)
      && (r == Success(true) ==> m.Some? && f1 == f.(state := TakingTurn))
  {
    EvalMoveFrame(f, m, wait, query);
  }

  /** A notation the move grammar does not match, offered while the agent
      is taking its turn, is answered false and changes nothing. */
  lemma UnreadableNotationRejected(f: Fields, wait: BoardAccess<WaitView>, query: BoardAccess<GameSnapshot>)
    requires f.state == TakingTurn
    ensures ValidateSpec(f, None, wait, query) == (f, Success(false))
  {
  }

  /** A well-formed move for which the board has no piece is not answered
      false: the board helper marks the agent out of reach for every
      failure of the page-side resolver, so the collector throws as if the
      browser were lost. */
  lemma UnknownPieceLosesContact(f: Fields, m: Option<MoveMatch>, wait: BoardAccess<WaitView>, query: BoardAccess<GameSnapshot>)
    requires f.state == TakingTurn && m.Some? && !IsCastling(m.value) && query.Board?
    requires SelectOrigin(query.view, m.value.piece.GetOr(Pawn), LowerOpt(m.value.origin), Destination(m.value)) == Failure(NoPiece)
    ensures ValidateSpec(f, m, wait, query) == (f.(state := BrowserPageOutOfReach), Failure(LostContact))
  {
  }

  /** Collecting a run of notations appends the trimmed accepted ones, in
      order, after what was there. */
  function CollectAll(collection: seq<string>, notations: seq<string>, answers: seq<Result<bool, CollectError>>): seq<string>
    requires |notations| == |answers|
    decreases |notations|
  {
    if notations == [] then collection
    else CollectAll(AddMoveSpec(collection, notations[0], answers[0]), notations[1..], answers[1..])
  }

  /** The trimmed notations whose answer was true, in arrival order. */
  function Accepted(notations: seq<string>, answers: seq<Result<bool, CollectError>>): (r: seq<string>)
    requires |notations| == |answers|
    ensures |r| <= |notations|
    ensures forall s :: s in r ==> exists i :: 0 <= i < |notations| && answers[i] == Success(true) && s == Trim(notations[i])
  {
    if notations == [] then []
    else (if answers[0] == Success(true) then [Trim(notations[0])] else []) + Accepted(notations[1..], answers[1..])
  }

  /** Earlier entries are never modified: after any run of additions the
      old collection is a prefix, followed by the accepted notations in
      the order they arrived. */
  lemma {:induction false} CollectAllKeepsOrder(collection: seq<string>, notations: seq<string>, answers: seq<Result<bool, CollectError>>)
    requires |notations| == |answers|
    ensures CollectAll(collection, notations, answers) == collection + Accepted(notations, answers)
    decreases |notations|
  {
    if notations != [] {
      var next := AddMoveSpec(collection, notations[0], answers[0]);
      CollectAllKeepsOrder(next, notations[1..], answers[1..]);
    }
  }

  class CollectiveMove {
    const agent: ChesscomAgent
    var moveCollection: seq<string>

    constructor Attach(agent: ChesscomAgent)
      modifies agent
      ensures this.agent == agent && moveCollection == []
      ensures agent.onMoves == old(agent.onMoves) + [ON_MOVED]
      ensures agent.Current() == old(agent.Current())
    {
      this.agent := agent;
      moveCollection := [];
      new;
      agent.AddOnMove(ON_MOVED);
    }

    /** `new CollectiveMove(agent)`: only a chess.com agent is accepted; it
        gets `onMoved` as a move listener. */
    static method Create(ref: AgentRef) returns (r: Result<CollectiveMove, CollectError>)
      modifies if ref.ChesscomRef? then {ref.agent} else {}
      ensures ref.OtherAgent? <==> r == Failure(UnsupportedAgent)
      ensures ref.ChesscomRef? ==>
        && r.Success? && fresh(r.value) && r.value.agent == ref.agent && r.value.moveCollection == []
        && ref.agent.onMoves == old(ref.agent.onMoves) + [ON_MOVED]
        && ref.agent.Current() == old(ref.agent.Current())
    {
      if ref.OtherAgent? {
        return Failure(UnsupportedAgent);
      }
      var collector := new CollectiveMove.Attach(ref.agent);
      return Success(collector);
    }

    /** The validation closure: `m` is the move grammar's match of the
        notation, `wait` and `query` what the agent's page reports. */
    method EvalMove(m: Option<MoveMatch>, wait: BoardAccess<WaitView>, query: BoardAccess<GameSnapshot>)
      returns (r: Result<bool, CollectError>)
      modifies agent
      ensures agent.Current() == ValidateSpec(old(agent.Current()), m, wait, query).0
      ensures r == ValidateSpec(old(agent.Current()), m, wait, query).1
      ensures agent.onMoves == old(agent.onMoves)
    {
      var resolved := agent.EvalMove(m, wait, query);
      if resolved.Success? {
        return Success(true);
      }
      if agent.state == BrowserPageOutOfReach {
        return Failure(LostContact);
      }
      return Success(false);
    }

    /** `addMove`: the trimmed notation is appended exactly when it
        validates. */
    method AddMove(notation: string, m: Option<MoveMatch>, wait: BoardAccess<WaitView>, query: BoardAccess<GameSnapshot>)
      returns (r: Result<(), CollectError>)
      modifies this, agent
      ensures var (f1, valid) := ValidateSpec(old(agent.Current()), m, wait, query);
        && agent.Current() == f1
        && moveCollection == AddMoveSpec(old(moveCollection), notation, valid)
        && (r.Failure? <==> valid.Failure?)
      ensures agent.onMoves == old(agent.onMoves)
    {
      var valid := EvalMove(m, wait, query);
      if valid.Failure? {
        return Failure(valid.error);
      }
      if valid.value {
        moveCollection := moveCollection + [Trim(notation)];
      }
      return Success(());
    }

    /** `onMoved` called on the collector: the collection is emptied. */
    method OnMoved()
      modifies this
      ensures moveCollection == []
    {
      moveCollection := [];
    }

    /** The listener calls the agent makes after a confirmed move (the
        `notified` list of `ChesscomAgent.Move`), as this collector sees
        them: every call of the `onMoved` it registered runs without its
        object and rejects, so no notification empties the collection;
        `rejections` counts those calls. */
    method ReceiveNotifications(notified: seq<Listener>) returns (rejections: nat)
      ensures rejections == multiset(notified)[ON_MOVED]
      ensures ON_MOVED in notified ==> rejections > 0
    {
      rejections := 0;
      var i := 0;
      while i < |notified|
        invariant 0 <= i <= |notified|
        invariant rejections == multiset(notified[..i])[ON_MOVED]
      {
        assert notified[..i + 1] == notified[..i] + [notified[i]];
        if notified[i] == ON_MOVED {
          var r := OnMovedAsListener();
          if r.Failure? {
            rejections := rejections + 1;
          }
        }
        i := i + 1;
      }
      assert notified[..i] == notified;
    }

    /** `onMoved` as the agent calls it: the listener was registered without
        its object, so `this` is undefined, the call rejects with a
        TypeError, and the collection is left as it was. */
    method OnMovedAsListener() returns (r: Result<(), CollectError>)
      ensures r == Failure(UnboundThis)
    {
      r := Failure(UnboundThis);
    }
  }
}
