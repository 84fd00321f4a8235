/** The two-player turn machine of the board game: rolling, moving square by
    square, goal detection, square events and reset. Each transition is one
    synchronous step; the animation delays and the change listeners are not part
    of the model. */
module Sugoroku {
  import opened Optional
  import Registry
  import Board

  /** `'waiting' | 'rolling' | 'moving' | 'event' | 'gameover'`. */
  datatype Phase = Waiting | Rolling | Moving | ShowingEvent | Finished

  /** A player record. The display name and colour are not modelled. */
  datatype Piece = Piece(id: nat, position: int, skipNext: bool)

  /** How `applyEvent` treats an event type; any unknown type acts as `neutral`. */
  datatype EffectKind = Advance | Retreat | SkipTurn | Bonus | Swap | Neutral

  function KindOf(kind: string): EffectKind
  {
    if kind == Registry.ADVANCE then Advance
    else if kind == Registry.RETREAT then Retreat
    else if kind == Registry.SKIP_TURN then SkipTurn
    else if kind == Registry.BONUS then Bonus
    else if kind == Registry.SWAP then Swap
    else Neutral
  }

  /** `event.effect?.value || 0`. */
  function EffectAmount(ev: Registry.Event): int
  {
    match ev.effect
    case Some(v) => v
    case None => 0
  }

  /** The notice shown to a player who sits out a turn. */
  const SkipNotice: Registry.Event := Registry.Event("", "1回休み", Registry.SKIP_TURN, None)

  /** The player whose turn follows player `i`. */
  function Next(i: nat): (j: nat)
    requires i < 2
    ensures j < 2 && j != i
  {
    (i + 1) % 2
  }

  /** The turn alternates: two passes give the turn back. */
  lemma {:induction false} NextAlternates(i: nat)
    requires i < 2
    ensures Next(Next(i)) == i
  {
  }

  /** Square reached by moving `steps` forward from `pos`, stopping at the goal. */
  function Landing(pos: int, steps: int): (r: int)
    ensures r <= Board.GOAL_POSITION
    ensures r == Board.GOAL_POSITION <==> pos + steps >= Board.GOAL_POSITION
    ensures r < Board.GOAL_POSITION ==> r == pos + steps
  {
    if pos + steps >= Board.GOAL_POSITION then Board.GOAL_POSITION else pos + steps
  }

  /** Square reached by moving `steps` back from `pos`, stopping at the start. */
  function Retreated(pos: int, steps: int): (r: int)
    ensures r >= 0
    ensures r == 0 <==> pos - steps <= 0
    ensures r > 0 ==> r == pos - steps
  {
    if pos - steps < 0 then 0 else pos - steps
  }

  /** A forward move of at least one square from a square before the goal
      lands strictly further on and still on the board. */
  lemma {:induction false} LandingOnBoard(pos: int, steps: int)
    requires 0 <= pos < Board.GOAL_POSITION && 1 <= steps
    ensures pos < Landing(pos, steps) <= Board.GOAL_POSITION
  {
  }

  /** The squares a piece passes through moving from `from` to `to`, in order. */
  function Steps(from: int, to: int): (path: seq<int>)
    ensures |path| == if to <= from then 0 else to - from
    ensures forall k :: 0 <= k < |path| ==> path[k] == from + 1 + k
  {
    if to <= from then [] else seq(to - from, k requires 0 <= k < to - from => from + 1 + k)
  }

  /** The path is strictly increasing, starts next to `from` and ends on `to`. */
  lemma {:induction false} StepsIncreasing(from: int, to: int)
    requires from < to
    ensures Steps(from, to)[0] == from + 1 && Steps(from, to)[|Steps(from, to)| - 1] == to
    ensures forall i, j :: 0 <= i < j < |Steps(from, to)| ==> Steps(from, to)[i] < Steps(from, to)[j]
  {
  }

  /** Events registered without a check on `effect.value` can move a piece off
      the board: an ADVANCE by -3 from square 1 ends on square -2. */
  lemma {:induction false} NegativeAdvanceLeavesBoard()
    ensures Landing(1, EffectAmount(Registry.Event("back", "back", Registry.ADVANCE, Some(-3)))) == -2
  {
  }

  /** The state record held by the game-state module. */
  class GameState {
    var players: seq<Piece>
    var currentPlayerIndex: nat
    var diceValue: Option<int>
    var isRolling: bool
    var isGameOver: bool
    var winner: Option<Piece>
    var currentEvent: Option<Registry.Event>
    var phase: Phase

    ghost predicate Valid()
      reads this
    {
      |players| == 2 && currentPlayerIndex < 2
    }

    /** Both pieces stand on a square of the board. */
    ghost predicate OnBoard()
      reads this
      requires Valid()
    {
      forall k :: 0 <= k < 2 ==> 0 <= players[k].position <= Board.GOAL_POSITION
    }

    constructor ()
      ensures Valid() && OnBoard()
      ensures players == [Piece(0, 0, false), Piece(1, 0, false)]
      ensures currentPlayerIndex == 0 && diceValue == None && !isRolling && !isGameOver
      ensures winner == None && currentEvent == None && phase == Waiting
    {
      players := [Piece(0, 0, false), Piece(1, 0, false)];
      currentPlayerIndex := 0;
      diceValue := None;
      isRolling := false;
      isGameOver := false;
      winner := None;
      currentEvent := None;
      phase := Waiting;
    }

    /** `rollDice` with the final die value `dice` (the model's input for
        `Math.random`). A roll is accepted only while waiting and not over. A
        player who must sit out loses the turn without moving. Otherwise the piece
        walks one square at a time (`path` lists the squares in order) to
        `Landing(from, dice)`; reaching the goal ends the game, a square event
        is shown and waits to be applied, and a plain square passes the turn. */
    method RollDice(dice: int, board: Board.BoardConfig, registry: Registry.EventRegistry)
      returns (path: seq<int>)
      requires Valid() && board.Valid()
      requires 1 <= dice <= 6
      modifies this
      ensures Valid()
      ensures old(phase) != Waiting || old(isGameOver) ==> unchanged(this) && path == []
      ensures old(phase) == Waiting && !old(isGameOver) && old(players[currentPlayerIndex].skipNext) ==>
                && players == old(players)[old(currentPlayerIndex) := old(players[currentPlayerIndex]).(skipNext := false)]
                && currentPlayerIndex == Next(old(currentPlayerIndex))
                && phase == Waiting && currentEvent == None && path == []
                && diceValue == old(diceValue) && isRolling == old(isRolling)
                && isGameOver == old(isGameOver) && winner == old(winner)
      ensures old(phase) == Waiting && !old(isGameOver) && !old(players[currentPlayerIndex].skipNext) ==>
                var me := old(currentPlayerIndex);
                var from := old(players[currentPlayerIndex].position);
                var target := Landing(from, dice);
                var at := if from < target then target else from;
                && diceValue == Some(dice) && !isRolling
                && path == Steps(from, target)
                && players == old(players)[me := old(players[me]).(position := at)]
                && (at == Board.GOAL_POSITION ==>
                      isGameOver && winner == Some(players[me]) && phase == Finished &&
                      currentPlayerIndex == me && currentEvent == old(currentEvent))
                && (at != Board.GOAL_POSITION && board.GetSquareEvent(at, registry).Some? ==>
                      phase == ShowingEvent && currentEvent == board.GetSquareEvent(at, registry) &&
                      currentPlayerIndex == me && isGameOver == old(isGameOver) && winner == old(winner))
                && (at != Board.GOAL_POSITION && board.GetSquareEvent(at, registry).None? ==>
                      phase == Waiting && currentEvent == old(currentEvent) &&
                      currentPlayerIndex == Next(me) && isGameOver == old(isGameOver) && winner == old(winner))
      ensures old(OnBoard()) ==> OnBoard()
    {
      path := [];
      if phase != Waiting || isGameOver {
        return;
      }
      var me := currentPlayerIndex;
      if players[me].skipNext {
        players := players[me := players[me].(skipNext := false)];
        currentEvent := Some(SkipNotice);
        phase := ShowingEvent;
        // after the pause
        currentEvent := None;
        phase := Waiting;
        currentPlayerIndex := Next(currentPlayerIndex);
        return;
      }
      phase := Rolling;
      isRolling := true;
      diceValue := Some(dice);
      isRolling := false;

      phase := Moving;
      var newPosition := players[me].position + dice;
      if newPosition >= Board.GOAL_POSITION {
        newPosition := Board.GOAL_POSITION;
      }
      path := Walk(me, newPosition);
      Arrive(board, registry);
    }

    /** The end of `rollDice`, once the piece of the current player has stopped:
        the goal ends the game, a square event is shown, a plain square passes
        the turn. */
    method Arrive(board: Board.BoardConfig, registry: Registry.EventRegistry)
      requires Valid() && board.Valid()
      modifies this`isGameOver, this`winner, this`phase, this`currentEvent, this`currentPlayerIndex
      ensures Valid()
      ensures var me := old(currentPlayerIndex);
              var at := players[me].position;
              && (at == Board.GOAL_POSITION ==>
                    isGameOver && winner == Some(players[me]) && phase == Finished &&
                    currentPlayerIndex == me && currentEvent == old(currentEvent))
              && (at != Board.GOAL_POSITION && board.GetSquareEvent(at, registry).Some? ==>
                    phase == ShowingEvent && currentEvent == board.GetSquareEvent(at, registry) &&
                    currentPlayerIndex == me && isGameOver == old(isGameOver) && winner == old(winner))
              && (at != Board.GOAL_POSITION && board.GetSquareEvent(at, registry).None? ==>
                    phase == Waiting && currentEvent == old(currentEvent) &&
                    currentPlayerIndex == Next(me) && isGameOver == old(isGameOver) && winner == old(winner))
    {
      var me := currentPlayerIndex;
      if players[me].position == Board.GOAL_POSITION {
        isGameOver := true;
        winner := Some(players[me]);
        phase := Finished;
        return;
      }
      var event := board.GetSquareEvent(players[me].position, registry);
      if event.Some? {
        currentEvent := event;
        phase := ShowingEvent;
      } else {
        phase := Waiting;
        currentPlayerIndex := Next(currentPlayerIndex);
      }
    }

    /** The step-by-step move of `rollDice`: the piece of player `me` is put on
        each square after its own up to `target`, one at a time; `path` lists them. */
    method Walk(me: nat, target: int) returns (path: seq<int>)
      requires Valid() && me < 2
      modifies this`players
      ensures Valid()
      ensures var from := old(players[me].position);
              && path == Steps(from, target)
              && players == old(players)[me := old(players[me]).(position := if from < target then target else from)]
    {
      var startPos := players[me].position;
      path := [];
      var pos := startPos + 1;
      while pos <= target
        invariant startPos + 1 <= pos <= (if target < startPos + 1 then startPos + 1 else target + 1)
        invariant path == Steps(startPos, pos - 1)
        invariant players == old(players)[me := old(players[me]).(position := if pos == startPos + 1 then startPos else pos - 1)]
        decreases target - pos
      {
        players := players[me := players[me].(position := pos)];
        path := path + [pos];
        pos := pos + 1;
      }
    }

    /** `applyEvent` for the current player (both callers pass
        `players[currentPlayerIndex]`). ADVANCE stops at the goal and wins there;
        RETREAT stops at the start; SKIP_TURN marks the mover; SWAP exchanges the
        two positions; BONUS keeps the turn; any other type changes no piece.
        Unless the game was won, the event is cleared and play waits for the
        next roll. */
    method ApplyEvent(ev: Registry.Event)
      requires Valid()
      modifies this
      ensures Valid()
      ensures diceValue == old(diceValue) && isRolling == old(isRolling)
      ensures var me := old(currentPlayerIndex);
              var other := Next(me);
              var mover := old(players[me]);
              match KindOf(ev.kind)
              case Advance =>
                players == old(players)[me := mover.(position := Landing(mover.position, EffectAmount(ev)))]
              case Retreat =>
                players == old(players)[me := mover.(position := Retreated(mover.position, EffectAmount(ev)))]
              case SkipTurn =>
                players == old(players)[me := mover.(skipNext := true)]
              case Swap =>
                players == old(players)[me := mover.(position := old(players[other].position))]
                                       [other := old(players[other]).(position := mover.position)]
              case _ =>
                players == old(players)
      ensures var me := old(currentPlayerIndex);
              var won := KindOf(ev.kind) == Advance && players[me].position == Board.GOAL_POSITION;
              && (won ==> isGameOver && winner == Some(players[me]) && phase == Finished &&
                          currentPlayerIndex == me && currentEvent == old(currentEvent))
              && (!won ==> currentEvent == None && phase == Waiting &&
                           isGameOver == old(isGameOver) && winner == old(winner) &&
                           currentPlayerIndex == if KindOf(ev.kind) == Bonus then me else Next(me))
      ensures old(OnBoard()) && EffectAmount(ev) >= 0 ==> OnBoard()
    {
      var me := currentPlayerIndex;
      var other := Next(me);
      var grantBonusTurn := false;
      match KindOf(ev.kind) {
        case Advance =>
          var newPos := players[me].position + EffectAmount(ev);
          if newPos >= Board.GOAL_POSITION {
            newPos := Board.GOAL_POSITION;
          }
          players := players[me := players[me].(position := newPos)];
          if players[me].position == Board.GOAL_POSITION {
            isGameOver := true;
            winner := Some(players[me]);
            phase := Finished;
            return;
          }
        case Retreat =>
          var newPos := players[me].position - EffectAmount(ev);
          if newPos < 0 {
            newPos := 0;
          }
          players := players[me := players[me].(position := newPos)];
        case SkipTurn =>
          players := players[me := players[me].(skipNext := true)];
        case Bonus =>
          grantBonusTurn := true;
        case Swap =>
          var tempPos := players[me].position;
          players := players[me := players[me].(position := players[other].position)];
          players := players[other := players[other].(position := tempPos)];
        case Neutral =>
      }
      currentEvent := None;
      phase := Waiting;
      if !grantBonusTurn {
        currentPlayerIndex := Next(me);
      }
    }

    /** `dismissEvent`: applies the shown event, and does nothing unless an event is shown. */
    method DismissEvent()
      requires Valid()
      modifies this
      ensures Valid()
      ensures !(old(phase) == ShowingEvent && old(currentEvent).Some?) ==> unchanged(this)
      ensures old(phase) == ShowingEvent && old(currentEvent).Some? ==>
                diceValue == old(diceValue) && isRolling == old(isRolling)
      ensures old(phase) == ShowingEvent && old(currentEvent).Some? ==>
                var ev := old(currentEvent).value;
                var me := old(currentPlayerIndex);
                var other := Next(me);
                var mover := old(players[me]);
                match KindOf(ev.kind)
                case Advance =>
                  players == old(players)[me := mover.(position := Landing(mover.position, EffectAmount(ev)))]
                case Retreat =>
                  players == old(players)[me := mover.(position := Retreated(mover.position, EffectAmount(ev)))]
                case SkipTurn =>
                  players == old(players)[me := mover.(skipNext := true)]
                case Swap =>
                  players == old(players)[me := mover.(position := old(players[other].position))]
                                         [other := old(players[other]).(position := mover.position)]
                case _ =>
                  players == old(players)
      ensures old(phase) == ShowingEvent && old(currentEvent).Some? ==>
                var ev := old(currentEvent).value;
                var me := old(currentPlayerIndex);
                var won := KindOf(ev.kind) == Advance && players[me].position == Board.GOAL_POSITION;
                && (won ==> isGameOver && winner == Some(players[me]) && phase == Finished &&
                            currentPlayerIndex == me && currentEvent == old(currentEvent))
                && (!won ==> currentEvent == None && phase == Waiting &&
                             isGameOver == old(isGameOver) && winner == old(winner) &&
                             currentPlayerIndex == if KindOf(ev.kind) == Bonus then me else Next(me))
      ensures old(OnBoard()) && (old(currentEvent).Some? ==> EffectAmount(old(currentEvent).value) >= 0) ==> OnBoard()
    {
      if phase == ShowingEvent && currentEvent.Some? {
        ApplyEvent(currentEvent.value);
      }
    }

    /** `resetGame`: both pieces back on START without a pending skip, player 1
        to move, no die value, no winner, no event, waiting. */
    method ResetGame()
      requires Valid()
      modifies this
      ensures Valid() && OnBoard()
      ensures players == [old(players[0]).(position := 0, skipNext := false),
                          old(players[1]).(position := 0, skipNext := false)]
      ensures currentPlayerIndex == 0 && diceValue == None && !isRolling && !isGameOver
      ensures winner == None && currentEvent == None && phase == Waiting
    {
      players := players[0 := players[0].(position := 0, skipNext := false)];
      players := players[1 := players[1].(position := 0, skipNext := false)];
      currentPlayerIndex := 0;
      diceValue := None;
      isRolling := false;
      isGameOver := false;
      winner := None;
      currentEvent := None;
      phase := Waiting;
    }
  }
}
