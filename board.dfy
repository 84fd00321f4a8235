/** The board of the board game: thirty squares, START at 0 and GOAL at 29, and a
    table that assigns an event id to each square. */
module Board {
  import opened Optional
  import Registry

  const TOTAL_SQUARES: nat := 30
  const START_POSITION: nat := 0
  const GOAL_POSITION: nat := TOTAL_SQUARES - 1
  /** Number of columns of the on-screen board. */
  const COLUMNS: nat := 5

  /** The initial entry of square `k`; START and GOAL carry no event. */
  function InitialEvent(k: nat): Option<string>
  {
    match k
    case 0 => None
    case 1 => Some(Registry.ID_ADVANCE_1)
    case 2 => Some(Registry.ID_NEUTRAL_1)
    case 3 => Some(Registry.ID_RETREAT_1)
    case 4 => Some(Registry.ID_BONUS)
    case 5 => Some(Registry.ID_NEUTRAL_2)
    case 6 => Some(Registry.ID_ADVANCE_2)
    case 7 => Some(Registry.ID_RETREAT_2)
    case 8 => Some(Registry.ID_SKIP_TURN)
    case 9 => Some(Registry.ID_NEUTRAL_3)
    case 10 => Some(Registry.ID_ADVANCE_3)
    case 11 => Some(Registry.ID_RETREAT_1)
    case 12 => Some(Registry.ID_SWAP)
    case 13 => Some(Registry.ID_ADVANCE_1)
    case 14 => Some(Registry.ID_NEUTRAL_1)
    case 15 => Some(Registry.ID_RETREAT_3)
    case 16 => Some(Registry.ID_BONUS)
    case 17 => Some(Registry.ID_ADVANCE_2)
    case 18 => Some(Registry.ID_NEUTRAL_2)
    case 19 => Some(Registry.ID_RETREAT_1)
    case 20 => Some(Registry.ID_SKIP_TURN)
    case 21 => Some(Registry.ID_ADVANCE_1)
    case 22 => Some(Registry.ID_NEUTRAL_3)
    case 23 => Some(Registry.ID_RETREAT_2)
    case 24 => Some(Registry.ID_ADVANCE_3)
    case 25 => Some(Registry.ID_SWAP)
    case 26 => Some(Registry.ID_NEUTRAL_1)
    case 27 => Some(Registry.ID_RETREAT_1)
    case 28 => Some(Registry.ID_BONUS)
    case _ => None
  }

  /** The initial square-to-event table, one entry per square. */
  function DefaultSquareEvents(): (m: seq<Option<string>>)
    ensures |m| == TOTAL_SQUARES
    ensures forall k :: 0 <= k < TOTAL_SQUARES ==> m[k] == InitialEvent(k)
  {
    seq(TOTAL_SQUARES, k requires 0 <= k < TOTAL_SQUARES => InitialEvent(k))
  }

  /** START and GOAL have no event; every other square has one of the built-in ids. */
  lemma {:induction false} DefaultSquareIds()
    ensures DefaultSquareEvents()[START_POSITION] == None && DefaultSquareEvents()[GOAL_POSITION] == None
    ensures forall k :: 0 < k < GOAL_POSITION ==>
              DefaultSquareEvents()[k].Some? && DefaultSquareEvents()[k].value in Registry.DefaultIds()
  {
  }

  /** So on a fresh registry every square other than START and GOAL has an event. */
  lemma {:induction false} DefaultSquaresRegistered()
    ensures forall k :: 0 < k < GOAL_POSITION ==>
              && DefaultSquareEvents()[k].Some?
              && DefaultSquareEvents()[k].value != ""
              && DefaultSquareEvents()[k].value in Registry.DefaultTable()
  {
    DefaultSquareIds();
    Registry.DefaultTableContents();
    Registry.DefaultIdsNonEmpty();
  }

  /** One record of `getAllSquares` (`caption` is its `label` field). */
  datatype Square = Square(
    index: nat, caption: string, eventId: Option<string>, event: Option<Registry.Event>,
    isStart: bool, isGoal: bool)

  predicate IsDigit(c: char)
  {
    '0' <= c <= '9'
  }

  function DigitChar(d: nat): (c: char)
    requires d < 10
    ensures IsDigit(c)
  {
    "0123456789"[d]
  }

  /** `${n}`: the decimal text of a non-negative integer. */
  function Decimal(n: nat): (s: string)
    ensures |s| >= 1
    ensures forall k :: 0 <= k < |s| ==> IsDigit(s[k])
  {
    if n < 10 then [DigitChar(n)] else Decimal(n / 10) + [DigitChar(n % 10)]
  }

  /** The number a string of decimal digits denotes. */
  function DigitsValue(s: string): nat
  {
    if s == [] then 0
    else
      var c := s[|s| - 1];
      DigitsValue(s[..|s| - 1]) * 10 + (if IsDigit(c) then (c as int - '0' as int) else 0)
  }

  /** Reading back the decimal text of `n` gives `n`. */
  lemma {:induction false} DecimalRoundTrip(n: nat)
    ensures DigitsValue(Decimal(n)) == n
  {
    if n >= 10 {
      var s := Decimal(n);
      assert s[..|s| - 1] == Decimal(n / 10);
      DecimalRoundTrip(n / 10);
    }
  }

  /** The label `getAllSquares` gives a square. */
  function Label(index: nat): string
  {
    if index == 0 then "START"
    else if index == TOTAL_SQUARES - 1 then "GOAL"
    else Decimal(index)
  }

  /** Different squares get different labels. */
  lemma {:induction false} LabelsDistinct(i: nat, j: nat)
    requires i < TOTAL_SQUARES && j < TOTAL_SQUARES && i != j
    ensures Label(i) != Label(j)
  {
    assert !IsDigit("START"[0]) && !IsDigit("GOAL"[0]);
    if 0 < i < TOTAL_SQUARES - 1 && 0 < j < TOTAL_SQUARES - 1 {
      DecimalRoundTrip(i);
      DecimalRoundTrip(j);
    }
  }

  /** The square-to-event table. The source keeps it in a module-level array of
      length TOTAL_SQUARES that `setSquareEvent` writes in place. */
  class BoardConfig {
    const squareEventMap: array<Option<string>>

    ghost predicate Valid()
      reads this
    {
      squareEventMap.Length == TOTAL_SQUARES
    }

    constructor ()
      ensures Valid() && fresh(squareEventMap)
      ensures squareEventMap[..] == DefaultSquareEvents()
    {
      var initial := DefaultSquareEvents();
      squareEventMap := new Option<string>[TOTAL_SQUARES](k requires 0 <= k < TOTAL_SQUARES => initial[k]);
      new;
      assert squareEventMap[..] == initial;
    }

    /** `getEventId`: the stored id, or `null` for an index outside the board
        and for an entry that is `null` or the empty string. */
    function GetEventId(i: int): (r: Option<string>)
      reads this, squareEventMap
      ensures r.Some? <==> 0 <= i < squareEventMap.Length && squareEventMap[i].Some? && squareEventMap[i].value != ""
      ensures r.Some? ==> r == squareEventMap[i]
    {
      if 0 <= i < squareEventMap.Length && squareEventMap[i].Some? && squareEventMap[i].value != ""
      then squareEventMap[i] else None
    }

    /** `getSquareEvent`: the registry's event for the square's id, `null` when the
        square has no id or the id is not registered. */
    function GetSquareEvent(i: int, registry: Registry.EventRegistry): (r: Option<Registry.Event>)
      reads this, squareEventMap, registry
      ensures GetEventId(i).None? ==> r.None?
      ensures GetEventId(i).Some? ==> r == registry.GetEvent(GetEventId(i).value)
      ensures r.Some? ==> 0 <= i < squareEventMap.Length && squareEventMap[i].Some? &&
                          squareEventMap[i].value in registry.events &&
                          r.value == registry.events[squareEventMap[i].value]
    {
      match GetEventId(i)
      case None => None
      case Some(id) => registry.GetEvent(id)
    }

    /** `setSquareEvent`: throws for an index outside the board; otherwise
        changes that one entry and nothing else. */
    method SetSquareEvent(i: int, id: Option<string>) returns (status: Status)
      requires Valid()
      modifies squareEventMap
      ensures status == if 0 <= i < TOTAL_SQUARES then Done else Failed(InvalidSquareIndex(i))
      ensures status.Done? ==> squareEventMap[..] == old(squareEventMap[..])[i := id]
      ensures status.Failed? ==> squareEventMap[..] == old(squareEventMap[..])
    {
      if i < 0 || i >= TOTAL_SQUARES {
        return Failed(InvalidSquareIndex(i));
      }
      squareEventMap[i] := id;
      status := Done;
    }

    /** `getAllSquares`: one record per square, in board order. The `eventId` is
        the raw entry; `event` is looked up only for a non-empty id. */
    function GetAllSquares(registry: Registry.EventRegistry): (squares: seq<Square>)
      reads this, squareEventMap, registry
      requires Valid()
      ensures |squares| == TOTAL_SQUARES
      ensures forall k :: 0 <= k < TOTAL_SQUARES ==>
                && squares[k].index == k
                && squares[k].eventId == squareEventMap[k]
                && squares[k].event == GetSquareEvent(k, registry)
                && (squares[k].isStart <==> k == START_POSITION)
                && (squares[k].isGoal <==> k == GOAL_POSITION)
                && squares[k].caption == Label(k)
    {
      seq(TOTAL_SQUARES, k requires 0 <= k < TOTAL_SQUARES reads this, squareEventMap, registry =>
        var id := squareEventMap[k];
        Square(k, Label(k), id,
               if id.Some? && id.value != "" then registry.GetEvent(id.value) else None,
               k == 0, k == TOTAL_SQUARES - 1))
    }
  }

  /** On the initial board and registry, START and GOAL have no event and every
      other square has the registry's event for its id. */
  lemma {:induction false} InitialSquareEvents(board: BoardConfig, registry: Registry.EventRegistry, k: int)
    requires board.Valid() && board.squareEventMap[..] == DefaultSquareEvents()
    requires registry.events == Registry.DefaultTable()
    requires 0 <= k < TOTAL_SQUARES
    ensures board.GetSquareEvent(k, registry).Some? <==> 0 < k < GOAL_POSITION
  {
    DefaultSquaresRegistered();
    assert board.squareEventMap[k] == DefaultSquareEvents()[k];
  }
}
