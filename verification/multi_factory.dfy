/** The board generator of `multi_move.py`.

    It follows the same frontier scheme as `move.py`, with these
    differences: the two orders of a non-double roll are tried larger
    die first; every board decides for itself whether the bar must be
    entered; at each occupied point the normal move is tried, and
    bear-offs are tried separately from each of the six home-board
    points; a frontier in which only some boards can use the die is
    handled like any other, each stuck board keeping its place; and the
    frontier boards are expanded through a thread pool's order-preserving
    map, modelled here as a sequential map. As a result it produces
    exactly the boards a legal play of the roll reaches.
 */
module MultiBoardFactory {
  import opened Errors
  import opened Boards
  import opened DiceRolls
  import opened Moves
  import opened Frontiers
  import opened Successors
  import BoardFactory

  /** The orders in which a roll is played: the rolled number four times
      for doubles, otherwise both orders of the two dice, larger first. */
  function DiceCombinations(d: Dice): (r: seq<seq<int>>)
    ensures |r| == if IsDoubles(d) then 1 else 2
    ensures forall k :: 0 <= k < |r| ==> IsOrder(d, r[k])
    ensures forall dice :: IsOrder(d, dice) ==> dice in r
    ensures !IsDoubles(d) ==> |r[0]| == 2 && r[0][0] > r[0][1]
  {
    if IsDoubles(d) then [FourOf(d.die1)] else [Descending(d), Ascending(d)]
  }

  // ---------------------------------------------------------------------
  // One board, one die
  // ---------------------------------------------------------------------

  /** The k-th point of `p`'s home board counted from the edge: 23 down
      to 18 for White, 0 up to 5 for Black. */
  function HomePoint(p: Player, k: int): int {
    GetHome(p) - (k + 1) * GetDirection(p)
  }

  /** The six points visited for bearing off are exactly the home board. */
  lemma HomePointsCoverHomeBoard(p: Player, location: int)
    ensures (exists k :: 0 <= k < 6 && HomePoint(p, k) == location) <==>
              OnBoard(location) && InHomeBoard(p, location)
  {
    if OnBoard(location) && InHomeBoard(p, location) {
      HomeBoardPoints(location);
      var k := if p == White then 23 - location else location;
      assert HomePoint(p, k) == location;
    }
  }

  /** The normal moves by the die from the points `0 .. n-1` that `p`
      occupies, in point order. */
  function NormalChildren(p: Player, die: int, b: Board, n: int): (r: seq<Board>)
    requires Shaped(b) && 0 <= n <= NumPoints
    ensures AllShaped(r)
    ensures forall c :: c in r <==>
              exists pos :: 0 <= pos < n && GetCheckers(b, pos, Some(p)) > 0 &&
                            NormalMove(p, die, b, pos, Destination(p, die, pos)) == Ok(c)
  {
    if n == 0 then []
    else
      var pos := n - 1;
      var front := NormalChildren(p, die, b, pos);
      SecondBarCheckIsDead(p, die, b, pos, Destination(p, die, pos));
      var last :=
        if GetCheckers(b, pos, Some(p)) > 0 then
          match NormalMoveRechecked(p, die, b, pos, Destination(p, die, pos))
          case Ok(c) => [c]
          case Failure(_) => []
        else [];
      assert forall c :: c in front + last <==> c in front || c in last;
      front + last
  }

  /** The bear-offs from the first `n` home points, in the order visited. */
  function BearOffChildren(p: Player, die: int, b: Board, n: int): (r: seq<Board>)
    requires Shaped(b) && 0 <= n <= 6
    ensures AllShaped(r)
    ensures forall c :: c in r <==> exists k :: 0 <= k < n && BearOffMove(p, die, b, HomePoint(p, k)) == Ok(c)
  {
    if n == 0 then []
    else
      var front := BearOffChildren(p, die, b, n - 1);
      var last :=
        match BearOffMove(p, die, b, HomePoint(p, n - 1))
        case Ok(c) => [c]
        case Failure(_) => [];
      assert forall c :: c in front + last <==> c in front || c in last;
      front + last
  }

  /** Normal moves then bear-offs, for a board whose bar is clear. */
  function MoveChildren(p: Player, die: int, b: Board): (r: seq<Board>)
    requires Shaped(b)
    ensures AllShaped(r)
  {
    NormalChildren(p, die, b, NumPoints) + BearOffChildren(p, die, b, 6)
  }

  /** The boards replacing `b` for one die: the bar entry when `p` has a
      checker on the bar, otherwise every normal move and bear-off; `b`
      itself when there are none. */
  function ComputeBoards(p: Player, die: int, b: Board): (r: seq<Board>)
    requires Shaped(b)
    ensures |r| > 0 && AllShaped(r)
    ensures b.bar.Get(p) > 0 ==> |r| == 1
  {
    if b.bar.Get(p) > 0 then
      match BarMove(p, die, b, BarDestination(p, die))
      case Ok(c) => [c]
      case Failure(_) => [b]
    else
      var kids := MoveChildren(p, die, b);
      if |kids| > 0 then kids else [b]
  }

  /** With the bar clear, the normal moves and bear-offs found are all
      the legal movements, and nothing else. */
  lemma MoveChildrenAreSuccessors(p: Player, die: int, b: Board, c: Board)
    requires WellFormed(b) && b.bar.Get(p) == 0
    ensures c in MoveChildren(p, die, b) <==> LegalSuccessor(p, die, b, c)
  {
    var normals := NormalChildren(p, die, b, NumPoints);
    var bearOffs := BearOffChildren(p, die, b, 6);
    assert c in MoveChildren(p, die, b) <==> c in normals || c in bearOffs;
    SuccessorsOffBar(p, die, b, c);
    forall s {
      HomePointsCoverHomeBoard(p, s);
    }
    if c in normals {
      var pos :| 0 <= pos < NumPoints && GetCheckers(b, pos, Some(p)) > 0 &&
                 NormalMove(p, die, b, pos, Destination(p, die, pos)) == Ok(c);
      assert LegalSuccessor(p, die, b, c);
    } else if c in bearOffs {
      var k :| 0 <= k < 6 && BearOffMove(p, die, b, HomePoint(p, k)) == Ok(c);
      assert LegalSuccessor(p, die, b, c);
    }
  }

  /** With a checker on the bar, `ComputeBoards` yields the bar entry,
      or the board itself when the entry is illegal. */
  lemma ComputeBoardsOnBar(p: Player, die: int, b: Board, c: Board)
    requires WellFormed(b) && b.bar.Get(p) > 0
    ensures c in ComputeBoards(p, die, b) <==> StepTo(p, die, b, c)
  {
    forall c' {
      SuccessorsOnBar(p, die, b, c');
    }
  }

  /** With the bar clear, `ComputeBoards` yields every legal movement, or
      the board itself when there is none. */
  lemma ComputeBoardsOffBar(p: Player, die: int, b: Board, c: Board)
    requires WellFormed(b) && b.bar.Get(p) == 0
    ensures c in ComputeBoards(p, die, b) <==> StepTo(p, die, b, c)
  {
    var kids := MoveChildren(p, die, b);
    MoveChildrenAreSuccessors(p, die, b, c);
    if |kids| == 0 {
      forall c' | LegalSuccessor(p, die, b, c')
        ensures false
      {
        MoveChildrenAreSuccessors(p, die, b, c');
      }
    } else {
      MoveChildrenAreSuccessors(p, die, b, kids[0]);
      assert !Stuck(p, die, b);
    }
  }

  /** `ComputeBoards` yields exactly the plays of the die: every legal
      movement, or the board itself when no movement can use the die. */
  lemma ComputeBoardsPlaysDie(p: Player, die: int, b: Board, c: Board)
    requires WellFormed(b)
    ensures c in ComputeBoards(p, die, b) <==> StepTo(p, die, b, c)
  {
    if b.bar.Get(p) > 0 {
      ComputeBoardsOnBar(p, die, b, c);
    } else {
      ComputeBoardsOffBar(p, die, b, c);
    }
  }

  // ---------------------------------------------------------------------
  // A frontier, one die
  // ---------------------------------------------------------------------

  /** One die applied to the frontier: every board computed in order by
      the pool's map, the results flattened when the map returned any. */
  function Step(p: Player, die: int, boards: seq<Board>): (r: seq<Board>)
    requires AllShaped(boards)
    ensures AllShaped(r)
    ensures |boards| > 0 ==> |r| > 0
    ensures |boards| > 0 ==>
              forall c :: c in r <==> exists i :: 0 <= i < |boards| && c in ComputeBoards(p, die, boards[i])
  {
    var computed := seq(|boards|, i requires 0 <= i < |boards| => ComputeBoards(p, die, boards[i]));
    assert forall i :: 0 <= i < |boards| ==> computed[i] == ComputeBoards(p, die, boards[i]);
    if |computed| >= 1 then
      assert |computed[0]| > 0;
      Flatten(computed)
    else
      boards
  }

  /** The frontier after playing the dice in order. */
  function RunDice(p: Player, dice: seq<int>, boards: seq<Board>): (r: seq<Board>)
    requires |boards| > 0 && AllShaped(boards)
    ensures |r| > 0 && AllShaped(r)
    decreases |dice|
  {
    if dice == [] then boards else RunDice(p, dice[1..], Step(p, dice[0], boards))
  }

  /** One die yields exactly the plays of the die on the frontier's
      boards. */
  lemma StepPlaysDie(p: Player, die: int, boards: seq<Board>, c: Board)
    requires |boards| > 0 && AllWellFormed(boards)
    ensures c in Step(p, die, boards) <==> exists i :: 0 <= i < |boards| && StepTo(p, die, boards[i], c)
  {
    AllWellFormedShaped(boards);
    forall i | 0 <= i < |boards|
      ensures c in ComputeBoards(p, die, boards[i]) <==> StepTo(p, die, boards[i], c)
    {
      ComputeBoardsPlaysDie(p, die, boards[i], c);
    }
  }

  /** One die keeps the frontier well formed. */
  lemma StepKeepsWellFormed(p: Player, die: int, boards: seq<Board>)
    requires |boards| > 0 && AllWellFormed(boards)
    ensures AllWellFormed(Step(p, die, boards))
  {
    AllWellFormedShaped(boards);
    forall c | c in Step(p, die, boards)
      ensures WellFormed(c)
    {
      StepPlaysDie(p, die, boards, c);
      var i :| 0 <= i < |boards| && StepTo(p, die, boards[i], c);
      StepToConserves(p, die, boards[i], c);
    }
  }

  /** Every board left after playing the dice is reached from a frontier
      board by playing those dice, one legal movement or forfeit per die. */
  lemma {:induction false} RunDiceSound(p: Player, dice: seq<int>, boards: seq<Board>, c: Board)
    requires |boards| > 0 && AllWellFormed(boards)
    requires c in RunDice(p, dice, boards)
    ensures exists i :: 0 <= i < |boards| && ReachableBy(p, dice, boards[i], c)
    decreases |dice|
  {
    if dice == [] {
      var i :| 0 <= i < |boards| && boards[i] == c;
      assert ReachableBy(p, dice, boards[i], c);
    } else {
      var next := Step(p, dice[0], boards);
      StepKeepsWellFormed(p, dice[0], boards);
      RunDiceSound(p, dice[1..], next, c);
      var j :| 0 <= j < |next| && ReachableBy(p, dice[1..], next[j], c);
      assert next[j] in next;
      StepPlaysDie(p, dice[0], boards, next[j]);
      var i :| 0 <= i < |boards| && StepTo(p, dice[0], boards[i], next[j]);
      assert ReachableBy(p, dice, boards[i], c);
    }
  }

  /** Every board a frontier board reaches by playing the dice is left in
      the frontier after them. */
  lemma {:induction false} RunDiceComplete(p: Player, dice: seq<int>, boards: seq<Board>, b: Board, c: Board)
    requires |boards| > 0 && AllWellFormed(boards)
    requires b in boards && ReachableBy(p, dice, b, c)
    ensures c in RunDice(p, dice, boards)
    decreases |dice|
  {
    if dice != [] {
      var next := Step(p, dice[0], boards);
      StepKeepsWellFormed(p, dice[0], boards);
      var m :| Shaped(m) && StepTo(p, dice[0], b, m) && ReachableBy(p, dice[1..], m, c);
      StepPlaysDie(p, dice[0], boards, m);
      assert m in next;
      RunDiceComplete(p, dice[1..], next, m, c);
    }
  }

  /** The frontier after the dice holds exactly the boards some frontier
      board reaches by playing the dice. */
  lemma RunDiceReachesExactly(p: Player, dice: seq<int>, boards: seq<Board>, c: Board)
    requires |boards| > 0 && AllWellFormed(boards)
    ensures c in RunDice(p, dice, boards) <==> exists i :: 0 <= i < |boards| && ReachableBy(p, dice, boards[i], c)
  {
    if c in RunDice(p, dice, boards) {
      RunDiceSound(p, dice, boards, c);
    }
    if i :| 0 <= i < |boards| && ReachableBy(p, dice, boards[i], c) {
      RunDiceComplete(p, dice, boards, boards[i], c);
    }
  }

  /** `c` is in the final frontier of one of the orders tried. */
  ghost predicate Generates(p: Player, d: Dice, b: Board, c: Board)
    requires Shaped(b)
  {
    exists k :: 0 <= k < |DiceCombinations(d)| && c in RunDice(p, DiceCombinations(d)[k], [b])
  }

  /** From a single well-formed board, the final frontier of one order
      of the dice holds exactly the plays of the dice in that order. */
  lemma RunDiceFromBoard(p: Player, dice: seq<int>, b: Board, c: Board)
    requires WellFormed(b)
    ensures c in RunDice(p, dice, [b]) <==> ReachableBy(p, dice, b, c)
  {
    RunDiceReachesExactly(p, dice, [b], c);
  }

  /** Every board in a final frontier is a play of the roll. */
  lemma GeneratedIsPlay(p: Player, d: Dice, b: Board, c: Board)
    requires WellFormed(b) && Generates(p, d, b, c)
    ensures PlaysRoll(p, d, b, c)
  {
    var combos := DiceCombinations(d);
    var k :| 0 <= k < |combos| && c in RunDice(p, combos[k], [b]);
    RunDiceFromBoard(p, combos[k], b, c);
    assert IsOrder(d, combos[k]);
  }

  /** Every play of the roll is in a final frontier. */
  lemma PlayIsGenerated(p: Player, d: Dice, b: Board, c: Board)
    requires WellFormed(b) && PlaysRoll(p, d, b, c)
    ensures Generates(p, d, b, c)
  {
    var combos := DiceCombinations(d);
    var dice :| IsOrder(d, dice) && ReachableBy(p, dice, b, c);
    var k :| 0 <= k < |combos| && combos[k] == dice;
    RunDiceFromBoard(p, dice, b, c);
  }

  /** On a well-formed board the final frontiers hold exactly the plays
      of the roll. */
  lemma GeneratesExactlyTheRoll(p: Player, d: Dice, b: Board, c: Board)
    requires WellFormed(b)
    ensures Generates(p, d, b, c) <==> PlaysRoll(p, d, b, c)
  {
    if Generates(p, d, b, c) {
      GeneratedIsPlay(p, d, b, c);
    }
    if PlaysRoll(p, d, b, c) {
      PlayIsGenerated(p, d, b, c);
    }
  }

  // ---------------------------------------------------------------------
  // The generator
  // ---------------------------------------------------------------------

  /** Playing dice is playing the first die, then the rest. */
  lemma RunDiceFirst(p: Player, dice: seq<int>, boards: seq<Board>)
    requires |dice| > 0 && |boards| > 0 && AllShaped(boards)
    ensures RunDice(p, dice, boards) == RunDice(p, dice[1..], Step(p, dice[0], boards))
  {
  }

  /** The frontier after playing one order of the dice from `b`, built
      die by die as the source's inner loop does. */
  method PlayDice(p: Player, dice: seq<int>, b: Board) returns (boards: seq<Board>)
    requires Shaped(b)
    ensures boards == RunDice(p, dice, [b])
  {
    boards := [b];
    var i := 0;
    while i < |dice|
      invariant 0 <= i <= |dice|
      invariant |boards| > 0 && AllShaped(boards)
      invariant RunDice(p, dice[i..], boards) == RunDice(p, dice, [b])
    {
      RunDiceFirst(p, dice[i..], boards);
      assert dice[i..][1..] == dice[i + 1..];
      boards := Step(p, dice[i], boards);
      i := i + 1;
    }
    assert dice[i..] == [];
  }

  /** The final frontiers of the given orders of the dice, laid end to
      end, as the source's outer loop collects them. */
  method PlayAll(p: Player, combos: seq<seq<int>>, b: Board) returns (all: seq<Board>)
    requires Shaped(b) && |combos| > 0
    ensures |all| > 0
    ensures forall c :: c in all <==> exists j :: 0 <= j < |combos| && c in RunDice(p, combos[j], [b])
  {
    all := [];
    var k := 0;
    while k < |combos|
      invariant 0 <= k <= |combos|
      invariant k > 0 ==> |all| > 0
      invariant forall c :: c in all <==> exists j :: 0 <= j < k && c in RunDice(p, combos[j], [b])
    {
      var boards := PlayDice(p, combos[k], b);
      ghost var before := all;
      all := all + boards;
      forall c
        ensures c in all <==> exists j :: 0 <= j < k + 1 && c in RunDice(p, combos[j], [b])
      {
        assert c in all <==> c in before || c in boards;
      }
      k := k + 1;
    }
  }

  /** All distinct boards `p` can reach from `b` with the roll `d`: on a
      well-formed board, exactly the boards a legal play of the roll in
      one of its orders reaches; a sound board yields sound boards. */
  method GenerateAllBoards(p: Player, d: Dice, b: Board) returns (r: seq<Board>)
    requires Shaped(b)
    ensures NoDuplicates(r) && |r| > 0
    ensures WellFormed(b) ==> forall c :: c in r <==> PlaysRoll(p, d, b, c)
    ensures Sound(b) ==> AllSound(r)
  {
    var all := PlayAll(p, DiceCombinations(d), b);
    assert all[0] in all;
    r := Deduplicate(all);
    if WellFormed(b) {
      forall c
        ensures c in r <==> PlaysRoll(p, d, b, c)
        ensures c in r ==> (Sound(b) ==> Sound(c))
      {
        assert c in r <==> Generates(p, d, b, c);
        GeneratesExactlyTheRoll(p, d, b, c);
        if c in r {
          PlaysRollConserves(p, d, b, c);
        }
      }
    }
  }

  /** On a well-formed board the two generators find the same boards:
      `move.py` checks the bar on the first frontier board only and
      prefers bearing off, but neither choice loses a play. */
  lemma GeneratorsAgree(p: Player, d: Dice, b: Board, c: Board)
    requires WellFormed(b)
    ensures Generates(p, d, b, c) <==> BoardFactory.Generates(p, d, b, c)
  {
    GeneratesExactlyTheRoll(p, d, b, c);
    BoardFactory.GeneratesExactlyTheRoll(p, d, b, c);
  }
}
