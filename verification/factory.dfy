/** The board generator of `move.py`.

    For each order in which the dice may be played, the frontier starts
    as the single given board; every die replaces each frontier board by
    the boards one movement with that die produces, or keeps the board
    when there are none. The final frontiers of all orders are merged
    without duplicates.

    Two choices shape how this generator searches, though not what it
    finds (see `GeneratesExactlyTheRoll`). The first board of the
    frontier alone decides whether the bar must be entered; and at an
    occupied point a legal bear-off is taken in preference to the normal
    move from that point, which is then not tried.
 */
module BoardFactory {
  import opened Errors
  import opened Boards
  import opened DiceRolls
  import opened Moves
  import opened Frontiers
  import opened Successors
  import opened Counting

  /** The orders in which a roll is played: the rolled number four times
      for doubles, otherwise both orders of the two dice, smaller first. */
  function DiceCombinations(d: Dice): (r: seq<seq<int>>)
    ensures |r| == if IsDoubles(d) then 1 else 2
    ensures forall k :: 0 <= k < |r| ==> IsOrder(d, r[k])
    ensures forall dice :: IsOrder(d, dice) ==> dice in r
    ensures !IsDoubles(d) ==> |r[0]| == 2 && r[0][0] < r[0][1]
  {
    if IsDoubles(d) then [FourOf(d.die1)] else [Ascending(d), Descending(d)]
  }

  // ---------------------------------------------------------------------
  // One board, one die
  // ---------------------------------------------------------------------

  /** Entering from the bar at the die's point, if that is legal: with
      checkers on the bar this is every legal play of the die. */
  function BarChildren(p: Player, die: int, b: Board): (r: seq<Board>)
    requires Shaped(b)
    ensures |r| <= 1 && AllShaped(r)
    ensures |r| == 0 <==> BarMove(p, die, b, BarDestination(p, die)).Failure?
    ensures forall c :: c in r <==> BarMove(p, die, b, BarDestination(p, die)) == Ok(c)
    ensures WellFormed(b) && b.bar.Get(p) > 0 ==> forall c :: c in r <==> LegalSuccessor(p, die, b, c)
  {
    var r := match BarMove(p, die, b, BarDestination(p, die))
      case Ok(c) => [c]
      case Failure(_) => [];
    assert WellFormed(b) && b.bar.Get(p) > 0 ==> forall c :: c in r <==> LegalSuccessor(p, die, b, c) by {
      if WellFormed(b) && b.bar.Get(p) > 0 {
        forall c ensures c in r <==> LegalSuccessor(p, die, b, c) {
          SuccessorsOnBar(p, die, b, c);
        }
      }
    }
    r
  }

  /** The movement tried from an occupied point: bearing off if that is
      legal, otherwise the normal move by the die. Together these are
      every legal movement from the point, since a legal bear-off and a
      legal normal move never compete. */
  function TryPoint(p: Player, die: int, b: Board, pos: int): (r: seq<Board>)
    requires Shaped(b) && OnBoard(pos)
    ensures |r| <= 1 && AllShaped(r)
    ensures |r| == 0 <==>
              BearOffMove(p, die, b, pos).Failure? && NormalMove(p, die, b, pos, Destination(p, die, pos)).Failure?
    ensures forall c :: c in r <==>
              BearOffMove(p, die, b, pos) == Ok(c) || NormalMove(p, die, b, pos, Destination(p, die, pos)) == Ok(c)
    ensures BearOffMove(p, die, b, pos).Ok? ==> r == [BearOffMove(p, die, b, pos).value]
  {
    match BearOffMove(p, die, b, pos)
    case Ok(c) =>
      BearOffExcludesNormal(p, die, b, pos);
      [c]
    case Failure(_) =>
      match NormalMove(p, die, b, pos, Destination(p, die, pos))
      case Ok(c) => [c]
      case Failure(_) => []
  }

  /** The boards reached from the points `0 .. n-1` that `p` occupies, in
      point order. */
  function PointChildren(p: Player, die: int, b: Board, n: int): (r: seq<Board>)
    requires Shaped(b) && 0 <= n <= NumPoints
    ensures AllShaped(r)
    ensures forall c :: c in r <==>
              exists pos :: 0 <= pos < n && GetCheckers(b, pos, Some(p)) > 0 && c in TryPoint(p, die, b, pos)
  {
    if n == 0 then []
    else
      var front := PointChildren(p, die, b, n - 1);
      var last := if GetCheckers(b, n - 1, Some(p)) > 0 then TryPoint(p, die, b, n - 1) else [];
      assert forall c :: c in front + last <==> c in front || c in last;
      front + last
  }

  /** The boards replacing `b` for one die: the bar entry when `bar` is
      set, otherwise the movements from every occupied point; `b` itself
      when there are none. */
  function Expand(p: Player, die: int, b: Board, bar: bool): (r: seq<Board>)
    requires Shaped(b)
    ensures |r| > 0 && AllShaped(r)
  {
    var kids := if bar then BarChildren(p, die, b) else PointChildren(p, die, b, NumPoints);
    if |kids| > 0 then kids else [b]
  }

  /** With the bar clear, every legal movement is found at some point. */
  lemma PointChildrenComplete(p: Player, die: int, b: Board, c: Board)
    requires WellFormed(b) && b.bar.Get(p) == 0 && LegalSuccessor(p, die, b, c)
    ensures c in PointChildren(p, die, b, NumPoints)
  {
    SuccessorsOffBar(p, die, b, c);
    if start :| OnBoard(start) && NormalMove(p, die, b, start, Destination(p, die, start)) == Ok(c) {
      assert c in TryPoint(p, die, b, start);
    } else {
      var start :| OnBoard(start) && BearOffMove(p, die, b, start) == Ok(c);
      assert c in TryPoint(p, die, b, start);
    }
  }

  /** Every board found at some point is a legal movement. */
  lemma PointChildrenSound(p: Player, die: int, b: Board, c: Board)
    requires Shaped(b) && c in PointChildren(p, die, b, NumPoints)
    ensures LegalSuccessor(p, die, b, c)
  {
    var pos :| 0 <= pos < NumPoints && GetCheckers(b, pos, Some(p)) > 0 && c in TryPoint(p, die, b, pos);
    if BearOffMove(p, die, b, pos) != Ok(c) {
      assert NormalMove(p, die, b, pos, Destination(p, die, pos)) == Ok(c);
    }
  }

  /** For a board whose bar matches the mode, `Expand` yields exactly the
      plays of the die: every legal movement, or the board itself when no
      movement can use the die. */
  lemma ExpandPlaysDie(p: Player, die: int, b: Board, bar: bool, c: Board)
    requires WellFormed(b) && (bar <==> b.bar.Get(p) > 0)
    ensures c in Expand(p, die, b, bar) <==> StepTo(p, die, b, c)
  {
    if bar {
      forall c' {
        SuccessorsOnBar(p, die, b, c');
      }
    } else {
      var kids := PointChildren(p, die, b, NumPoints);
      forall c' | LegalSuccessor(p, die, b, c')
        ensures c' in kids
      {
        PointChildrenComplete(p, die, b, c');
      }
      forall c' | c' in kids
        ensures LegalSuccessor(p, die, b, c')
      {
        PointChildrenSound(p, die, b, c');
      }
      if |kids| > 0 {
        assert kids[0] in kids;
      }
    }
  }

  /** With the bar clear, every board `Expand` yields keeps it clear. */
  lemma ExpandKeepsBarClear(p: Player, die: int, b: Board, c: Board)
    requires WellFormed(b) && b.bar.Get(p) == 0 && c in Expand(p, die, b, false)
    ensures c.bar.Get(p) == 0
  {
    ExpandPlaysDie(p, die, b, false, c);
    if LegalSuccessor(p, die, b, c) {
      SuccessorKeepsBarClear(p, die, b, c);
    }
  }

  // ---------------------------------------------------------------------
  // A frontier, one die
  // ---------------------------------------------------------------------

  /** Every board of the frontier replaced by its expansion, flattened in
      order. */
  function ComputeBoards(p: Player, die: int, boards: seq<Board>, bar: bool): (r: seq<Board>)
    requires AllShaped(boards)
    ensures AllShaped(r)
    ensures |boards| > 0 ==> |r| > 0
    ensures |boards| == 1 ==> r == Expand(p, die, boards[0], bar)
    ensures forall c :: c in r <==> exists i :: 0 <= i < |boards| && c in Expand(p, die, boards[i], bar)
  {
    var expanded := seq(|boards|, i requires 0 <= i < |boards| => Expand(p, die, boards[i], bar));
    assert |boards| > 0 ==> |expanded[0]| > 0;
    assert forall i :: 0 <= i < |boards| ==> expanded[i] == Expand(p, die, boards[i], bar);
    Flatten(expanded)
  }

  /** One die applied to the frontier; the first board decides whether
      the bar is entered. */
  function Step(p: Player, die: int, boards: seq<Board>): (r: seq<Board>)
    requires |boards| > 0 && AllShaped(boards)
    ensures |r| > 0 && AllShaped(r)
  {
    ComputeBoards(p, die, boards, boards[0].bar.Get(p) > 0)
  }

  /** The frontier after playing the dice in order. */
  function RunDice(p: Player, dice: seq<int>, boards: seq<Board>): (r: seq<Board>)
    requires |boards| > 0 && AllShaped(boards)
    ensures |r| > 0 && AllShaped(r)
    decreases |dice|
  {
    if dice == [] then boards else RunDice(p, dice[1..], Step(p, dice[0], boards))
  }

  // ---------------------------------------------------------------------
  // What the frontier holds
  // ---------------------------------------------------------------------

  /** The frontier is a single board, or none of its boards has a checker
      of `p` on the bar; either way its first board speaks for all. */
  predicate BarAgrees(p: Player, boards: seq<Board>) {
    |boards| == 1 || forall b :: b in boards ==> b.bar.Get(p) == 0
  }

  /** In a frontier whose bars agree, every board has a checker of `p`
      on the bar exactly when the first board has. */
  lemma BarAgreesWithFirst(p: Player, boards: seq<Board>)
    requires |boards| > 0 && BarAgrees(p, boards)
    ensures forall i :: 0 <= i < |boards| ==> (boards[i].bar.Get(p) > 0 <==> boards[0].bar.Get(p) > 0)
  {
    forall i | 0 <= i < |boards|
      ensures boards[i].bar.Get(p) > 0 <==> boards[0].bar.Get(p) > 0
    {
      assert boards[0] in boards && boards[i] in boards;
    }
  }

  /** With the frontier's bars in agreement, one die yields exactly the
      plays of the die on the frontier's boards. */
  lemma StepPlaysDie(p: Player, die: int, boards: seq<Board>, c: Board)
    requires |boards| > 0 && AllWellFormed(boards) && BarAgrees(p, boards)
    ensures c in Step(p, die, boards) <==> exists i :: 0 <= i < |boards| && StepTo(p, die, boards[i], c)
  {
    var bar := boards[0].bar.Get(p) > 0;
    AllWellFormedShaped(boards);
    assert c in Step(p, die, boards) <==> c in ComputeBoards(p, die, boards, bar);
    BarAgreesWithFirst(p, boards);
    forall i | 0 <= i < |boards|
      ensures c in Expand(p, die, boards[i], bar) <==> StepTo(p, die, boards[i], c)
    {
      ExpandPlaysDie(p, die, boards[i], bar, c);
    }
  }

  /** One die keeps the frontier well formed. */
  lemma StepKeepsWellFormed(p: Player, die: int, boards: seq<Board>)
    requires |boards| > 0 && AllWellFormed(boards) && BarAgrees(p, boards)
    ensures AllWellFormed(Step(p, die, boards))
  {
    AllWellFormedShaped(boards);
    forall c | c in Step(p, die, boards)
      ensures WellFormed(c)
    {
      StepPlaysDie(p, die, boards, c);
      var i :| 0 <= i < |boards| && StepTo(p, die, boards[i], c);
      StepToConserves(p, die, boards[i], c);
    }
  }

  /** One die keeps the frontier's bars in agreement: a frontier on the
      bar holds one board and yields one board, and a frontier off the
      bar stays off it. */
  lemma StepKeepsBarAgreement(p: Player, die: int, boards: seq<Board>)
    requires |boards| > 0 && AllWellFormed(boards) && BarAgrees(p, boards)
    ensures BarAgrees(p, Step(p, die, boards))
  {
    AllWellFormedShaped(boards);
    var r := Step(p, die, boards);
    if boards[0].bar.Get(p) > 0 {
      assert |boards| == 1 by {
        assert boards[0] in boards;
      }
      assert |BarChildren(p, die, boards[0])| <= 1;
    } else {
      if |boards| == 1 {
        forall b | b in boards
          ensures b.bar.Get(p) == 0
        {
          assert b == boards[0];
        }
      }
      forall c | c in r
        ensures c.bar.Get(p) == 0
      {
        var i :| 0 <= i < |boards| && c in Expand(p, die, boards[i], false);
        assert boards[i] in boards;
        ExpandKeepsBarClear(p, die, boards[i], c);
      }
    }
  }

  /** One die keeps the frontier well formed and its bars in agreement. */
  lemma StepKeepsFrontier(p: Player, die: int, boards: seq<Board>)
    requires |boards| > 0 && AllWellFormed(boards) && BarAgrees(p, boards)
    ensures AllWellFormed(Step(p, die, boards)) && BarAgrees(p, Step(p, die, boards))
  {
    StepKeepsWellFormed(p, die, boards);
    StepKeepsBarAgreement(p, die, boards);
  }

  /** Every board left after playing the dice is reached from a frontier
      board by playing those dice, one legal movement or forfeit per die. */
  lemma {:induction false} RunDiceSound(p: Player, dice: seq<int>, boards: seq<Board>, c: Board)
    requires |boards| > 0 && AllWellFormed(boards) && BarAgrees(p, boards)
    requires c in RunDice(p, dice, boards)
    ensures exists i :: 0 <= i < |boards| && ReachableBy(p, dice, boards[i], c)
    decreases |dice|
  {
    if dice == [] {
      var i :| 0 <= i < |boards| && boards[i] == c;
      assert ReachableBy(p, dice, boards[i], c);
    } else {
      var next := Step(p, dice[0], boards);
      StepKeepsFrontier(p, dice[0], boards);
      RunDiceSound(p, dice[1..], next, c);
      var j :| 0 <= j < |next| && ReachableBy(p, dice[1..], next[j], c);
      assert next[j] in next;
      StepPlaysDie(p, dice[0], boards, next[j]);
      var i :| 0 <= i < |boards| && StepTo(p, dice[0], boards[i], next[j]);
      assert ReachableBy(p, dice, boards[i], c);
    }
  }

  /** Every board a frontier board reaches by playing the dice is left in
      the frontier after them. */
  lemma {:induction false} RunDiceComplete(p: Player, dice: seq<int>, boards: seq<Board>, b: Board, c: Board)
    requires |boards| > 0 && AllWellFormed(boards) && BarAgrees(p, boards)
    requires b in boards && ReachableBy(p, dice, b, c)
    ensures c in RunDice(p, dice, boards)
    decreases |dice|
  {
    if dice != [] {
      var next := Step(p, dice[0], boards);
      StepKeepsFrontier(p, dice[0], boards);
      var m :| Shaped(m) && StepTo(p, dice[0], b, m) && ReachableBy(p, dice[1..], m, c);
      StepPlaysDie(p, dice[0], boards, m);
      assert m in next;
      RunDiceComplete(p, dice[1..], next, m, c);
    }
  }

  /** The frontier after the dice holds exactly the boards some frontier
      board reaches by playing the dice. */
  lemma RunDiceReachesExactly(p: Player, dice: seq<int>, boards: seq<Board>, c: Board)
    requires |boards| > 0 && AllWellFormed(boards) && BarAgrees(p, boards)
    ensures c in RunDice(p, dice, boards) <==> exists i :: 0 <= i < |boards| && ReachableBy(p, dice, boards[i], c)
  {
    if c in RunDice(p, dice, boards) {
      RunDiceSound(p, dice, boards, c);
    }
    if i :| 0 <= i < |boards| && ReachableBy(p, dice, boards[i], c) {
      RunDiceComplete(p, dice, boards, boards[i], c);
    }
  }

  /** `c` is in the final frontier of one of the orders tried. */
  ghost predicate Generates(p: Player, d: Dice, b: Board, c: Board)
    requires Shaped(b)
  {
    exists k :: 0 <= k < |DiceCombinations(d)| && c in RunDice(p, DiceCombinations(d)[k], [b])
  }

  /** From a single well-formed board, the final frontier of one order
      of the dice holds exactly the plays of the dice in that order. */
  lemma RunDiceFromBoard(p: Player, dice: seq<int>, b: Board, c: Board)
    requires WellFormed(b)
    ensures c in RunDice(p, dice, [b]) <==> ReachableBy(p, dice, b, c)
  {
    RunDiceReachesExactly(p, dice, [b], c);
  }

  /** Every board in a final frontier is a play of the roll. */
  lemma GeneratedIsPlay(p: Player, d: Dice, b: Board, c: Board)
    requires WellFormed(b) && Generates(p, d, b, c)
    ensures PlaysRoll(p, d, b, c)
  {
    var combos := DiceCombinations(d);
    var k :| 0 <= k < |combos| && c in RunDice(p, combos[k], [b]);
    RunDiceFromBoard(p, combos[k], b, c);
    assert IsOrder(d, combos[k]);
  }

  /** Every play of the roll is in a final frontier. */
  lemma PlayIsGenerated(p: Player, d: Dice, b: Board, c: Board)
    requires WellFormed(b) && PlaysRoll(p, d, b, c)
    ensures Generates(p, d, b, c)
  {
    var combos := DiceCombinations(d);
    var dice :| IsOrder(d, dice) && ReachableBy(p, dice, b, c);
    var k :| 0 <= k < |combos| && combos[k] == dice;
    RunDiceFromBoard(p, dice, b, c);
  }

  /** On a well-formed board the final frontiers hold exactly the plays
      of the roll. */
  lemma GeneratesExactlyTheRoll(p: Player, d: Dice, b: Board, c: Board)
    requires WellFormed(b)
    ensures Generates(p, d, b, c) <==> PlaysRoll(p, d, b, c)
  {
    if Generates(p, d, b, c) {
      GeneratedIsPlay(p, d, b, c);
    }
    if PlaysRoll(p, d, b, c) {
      PlayIsGenerated(p, d, b, c);
    }
  }

  // ---------------------------------------------------------------------
  // The generator
  // ---------------------------------------------------------------------

  /** Playing dice is playing the first die, then the rest. */
  lemma RunDiceFirst(p: Player, dice: seq<int>, boards: seq<Board>)
    requires |dice| > 0 && |boards| > 0 && AllShaped(boards)
    ensures RunDice(p, dice, boards) == RunDice(p, dice[1..], Step(p, dice[0], boards))
  {
  }

  /** The frontier after playing one order of the dice from `b`, built
      die by die as the source's inner loop does. */
  method PlayDice(p: Player, dice: seq<int>, b: Board) returns (boards: seq<Board>)
    requires Shaped(b)
    ensures boards == RunDice(p, dice, [b])
  {
    boards := [b];
    var i := 0;
    while i < |dice|
      invariant 0 <= i <= |dice|
      invariant |boards| > 0 && AllShaped(boards)
      invariant RunDice(p, dice[i..], boards) == RunDice(p, dice, [b])
    {
      RunDiceFirst(p, dice[i..], boards);
      assert dice[i..][1..] == dice[i + 1..];
      boards := Step(p, dice[i], boards);
      i := i + 1;
    }
    assert dice[i..] == [];
  }

  /** The final frontiers of the given orders of the dice, laid end to
      end, as the source's outer loop collects them. */
  method PlayAll(p: Player, combos: seq<seq<int>>, b: Board) returns (all: seq<Board>)
    requires Shaped(b) && |combos| > 0
    ensures |all| > 0
    ensures forall c :: c in all <==> exists j :: 0 <= j < |combos| && c in RunDice(p, combos[j], [b])
  {
    all := [];
    var k := 0;
    while k < |combos|
      invariant 0 <= k <= |combos|
      invariant k > 0 ==> |all| > 0
      invariant forall c :: c in all <==> exists j :: 0 <= j < k && c in RunDice(p, combos[j], [b])
    {
      var boards := PlayDice(p, combos[k], b);
      ghost var before := all;
      all := all + boards;
      forall c
        ensures c in all <==> exists j :: 0 <= j < k + 1 && c in RunDice(p, combos[j], [b])
      {
        assert c in all <==> c in before || c in boards;
      }
      k := k + 1;
    }
  }

  /** All distinct boards `p` can reach from `b` with the roll `d`: on a
      well-formed board, exactly the boards a legal play of the roll in
      one of its orders reaches; a sound board yields sound boards. */
  method GenerateAllBoards(p: Player, d: Dice, b: Board) returns (r: seq<Board>)
    requires Shaped(b)
    ensures NoDuplicates(r) && |r| > 0
    ensures WellFormed(b) ==> forall c :: c in r <==> PlaysRoll(p, d, b, c)
    ensures Sound(b) ==> AllSound(r)
  {
    var all := PlayAll(p, DiceCombinations(d), b);
    assert all[0] in all;
    r := Deduplicate(all);
    if WellFormed(b) {
      forall c
        ensures c in r <==> PlaysRoll(p, d, b, c)
        ensures c in r ==> (Sound(b) ==> Sound(c))
      {
        assert c in r <==> Generates(p, d, b, c);
        GeneratesExactlyTheRoll(p, d, b, c);
        if c in r {
          PlaysRollConserves(p, d, b, c);
        }
      }
    }
  }

  // ---------------------------------------------------------------------
  // compute_boards as written
  // ---------------------------------------------------------------------

  /** An entry of the list `compute_boards` rewrites in place: a board
      without children stays a board, a board with children becomes the
      list of them. */
  datatype Entry = Kept(board: Board) | Replaced(children: seq<Board>)

  /** Every entry is a board, as the callers of `compute_boards` expect. */
  predicate Plain(entries: seq<Entry>) {
    forall e :: e in entries ==> e.Kept?
  }

  /** The boards of a list whose entries are all boards. */
  function BoardsOf(entries: seq<Entry>): (r: seq<Board>)
    requires Plain(entries)
    ensures |r| == |entries| && forall i :: 0 <= i < |r| ==> Kept(r[i]) == entries[i]
  {
    assert forall i :: 0 <= i < |entries| ==> entries[i] in entries;
    seq(|entries|, i requires 0 <= i < |entries| => entries[i].board)
  }

  /** Boards as entries. */
  function Wrap(boards: seq<Board>): (r: seq<Entry>)
    ensures Plain(r) && BoardsOf(r) == boards
  {
    var r := seq(|boards|, i requires 0 <= i < |boards| => Kept(boards[i]));
    assert BoardsOf(r) == boards;
    r
  }

  /** The entry `compute_boards` leaves in place of one board. */
  function EntryFor(p: Player, die: int, b: Board, bar: bool): (e: Entry)
    requires Shaped(b)
    ensures e.Kept? ==> e.board == b && Expand(p, die, b, bar) == [b]
    ensures e.Replaced? ==> e.children == Expand(p, die, b, bar)
  {
    var kids := if bar then BarChildren(p, die, b) else PointChildren(p, die, b, NumPoints);
    if |kids| > 0 then Replaced(kids) else Kept(b)
  }

  /** The entries `compute_boards` leaves in place of the frontier's boards. */
  function Entries(p: Player, die: int, boards: seq<Board>, bar: bool): (entries: seq<Entry>)
    requires AllShaped(boards)
    ensures |entries| == |boards|
    ensures forall i :: 0 <= i < |boards| ==> entries[i] == EntryFor(p, die, boards[i], bar)
  {
    seq(|boards|, i requires 0 <= i < |boards| => assert boards[i] in boards; EntryFor(p, die, boards[i], bar))
  }

  /** Every board of the frontier has children. */
  predicate AllHaveChildren(p: Player, die: int, boards: seq<Board>, bar: bool)
    requires AllShaped(boards)
  {
    forall b :: b in boards ==> EntryFor(p, die, b, bar).Replaced?
  }

  /** No board of the frontier has children. */
  predicate NoneHasChildren(p: Player, die: int, boards: seq<Board>, bar: bool)
    requires AllShaped(boards)
  {
    forall b :: b in boards ==> EntryFor(p, die, b, bar).Kept?
  }

  /** The children of entries that are all lists. */
  function ChildLists(entries: seq<Entry>): (r: seq<seq<Board>>)
    requires forall i :: 0 <= i < |entries| ==> entries[i].Replaced?
    ensures |r| == |entries| && forall i :: 0 <= i < |r| ==> r[i] == entries[i].children
  {
    seq(|entries|, i requires 0 <= i < |entries| => entries[i].children)
  }

  /** When every board has children, flattening their lists is the
      frontier `ComputeBoards` gives. */
  lemma AllReplacedFlatten(p: Player, die: int, boards: seq<Board>, bar: bool)
    requires AllShaped(boards) && AllHaveChildren(p, die, boards, bar)
    ensures forall i :: 0 <= i < |boards| ==> Entries(p, die, boards, bar)[i].Replaced?
    ensures Flatten(ChildLists(Entries(p, die, boards, bar))) == ComputeBoards(p, die, boards, bar)
  {
    var entries := Entries(p, die, boards, bar);
    forall i | 0 <= i < |boards|
      ensures entries[i].Replaced? && entries[i].children == Expand(p, die, boards[i], bar)
    {
      assert boards[i] in boards;
    }
    var expanded := seq(|boards|, i requires 0 <= i < |boards| => Expand(p, die, boards[i], bar));
    assert ComputeBoards(p, die, boards, bar) == Flatten(expanded);
    assert ChildLists(entries) == expanded;
  }

  /** When no board has children, the frontier `ComputeBoards` gives is
      the frontier itself. */
  lemma NoneReplacedKeeps(p: Player, die: int, boards: seq<Board>, bar: bool)
    requires AllShaped(boards) && NoneHasChildren(p, die, boards, bar)
    ensures ComputeBoards(p, die, boards, bar) == boards
  {
    var expanded := seq(|boards|, i requires 0 <= i < |boards| => Expand(p, die, boards[i], bar));
    assert ComputeBoards(p, die, boards, bar) == Flatten(expanded);
    forall i | 0 <= i < |boards|
      ensures expanded[i] == [boards[i]]
    {
      assert boards[i] in boards;
    }
    FlattenSingletons(expanded, boards);
  }

  /** When some boards have children and some do not, the entries mix
      boards with lists. */
  lemma MixedEntries(p: Player, die: int, boards: seq<Board>, bar: bool)
    requires AllShaped(boards)
    requires !AllHaveChildren(p, die, boards, bar) && !NoneHasChildren(p, die, boards, bar)
    ensures !Plain(Entries(p, die, boards, bar))
  {
    var b :| b in boards && EntryFor(p, die, b, bar).Replaced?;
    var k :| 0 <= k < |boards| && boards[k] == b;
    assert Entries(p, die, boards, bar)[k] in Entries(p, die, boards, bar);
  }

  /** The list `compute_boards` returns as written. Each board with
      children is replaced in place by the list of them. The flattening
      that follows succeeds only when every entry became a list; when
      none did it fails and the boards are returned as they stand; when
      some did and some did not, it fails too and the mixed entries are
      returned. The result is a list of boards exactly when all the
      frontier's boards have children or none has, and it is then the
      frontier `ComputeBoards` gives. */
  function ComputeBoardsAsWritten(p: Player, die: int, boards: seq<Board>, bar: bool): (r: seq<Entry>)
    requires AllShaped(boards)
    ensures Plain(r) <==> AllHaveChildren(p, die, boards, bar) || NoneHasChildren(p, die, boards, bar)
    ensures Plain(r) ==> BoardsOf(r) == ComputeBoards(p, die, boards, bar)
  {
    if AllHaveChildren(p, die, boards, bar) then
      AllReplacedFlatten(p, die, boards, bar);
      Wrap(Flatten(ChildLists(Entries(p, die, boards, bar))))
    else if NoneHasChildren(p, die, boards, bar) then
      NoneReplacedKeeps(p, die, boards, bar);
      Wrap(boards)
    else
      MixedEntries(p, die, boards, bar);
      Entries(p, die, boards, bar)
  }

  /** The mixed start's owner of point `i`. */
  function MixedColor(i: int): Color {
    if i == 0 || i == 10 then White else if i == 3 || i == 12 then Black else Neither
  }

  /** The mixed start's checker count on point `i`. */
  function MixedCount(i: int): int {
    if i == 0 || i == 10 then 1 else if i == 3 || i == 12 then 2 else 0
  }

  /** White with one checker on points 0 and 10 and thirteen borne off;
      Black with two on points 3 and 12 and eleven borne off. */
  function MixedStart(): (b: Board)
    ensures WellFormed(b) && b.bar == PerPlayer(0, 0) && b.off == PerPlayer(13, 11)
    ensures forall i :: 0 <= i < NumPoints ==> b.colors[i] == MixedColor(i) && b.counts[i] == MixedCount(i)
  {
    Board(seq(NumPoints, i => MixedCount(i)), seq(NumPoints, i => MixedColor(i)), PerPlayer(0, 0), PerPlayer(13, 11))
  }

  /** White's checkers on the mixed start's first `n` points number one
      for each of points 0 and 10 among them; Black's, two for each of
      points 3 and 12. */
  lemma {:induction false} MixedPointsTotals(n: nat)
    requires n <= NumPoints
    ensures PointsTotal(MixedStart(), White, n) == (if n > 0 then 1 else 0) + (if n > 10 then 1 else 0)
    ensures PointsTotal(MixedStart(), Black, n) == (if n > 3 then 2 else 0) + (if n > 12 then 2 else 0)
  {
    if n > 0 {
      MixedPointsTotals(n - 1);
    }
  }

  /** The mixed start is a legal position. */
  lemma MixedStartSound()
    ensures WellFormed(MixedStart()) && FullSets(MixedStart())
  {
    MixedPointsTotals(NumPoints);
  }

  /** From a single board with the bar clear, the board a legal normal
      move reaches is in the frontier after that die. */
  lemma NormalMoveInFrontier(p: Player, die: int, x: Board, start: int, end: int)
    requires WellFormed(x) && x.bar.Get(p) == 0 && NormalMove(p, die, x, start, end).Ok?
    ensures NormalMove(p, die, x, start, end).value in ComputeBoards(p, die, [x], false)
  {
    ExpandPlaysDie(p, die, x, false, NormalMove(p, die, x, start, end).value);
  }

  /** On a board where White owns only points 1 and 10, and Black holds
      points 3 and 12 with two checkers or more, White cannot play a 2:
      both moves land on a held point, and the checker on 10 rules out
      bearing off. */
  lemma BlockedForTwo(a: Board)
    requires WellFormed(a) && a.bar.Get(White) == 0
    requires forall i :: 0 <= i < NumPoints && a.colors[i] == White ==> i == 1 || i == 10
    requires a.colors[10] == White
    requires a.colors[3] == Black && a.counts[3] >= 2 && a.colors[12] == Black && a.counts[12] >= 2
    ensures EntryFor(White, 2, a, false).Kept?
  {
    assert !AllHome(a, White) by {
      assert GetCheckers(a, 10, Some(White)) > 0 && !InHomeBoard(White, 10);
    }
    assert TryPoint(White, 2, a, 1) == [] && TryPoint(White, 2, a, 10) == [];
    NonEmptyHasMember(PointChildren(White, 2, a, NumPoints));
  }

  /** On a board where White has a checker on point 0, point 2 is empty
      and the bar is clear, White can play a 2. */
  lemma OpenForTwo(b: Board)
    requires WellFormed(b) && b.bar.Get(White) == 0
    requires b.colors[0] == White && b.colors[2] == Neither
    ensures EntryFor(White, 2, b, false).Replaced?
  {
    assert NormalLegal(White, 2, b, 0, 2);
    var c := NormalMove(White, 2, b, 0, 2).value;
    assert GetCheckers(b, 0, Some(White)) > 0 && c in TryPoint(White, 2, b, 0);
    assert c in PointChildren(White, 2, b, NumPoints);
  }

  /** After the 1 from the mixed start, the frontier holds both the
      board with White's checker moved from point 0 to 1 and the one with
      the checker moved from 10 to 11. */
  lemma MixedAfterOne()
    ensures NormalMove(White, 1, MixedStart(), 0, 1).Ok? && NormalMove(White, 1, MixedStart(), 10, 11).Ok?
    ensures NormalMove(White, 1, MixedStart(), 0, 1).value in ComputeBoards(White, 1, [MixedStart()], false)
    ensures NormalMove(White, 1, MixedStart(), 10, 11).value in ComputeBoards(White, 1, [MixedStart()], false)
  {
    var x := MixedStart();
    assert x.colors[0] == White && x.colors[1] == Neither && x.colors[10] == White && x.colors[11] == Neither;
    assert NormalLegal(White, 1, x, 0, 1) && NormalLegal(White, 1, x, 10, 11);
    NormalMoveInFrontier(White, 1, x, 0, 1);
    NormalMoveInFrontier(White, 1, x, 10, 11);
  }

  /** A normal move of a lone checker to an empty point empties the
      start and puts one checker of the player on the end; nothing else
      on the board changes. */
  lemma QuietMove(p: Player, die: int, x: Board, start: int, end: int)
    requires WellFormed(x) && NormalMove(p, die, x, start, end).Ok?
    requires x.counts[start] == 1 && x.colors[end] == Neither
    ensures WellFormed(NormalMove(p, die, x, start, end).value)
    ensures NormalMove(p, die, x, start, end).value.bar == x.bar
    ensures forall i :: 0 <= i < NumPoints ==>
              && NormalMove(p, die, x, start, end).value.colors[i] ==
                   (if i == start then Neither else if i == end then p else x.colors[i])
              && NormalMove(p, die, x, start, end).value.counts[i] ==
                   (if i == start then 0 else if i == end then 1 else x.counts[i])
  {
    NormalMoveConserves(p, die, x, start, end);
    OpponentInvolution(p);
  }

  /** The 2 cannot be played on the board moved from point 0 to 1. */
  lemma MixedStuckAfterOne()
    ensures NormalMove(White, 1, MixedStart(), 0, 1).Ok?
    ensures EntryFor(White, 2, NormalMove(White, 1, MixedStart(), 0, 1).value, false).Kept?
  {
    MixedAfterOne();
    QuietMove(White, 1, MixedStart(), 0, 1);
    BlockedForTwo(NormalMove(White, 1, MixedStart(), 0, 1).value);
  }

  /** The 2 can be played on the board moved from point 10 to 11. */
  lemma MixedMovingAfterOne()
    ensures NormalMove(White, 1, MixedStart(), 10, 11).Ok?
    ensures EntryFor(White, 2, NormalMove(White, 1, MixedStart(), 10, 11).value, false).Replaced?
  {
    MixedAfterOne();
    QuietMove(White, 1, MixedStart(), 10, 11);
    OpenForTwo(NormalMove(White, 1, MixedStart(), 10, 11).value);
  }

  /** White plays 1 then 2 from the mixed start. After the 1, the
      frontier holds a board on which the 2 cannot be played and one on
      which it can, so the second `compute_boards` returns a list mixing
      a board with a list of boards. */
  lemma MixedFrontier()
    ensures WellFormed(MixedStart()) && FullSets(MixedStart())
    ensures !Plain(ComputeBoardsAsWritten(White, 2, ComputeBoards(White, 1, [MixedStart()], false), false))
  {
    MixedStartSound();
    MixedAfterOne();
    MixedStuckAfterOne();
    MixedMovingAfterOne();
  }
}
