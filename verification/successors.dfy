/** What one die can do to a board, stated independently of how the
    generators search for it: the boards one legal move of any kind
    reaches, and the boards a whole sequence of dice reaches when an
    unusable die is forfeited.
 */
module Successors {
  import opened Errors
  import opened Boards
  import opened Counting
  import opened Moves
  import opened DiceRolls

  /** A well-formed board on which both players have their 15 checkers. */
  predicate Sound(b: Board) {
    WellFormed(b) && FullSets(b)
  }

  predicate AllShaped(boards: seq<Board>) {
    forall b :: b in boards ==> Shaped(b)
  }

  predicate AllWellFormed(boards: seq<Board>) {
    forall b :: b in boards ==> WellFormed(b)
  }

  predicate AllSound(boards: seq<Board>) {
    forall b :: b in boards ==> Sound(b)
  }

  /** A well-formed frontier is shaped board by board. */
  lemma AllWellFormedShaped(boards: seq<Board>)
    requires AllWellFormed(boards)
    ensures AllShaped(boards)
    ensures forall i :: 0 <= i < |boards| ==> WellFormed(boards[i]) && Shaped(boards[i])
  {
    forall i | 0 <= i < |boards|
      ensures WellFormed(boards[i])
    {
      assert boards[i] in boards;
    }
  }

  /** `c` results from one legal movement of `p` with `die`, of any kind
      and from any point. */
  ghost predicate LegalSuccessor(p: Player, die: int, b: Board, c: Board)
    requires Shaped(b)
  {
    || (exists end :: BarMove(p, die, b, end) == Ok(c))
    || (exists start, end :: NormalMove(p, die, b, start, end) == Ok(c))
    || (exists start :: BearOffMove(p, die, b, start) == Ok(c))
  }

  /** No legal movement uses `die`: the die is forfeited. */
  ghost predicate Stuck(p: Player, die: int, b: Board)
    requires Shaped(b)
  {
    forall c :: !LegalSuccessor(p, die, b, c)
  }

  /** Playing `die` turns `b` into `c`: by a legal movement, or by
      forfeiting a die nothing can use. */
  ghost predicate StepTo(p: Player, die: int, b: Board, c: Board)
    requires Shaped(b)
  {
    LegalSuccessor(p, die, b, c) || (Stuck(p, die, b) && c == b)
  }

  /** Playing the dice in order turns `b` into `c`. */
  ghost predicate ReachableBy(p: Player, dice: seq<int>, b: Board, c: Board)
    requires Shaped(b)
    decreases |dice|
  {
    if dice == [] then c == b
    else exists m :: Shaped(m) && StepTo(p, dice[0], b, m) && ReachableBy(p, dice[1..], m, c)
  }

  /** Playing the whole roll `d` turns `b` into `c`: a double is played
      four times, two different dice in either order. */
  ghost predicate PlaysRoll(p: Player, d: Dice, b: Board, c: Board)
    requires Shaped(b)
  {
    exists dice :: IsOrder(d, dice) && ReachableBy(p, dice, b, c)
  }

  /** Every legal movement keeps a well-formed board well formed and each
      player's checker total as it was. */
  lemma SuccessorConserves(p: Player, die: int, b: Board, c: Board)
    requires WellFormed(b) && LegalSuccessor(p, die, b, c)
    ensures WellFormed(c)
    ensures Total(c, White) == Total(b, White) && Total(c, Black) == Total(b, Black)
  {
    if end :| BarMove(p, die, b, end) == Ok(c) {
      BarMoveConserves(p, die, b, end);
    } else if start, end :| NormalMove(p, die, b, start, end) == Ok(c) {
      NormalMoveConserves(p, die, b, start, end);
    } else {
      var start :| BearOffMove(p, die, b, start) == Ok(c);
      BearOffMoveConserves(p, die, b, start);
    }
  }

  /** Playing a die keeps a sound board sound. */
  lemma StepToConserves(p: Player, die: int, b: Board, c: Board)
    requires WellFormed(b) && StepTo(p, die, b, c)
    ensures WellFormed(c)
    ensures Sound(b) ==> Sound(c)
  {
    if LegalSuccessor(p, die, b, c) {
      SuccessorConserves(p, die, b, c);
    }
  }

  /** With a checker on the bar, the only legal movement is entering at
      the die's point of the opponent's home board. */
  lemma SuccessorsOnBar(p: Player, die: int, b: Board, c: Board)
    requires WellFormed(b) && b.bar.Get(p) > 0
    ensures LegalSuccessor(p, die, b, c) <==> BarMove(p, die, b, BarDestination(p, die)) == Ok(c)
  {
  }

  /** With the bar clear, the legal movements are the normal moves by the
      die from an own point and the bear-offs. */
  lemma SuccessorsOffBar(p: Player, die: int, b: Board, c: Board)
    requires WellFormed(b) && b.bar.Get(p) == 0
    ensures LegalSuccessor(p, die, b, c) <==>
              || (exists start :: OnBoard(start) && NormalMove(p, die, b, start, Destination(p, die, start)) == Ok(c))
              || (exists start :: OnBoard(start) && BearOffMove(p, die, b, start) == Ok(c))
  {
    if LegalSuccessor(p, die, b, c) {
      if start, end :| NormalMove(p, die, b, start, end) == Ok(c) {
        assert NormalMove(p, die, b, start, Destination(p, die, start)) == Ok(c);
      }
    }
  }

  /** A legal movement with the bar clear leaves the bar clear. */
  lemma SuccessorKeepsBarClear(p: Player, die: int, b: Board, c: Board)
    requires WellFormed(b) && b.bar.Get(p) == 0 && LegalSuccessor(p, die, b, c)
    ensures c.bar.Get(p) == 0
  {
    SuccessorsOffBar(p, die, b, c);
  }

  /** Playing a whole sequence of dice keeps a sound board sound. */
  lemma {:induction false} ReachableConserves(p: Player, dice: seq<int>, b: Board, c: Board)
    requires WellFormed(b) && ReachableBy(p, dice, b, c)
    ensures WellFormed(c)
    ensures Sound(b) ==> Sound(c)
    decreases |dice|
  {
    if dice != [] {
      var m :| Shaped(m) && StepTo(p, dice[0], b, m) && ReachableBy(p, dice[1..], m, c);
      StepToConserves(p, dice[0], b, m);
      ReachableConserves(p, dice[1..], m, c);
    }
  }

  /** Playing a roll keeps a sound board sound. */
  lemma PlaysRollConserves(p: Player, d: Dice, b: Board, c: Board)
    requires WellFormed(b) && PlaysRoll(p, d, b, c)
    ensures WellFormed(c)
    ensures Sound(b) ==> Sound(c)
  {
    var dice :| IsOrder(d, dice) && ReachableBy(p, dice, b, c);
    ReachableConserves(p, dice, b, c);
  }
}
