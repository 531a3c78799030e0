/** The three kinds of single-checker movement: entering from the bar,
    bearing off, and a normal move along the board.

    Each works on its own copy of the board (a value here), runs its
    legality checks in the source's order, and then applies a hit, if any,
    followed by the checker transfer. A failed check is a `Failure`
    naming it. `multi_move.py` repeats these classes; its only difference,
    a second bar check in the normal move, is `NormalMoveRechecked`.
 */
module Moves {
  import opened Errors
  import opened Boards
  import opened Counting
  import opened DiceRolls

  function Abs(x: int): int {
    if x < 0 then -x else x
  }

  /** Where a checker of `p` enters from the bar with `die`. */
  function BarDestination(p: Player, die: int): int {
    GetHome(GetOpponent(p)) + die * GetDirection(p)
  }

  /** Where a checker of `p` on `start` lands with `die`. */
  function Destination(p: Player, die: int, start: int): int {
    start + die * GetDirection(p)
  }

  /** Every checker `p` has on the points is in `p`'s home board. */
  predicate AllHome(b: Board, p: Player)
    requires Shaped(b)
  {
    forall i :: 0 <= i < NumPoints && GetCheckers(b, i, Some(p)) > 0 ==> InHomeBoard(p, i)
  }

  // ---------------------------------------------------------------------
  // Hitting a blot
  // ---------------------------------------------------------------------

  /** Sends a lone checker of `opp` at `location` to the bar; any other
      board is returned as it is. The removal cannot fail: a count of one
      for `opp` means `opp` owns the point. */
  function HitBlot(b: Board, opp: Player, location: int): (r: Board)
    requires Shaped(b) && OnBoard(location)
    ensures Shaped(r)
    ensures GetCheckers(b, location, Some(opp)) == 1 ==>
              r.counts[location] == 0 && r.colors[location] == Neither && r.bar.Get(opp) == b.bar.Get(opp) + 1
    ensures GetCheckers(b, location, Some(opp)) != 1 ==> r == b
    ensures r.bar.Get(GetOpponent(opp)) == b.bar.Get(GetOpponent(opp))
    ensures r.off == b.off
    ensures forall i :: 0 <= i < NumPoints && i != location ==>
              r.counts[i] == b.counts[i] && r.colors[i] == b.colors[i]
  {
    if GetCheckers(b, location, Some(opp)) == 1 then
      MoveToBar(RemoveFromLocation(b, opp, location).value, opp)
    else
      b
  }

  /** On a well-formed board a hit keeps the board well formed and
      changes no player's checker total. */
  lemma HitBlotCounts(b: Board, opp: Player, location: int)
    requires WellFormed(b) && OnBoard(location)
    ensures WellFormed(HitBlot(b, opp, location))
    ensures Total(HitBlot(b, opp, location), White) == Total(b, White)
    ensures Total(HitBlot(b, opp, location), Black) == Total(b, Black)
  {
    if GetCheckers(b, location, Some(opp)) == 1 {
      var removed := RemoveFromLocation(b, opp, location).value;
      RemoveFromLocationCounts(b, opp, location);
      OnBoardCountOfPoints(removed, MoveToBar(removed, opp));
      OpponentInvolution(opp);
    }
  }

  /** The point totals only depend on the points. */
  lemma OnBoardCountOfPoints(b: Board, b': Board)
    requires Shaped(b) && Shaped(b') && b.counts == b'.counts && b.colors == b'.colors
    ensures forall c :: OnBoardCount(b', c) == OnBoardCount(b, c)
  {
    forall c: Color
      ensures OnBoardCount(b', c) == OnBoardCount(b, c)
    {
      PointsTotalFrame(b, b', c, 0, NumPoints);
    }
  }

  // ---------------------------------------------------------------------
  // Bar move
  // ---------------------------------------------------------------------

  /** Entering from the bar is legal when the bar is not empty and `end`
      is the point `die` reaches in the opponent's home board, not blocked
      by two or more opposing checkers. */
  predicate BarEntryLegal(p: Player, die: int, b: Board, end: int)
    requires Shaped(b)
  {
    && b.bar.Get(p) != 0
    && 1 <= die <= MaxValue
    && end == BarDestination(p, die)
    && GetCheckers(b, end, Some(GetOpponent(p))) <= 1
  }

  /** Enters a checker of `p` from the bar at `end` using `die`. */
  function BarMove(p: Player, die: int, b: Board, end: int): (r: Result<Board>)
    requires Shaped(b)
    ensures r.Ok? ==> BarEntryLegal(p, die, b, end)
    ensures WellFormed(b) && BarEntryLegal(p, die, b, end) ==> r.Ok?
    ensures !OnBoard(end) ==> r == Failure(DestinationOffBoard)
    ensures r.Ok? ==> Shaped(r.value)
    // Effect: one checker leaves the bar and lands on `end`, hitting a
    // lone opposing checker there; nothing else changes.
    ensures r.Ok? && WellFormed(b) ==>
              var hit := GetCheckers(b, end, Some(GetOpponent(p))) == 1;
              && r.value.bar.Get(p) == b.bar.Get(p) - 1
              && r.value.bar.Get(GetOpponent(p)) == b.bar.Get(GetOpponent(p)) + (if hit then 1 else 0)
              && r.value.colors[end] == p
              && r.value.counts[end] == (if hit then 1 else b.counts[end] + 1)
              && r.value.off == b.off
              && forall i :: 0 <= i < NumPoints && i != end ==>
                   r.value.counts[i] == b.counts[i] && r.value.colors[i] == b.colors[i]
  {
    var opp := GetOpponent(p);
    if !OnBoard(end) then
      Failure(DestinationOffBoard)
    else if die != Abs(GetHome(opp) - end) then
      Failure(WrongDie)
    else if b.bar.Get(p) == 0 then
      Failure(BarEmpty)
    else if !InHomeBoard(opp, end) then
      Failure(NotOpponentHome)
    else if GetCheckers(b, end, Some(opp)) > 1 then
      Failure(Blocked)
    else
      OpponentInvolution(p);
      var hit := HitBlot(b, opp, end);
      var lifted := RemoveFromBar(hit, p).value;
      MoveToLocation(lifted, p, end)
  }

  /** A successful bar move keeps the board well formed and every
      player's checker total. */
  lemma BarMoveConserves(p: Player, die: int, b: Board, end: int)
    requires WellFormed(b) && BarMove(p, die, b, end).Ok?
    ensures WellFormed(BarMove(p, die, b, end).value)
    ensures Total(BarMove(p, die, b, end).value, White) == Total(b, White)
    ensures Total(BarMove(p, die, b, end).value, Black) == Total(b, Black)
  {
    var opp := GetOpponent(p);
    OpponentInvolution(p);
    HitBlotCounts(b, opp, end);
    var hit := HitBlot(b, opp, end);
    var lifted := RemoveFromBar(hit, p).value;
    assert WellFormed(lifted);
    OnBoardCountOfPoints(hit, lifted);
    MoveToLocationCounts(lifted, p, end);
  }

  // ---------------------------------------------------------------------
  // Bear-off move
  // ---------------------------------------------------------------------

  /** The source's `can_use`: the die equals the distance to home, or is
      larger. It does not ask whether a checker stands farther back. */
  predicate BearOffCanUse(p: Player, die: int, start: int) {
    if die == Abs(start - GetHome(p)) then true
    else if die >= Abs(start - GetHome(p)) then true
    else false
  }

  /** The source's two branches amount to one test: the die covers the
      distance from `start` home. */
  lemma CanUseMeansCovering(p: Player, die: int, start: int)
    ensures BearOffCanUse(p, die, start) <==> die >= Distance(p, start)
  {
  }

  /** Bearing off is legal when `p` has a checker on `start`, the die
      covers its distance home, the bar is clear and every checker of `p`
      is in the home board. */
  predicate BearOffLegal(p: Player, die: int, b: Board, start: int)
    requires Shaped(b)
  {
    && OnBoard(start)
    && die >= Distance(p, start)
    && GetCheckers(b, start, Some(p)) != 0
    && b.bar.Get(p) <= 0
    && AllHome(b, p)
  }

  /** Bears a checker of `p` off from `start` using `die`. */
  function BearOffMove(p: Player, die: int, b: Board, start: int): (r: Result<Board>)
    requires Shaped(b)
    ensures r.Ok? <==> BearOffLegal(p, die, b, start)
    ensures !OnBoard(start) ==> r == Failure(StartOffBoard)
    ensures r.Ok? ==> Shaped(r.value)
    // Effect: one checker leaves `start` and is borne off; nothing else changes.
    ensures r.Ok? ==>
              && r.value.counts[start] == b.counts[start] - 1
              && r.value.colors[start] == (if b.counts[start] == 1 then Neither else p)
              && r.value.off.Get(p) == b.off.Get(p) + 1
              && r.value.off.Get(GetOpponent(p)) == b.off.Get(GetOpponent(p))
              && r.value.bar == b.bar
              && forall i :: 0 <= i < NumPoints && i != start ==>
                   r.value.counts[i] == b.counts[i] && r.value.colors[i] == b.colors[i]
  {
    if !OnBoard(start) then
      Failure(StartOffBoard)
    else if !BearOffCanUse(p, die, start) then
      Failure(WrongDie)
    else if GetCheckers(b, start, Some(p)) == 0 then
      Failure(EmptyStart)
    else if b.bar.Get(p) > 0 then
      Failure(BarNotCleared)
    else if exists i :: 0 <= i < NumPoints && GetCheckers(b, i, Some(p)) > 0 && !InHomeBoard(p, i) then
      Failure(OutsideHomeBoard)
    else
      var removed := RemoveFromLocation(b, p, start).value;
      Ok(MoveOff(removed, p))
  }

  /** A successful bear-off keeps the board well formed and every
      player's checker total. */
  lemma BearOffMoveConserves(p: Player, die: int, b: Board, start: int)
    requires WellFormed(b) && BearOffMove(p, die, b, start).Ok?
    ensures WellFormed(BearOffMove(p, die, b, start).value)
    ensures Total(BearOffMove(p, die, b, start).value, White) == Total(b, White)
    ensures Total(BearOffMove(p, die, b, start).value, Black) == Total(b, Black)
  {
    var removed := RemoveFromLocation(b, p, start).value;
    RemoveFromLocationCounts(b, p, start);
    OnBoardCountOfPoints(removed, MoveOff(removed, p));
    OpponentInvolution(p);
  }

  /** The bear-off rule of the standard game: the die must match the
      distance exactly, or exceed it when no checker of `p` stands farther
      from home than `start`. */
  predicate StandardBearOffCanUse(p: Player, die: int, b: Board, start: int)
    requires Shaped(b)
  {
    || die == Distance(p, start)
    || (die > Distance(p, start) &&
        forall i :: 0 <= i < NumPoints && Distance(p, i) > Distance(p, start) ==> GetCheckers(b, i, Some(p)) == 0)
  }

  /** Whatever the standard rule allows, the source's rule allows too. */
  lemma StandardRuleImpliesCanUse(p: Player, die: int, b: Board, start: int)
    requires Shaped(b) && StandardBearOffCanUse(p, die, b, start)
    ensures BearOffCanUse(p, die, start)
  {
  }

  /** The late bear-off board's owner of point `i`. */
  function LateColor(i: int): Color {
    if i == 18 || i == 22 then White else if i == 0 then Black else Neither
  }

  /** The late bear-off board's checker count on point `i`. */
  function LateCount(i: int): int {
    if i == 18 then 14 else if i == 22 then 1 else if i == 0 then 15 else 0
  }

  /** A board with White's fourteen checkers on point 18 and one on point
      22, and all of Black's on point 0. */
  function LateBearOffBoard(): (b: Board)
    ensures WellFormed(b) && b.bar == PerPlayer(0, 0) && b.off == PerPlayer(0, 0)
    ensures forall i :: 0 <= i < NumPoints ==> b.colors[i] == LateColor(i) && b.counts[i] == LateCount(i)
  {
    Board(seq(NumPoints, i => LateCount(i)), seq(NumPoints, i => LateColor(i)), PerPlayer(0, 0), PerPlayer(0, 0))
  }

  /** White's checkers on the late board's first `n` points are the
      fourteen on point 18 and the one on 22 among them; Black's are the
      fifteen on point 0. */
  lemma {:induction false} LatePointsTotals(n: nat)
    requires n <= NumPoints
    ensures PointsTotal(LateBearOffBoard(), White, n) == (if n > 18 then 14 else 0) + (if n > 22 then 1 else 0)
    ensures PointsTotal(LateBearOffBoard(), Black, n) == (if n > 0 then 15 else 0)
  {
    if n > 0 {
      LatePointsTotals(n - 1);
    }
  }

  /** The late bear-off board is a legal position: well formed, with all
      fifteen checkers of each colour on the points. */
  lemma LateBearOffBoardSound()
    ensures WellFormed(LateBearOffBoard()) && FullSets(LateBearOffBoard())
  {
    LatePointsTotals(NumPoints);
  }

  /** White bears off from point 22 with a 5 although fourteen checkers
      still stand on point 18, six pips from home; the standard rule
      refuses this, the source's rule accepts it. */
  lemma OversizedBearOffPassesFartherChecker()
    ensures WellFormed(LateBearOffBoard()) && FullSets(LateBearOffBoard())
    ensures BearOffMove(White, 5, LateBearOffBoard(), 22).Ok?
    ensures !StandardBearOffCanUse(White, 5, LateBearOffBoard(), 22)
  {
    var b := LateBearOffBoard();
    LateBearOffBoardSound();
    assert GetCheckers(b, 18, Some(White)) == 14;
    assert Distance(White, 18) > Distance(White, 22);
    assert AllHome(b, White);
  }

  /** Bearing off under the standard rule: the source's checks with its
      `can_use` replaced by `StandardBearOffCanUse`. It succeeds exactly
      when the source's checks pass and the standard rule admits the die,
      and then has the same effect as the source's move. */
  function StandardBearOffMove(p: Player, die: int, b: Board, start: int): (r: Result<Board>)
    requires Shaped(b)
    ensures r.Ok? <==> BearOffLegal(p, die, b, start) && StandardBearOffCanUse(p, die, b, start)
    ensures r.Ok? ==> r == BearOffMove(p, die, b, start)
    ensures r.Ok? && die > Distance(p, start) ==>
              forall i :: 0 <= i < NumPoints && Distance(p, i) > Distance(p, start) ==> GetCheckers(b, i, Some(p)) == 0
  {
    if OnBoard(start) && !StandardBearOffCanUse(p, die, b, start) then
      Failure(WrongDie)
    else
      BearOffMove(p, die, b, start)
  }

  /** The standard rule refuses the late bear-off the source accepts,
      and on that board bears off from point 18 with a 6 instead. */
  lemma StandardRuleRefusesLateBearOff()
    ensures StandardBearOffMove(White, 5, LateBearOffBoard(), 22) == Failure(WrongDie)
    ensures StandardBearOffMove(White, 6, LateBearOffBoard(), 18).Ok?
  {
    var b := LateBearOffBoard();
    OversizedBearOffPassesFartherChecker();
    assert GetCheckers(b, 18, Some(White)) == 14;
    assert AllHome(b, White);
  }

  /** Where bearing off from a point is legal, the normal move by the same
      die from that point would leave the board: the two never compete. */
  lemma BearOffExcludesNormal(p: Player, die: int, b: Board, start: int)
    requires Shaped(b) && BearOffMove(p, die, b, start).Ok?
    ensures !OnBoard(Destination(p, die, start))
    ensures NormalMove(p, die, b, start, Destination(p, die, start)) == Failure(EndpointOffBoard)
  {
  }

  // ---------------------------------------------------------------------
  // Normal move
  // ---------------------------------------------------------------------

  /** A normal move is legal when `p` has a checker on `start`, `end` is
      on the board `die` points ahead in `p`'s direction, the die is 1..6,
      the bar is clear and `end` is not blocked. */
  predicate NormalLegal(p: Player, die: int, b: Board, start: int, end: int)
    requires Shaped(b)
  {
    && OnBoard(start) && OnBoard(end)
    && 1 <= die <= MaxValue
    && end == Destination(p, die, start)
    && b.bar.Get(p) <= 0
    && GetCheckers(b, start, Some(p)) != 0
    && GetCheckers(b, end, Some(GetOpponent(p))) <= 1
  }

  /** Moves a checker of `p` from `start` to `end` using `die`. */
  function NormalMove(p: Player, die: int, b: Board, start: int, end: int): (r: Result<Board>)
    requires Shaped(b)
    ensures r.Ok? ==> NormalLegal(p, die, b, start, end)
    ensures WellFormed(b) && NormalLegal(p, die, b, start, end) ==> r.Ok?
    ensures !OnBoard(start) || !OnBoard(end) ==> r == Failure(EndpointOffBoard)
    ensures r.Ok? ==> Shaped(r.value)
    // Effect: one checker moves from `start` to `end`, hitting a lone
    // opposing checker there; off-counts and other points do not change.
    ensures r.Ok? && WellFormed(b) ==>
              var hit := GetCheckers(b, end, Some(GetOpponent(p))) == 1;
              && r.value.counts[start] == b.counts[start] - 1
              && r.value.colors[start] == (if b.counts[start] == 1 then Neither else p)
              && r.value.counts[end] == (if hit then 1 else b.counts[end] + 1)
              && r.value.colors[end] == p
              && r.value.bar.Get(p) == b.bar.Get(p)
              && r.value.bar.Get(GetOpponent(p)) == b.bar.Get(GetOpponent(p)) + (if hit then 1 else 0)
              && r.value.off == b.off
              && forall i :: 0 <= i < NumPoints && i != start && i != end ==>
                   r.value.counts[i] == b.counts[i] && r.value.colors[i] == b.colors[i]
  {
    var opp := GetOpponent(p);
    if !OnBoard(start) || !OnBoard(end) then
      Failure(EndpointOffBoard)
    else if die != Abs(start - end) then
      Failure(WrongDie)
    else if start == end then
      Failure(ZeroDistance)
    else if Abs(start - end) > MaxValue then
      Failure(DistanceTooLarge)
    else if b.bar.Get(p) > 0 then
      Failure(BarNotCleared)
    else if GetCheckers(b, start, Some(p)) == 0 then
      Failure(EmptyStart)
    else if (start > end && GetDirection(p) > 0) || (start < end && GetDirection(p) < 0) then
      Failure(WrongDirection)
    else if GetCheckers(b, end, Some(opp)) > 1 then
      Failure(Blocked)
    else
      OpponentInvolution(p);
      var hit := HitBlot(b, opp, end);
      var lifted := RemoveFromLocation(hit, p, start).value;
      MoveToLocation(lifted, p, end)
  }

  /** A successful normal move keeps the board well formed and every
      player's checker total. */
  lemma NormalMoveConserves(p: Player, die: int, b: Board, start: int, end: int)
    requires WellFormed(b) && NormalMove(p, die, b, start, end).Ok?
    ensures WellFormed(NormalMove(p, die, b, start, end).value)
    ensures Total(NormalMove(p, die, b, start, end).value, White) == Total(b, White)
    ensures Total(NormalMove(p, die, b, start, end).value, Black) == Total(b, Black)
  {
    var opp := GetOpponent(p);
    OpponentInvolution(p);
    HitBlotCounts(b, opp, end);
    var hit := HitBlot(b, opp, end);
    RemoveFromLocationCounts(hit, p, start);
    var lifted := RemoveFromLocation(hit, p, start).value;
    MoveToLocationCounts(lifted, p, end);
  }

  /** The normal move of `multi_move.py`: the same checks, with the bar
      tested a second time just before the checker moves. */
  function NormalMoveRechecked(p: Player, die: int, b: Board, start: int, end: int): Result<Board>
    requires Shaped(b)
  {
    var opp := GetOpponent(p);
    if !OnBoard(start) || !OnBoard(end) then
      Failure(EndpointOffBoard)
    else if die != Abs(start - end) then
      Failure(WrongDie)
    else if start == end then
      Failure(ZeroDistance)
    else if Abs(start - end) > MaxValue then
      Failure(DistanceTooLarge)
    else if b.bar.Get(p) > 0 then
      Failure(BarNotCleared)
    else if GetCheckers(b, start, Some(p)) == 0 then
      Failure(EmptyStart)
    else if (start > end && GetDirection(p) > 0) || (start < end && GetDirection(p) < 0) then
      Failure(WrongDirection)
    else if GetCheckers(b, end, Some(opp)) > 1 then
      Failure(Blocked)
    else if b.bar.Get(p) > 0 then
      Failure(BarNotCleared)
    else
      var hit := HitBlot(b, opp, end);
      var lifted := RemoveFromLocation(hit, p, start).value;
      MoveToLocation(lifted, p, end)
  }

  /** The second bar check can never fire: both normal moves agree on
      every input, failures included. */
  lemma SecondBarCheckIsDead(p: Player, die: int, b: Board, start: int, end: int)
    requires Shaped(b)
    ensures NormalMoveRechecked(p, die, b, start, end) == NormalMove(p, die, b, start, end)
  {
  }

  /** Entering from the bar at the die's own point passes the die and
      home-board checks for every die 1..6, so on a well-formed board the
      entry fails only on an empty bar or a blocked point. */
  lemma BarEntryFailsOnlyWhenEmptyOrBlocked(p: Player, die: int, b: Board)
    requires WellFormed(b) && 1 <= die <= MaxValue
    ensures OnBoard(BarDestination(p, die))
    ensures BarMove(p, die, b, BarDestination(p, die)).Failure? <==>
              b.bar.Get(p) == 0 || GetCheckers(b, BarDestination(p, die), Some(GetOpponent(p))) > 1
  {
  }
}
