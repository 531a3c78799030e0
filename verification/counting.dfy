/** Checker counting: how many checkers each player has on the points, in
    play and in total, and how the board primitives change those numbers.
    The total `points + bar + off` is the quantity every move conserves.
 */
module Counting {
  import opened Errors
  import opened Boards

  /** Checkers of colour `c` on points 0..n-1. */
  function PointsTotal(b: Board, c: Color, n: nat): int
    requires Shaped(b) && n <= NumPoints
  {
    if n == 0 then 0 else PointsTotal(b, c, n - 1) + GetCheckers(b, n - 1, Some(c))
  }

  /** Checkers of colour `c` anywhere on the 24 points. */
  function OnBoardCount(b: Board, c: Color): int
    requires Shaped(b)
  {
    PointsTotal(b, c, NumPoints)
  }

  /** Every checker of `p`: on the points, on the bar and borne off. */
  function Total(b: Board, p: Player): int
    requires Shaped(b)
  {
    OnBoardCount(b, p) + b.bar.Get(p) + b.off.Get(p)
  }

  /** Both players have their fifteen checkers. */
  predicate FullSets(b: Board)
    requires Shaped(b)
  {
    Total(b, White) == 15 && Total(b, Black) == 15
  }

  /** Changing what colour `c` owns at one point changes the sum over a
      prefix containing that point by exactly the difference. */
  lemma {:induction false} PointsTotalFrame(b: Board, b': Board, c: Color, location: int, n: nat)
    requires Shaped(b) && Shaped(b') && n <= NumPoints && OnBoard(location)
    requires forall i :: 0 <= i < NumPoints && i != location ==>
               GetCheckers(b', i, Some(c)) == GetCheckers(b, i, Some(c))
    ensures PointsTotal(b', c, n) == PointsTotal(b, c, n) +
              (if location < n then GetCheckers(b', location, Some(c)) - GetCheckers(b, location, Some(c)) else 0)
  {
    if n > 0 {
      PointsTotalFrame(b, b', c, location, n - 1);
    }
  }

  /** A well-formed board has no negative prefix sum. */
  lemma {:induction false} PointsTotalNonNegative(b: Board, c: Color, n: nat)
    requires WellFormed(b) && n <= NumPoints
    ensures PointsTotal(b, c, n) >= 0
  {
    if n > 0 {
      PointsTotalNonNegative(b, c, n - 1);
    }
  }

  /** The prefix sum is zero exactly when the colour owns none of the
      points in the prefix. */
  lemma {:induction false} PointsTotalZero(b: Board, c: Color, n: nat)
    requires WellFormed(b) && c != Neither && n <= NumPoints
    ensures PointsTotal(b, c, n) == 0 <==> forall i :: 0 <= i < n ==> b.colors[i] != c
  {
    if n > 0 {
      PointsTotalZero(b, c, n - 1);
      PointsTotalNonNegative(b, c, n - 1);
    }
  }

  /** Placing a checker of `p` on a well-formed board keeps it well formed,
      gives `p` one more checker on the points and leaves the opponent's
      point total alone. */
  lemma MoveToLocationCounts(b: Board, p: Player, location: int)
    requires WellFormed(b) && OnBoard(location) && MoveToLocation(b, p, location).Ok?
    ensures WellFormed(MoveToLocation(b, p, location).value)
    ensures MoveToLocation(b, p, location).value.colors[location] == p
    ensures OnBoardCount(MoveToLocation(b, p, location).value, p) == OnBoardCount(b, p) + 1
    ensures OnBoardCount(MoveToLocation(b, p, location).value, GetOpponent(p)) == OnBoardCount(b, GetOpponent(p))
  {
    var r := MoveToLocation(b, p, location).value;
    PointsTotalFrame(b, r, p, location, NumPoints);
    PointsTotalFrame(b, r, GetOpponent(p), location, NumPoints);
  }

  /** Removing a checker of `p` from a well-formed board keeps it well
      formed, gives `p` one checker fewer on the points and leaves the
      opponent's point total alone. */
  lemma RemoveFromLocationCounts(b: Board, p: Player, location: int)
    requires WellFormed(b) && OnBoard(location) && RemoveFromLocation(b, p, location).Ok?
    ensures WellFormed(RemoveFromLocation(b, p, location).value)
    ensures OnBoardCount(RemoveFromLocation(b, p, location).value, p) == OnBoardCount(b, p) - 1
    ensures OnBoardCount(RemoveFromLocation(b, p, location).value, GetOpponent(p)) == OnBoardCount(b, GetOpponent(p))
  {
    var r := RemoveFromLocation(b, p, location).value;
    PointsTotalFrame(b, r, p, location, NumPoints);
    PointsTotalFrame(b, r, GetOpponent(p), location, NumPoints);
  }

  // ---------------------------------------------------------------------
  // Pip count
  // ---------------------------------------------------------------------

  /** Pips a checker of `p` at `location` still has to travel. */
  function Distance(p: Player, location: int): int {
    var d := GetHome(p) - location;
    if d < 0 then -d else d
  }

  /** Pips still to travel for `p`'s checkers on points 0..n-1. */
  function PointPips(b: Board, p: Player, n: nat): int
    requires Shaped(b) && n <= NumPoints
  {
    if n == 0 then 0
    else
      PointPips(b, p, n - 1) + GetCheckers(b, n - 1, Some(p)) * Distance(p, n - 1)
  }

  /** The pip count: distance to home of every checker on the points plus
      a full board length for each checker on the bar. */
  function PipCount(b: Board, p: Player): int
    requires Shaped(b)
  {
    PointPips(b, p, NumPoints) + NumPoints * b.bar.Get(p)
  }

  /** Each checker on the points is at least one pip and at most 24 pips
      from home, so the point pips lie between the checker count and 24
      times it. */
  lemma {:induction false} PointPipsBounds(b: Board, p: Player, n: nat)
    requires WellFormed(b) && n <= NumPoints
    ensures PointsTotal(b, p, n) <= PointPips(b, p, n) <= NumPoints * PointsTotal(b, p, n)
  {
    if n > 0 {
      PointPipsBounds(b, p, n - 1);
      ScaledBounds(GetCheckers(b, n - 1, Some(p)), Distance(p, n - 1));
    }
  }

  /** A non-negative count scaled by a distance of 1..24. */
  lemma ScaledBounds(count: int, d: int)
    requires count >= 0 && 1 <= d <= NumPoints
    ensures count <= count * d <= NumPoints * count
  {
  }

  /** A player has finished exactly when its pip count is zero. */
  lemma PipCountZero(b: Board, p: Player)
    requires WellFormed(b)
    ensures PipCount(b, p) >= 0
    ensures PipCount(b, p) == 0 <==> !InPlay(b, p)
  {
    PointPipsBounds(b, p, NumPoints);
    PointsTotalNonNegative(b, p, NumPoints);
    PointsTotalZero(b, p, NumPoints);
  }

  /** Changing what `p` owns at one point changes the pips of a prefix
      containing that point by that point's contribution alone. */
  lemma {:induction false} PointPipsFrame(b: Board, b': Board, p: Player, location: int, n: nat)
    requires Shaped(b) && Shaped(b') && n <= NumPoints && OnBoard(location)
    requires forall i :: 0 <= i < NumPoints && i != location ==>
               GetCheckers(b', i, Some(p)) == GetCheckers(b, i, Some(p))
    ensures location >= n ==> PointPips(b', p, n) == PointPips(b, p, n)
    ensures location < n ==>
              PointPips(b', p, n) - GetCheckers(b', location, Some(p)) * Distance(p, location) ==
              PointPips(b, p, n) - GetCheckers(b, location, Some(p)) * Distance(p, location)
  {
    if n > 0 {
      PointPipsFrame(b, b', p, location, n - 1);
    }
  }

  // ---------------------------------------------------------------------
  // Opening position
  // ---------------------------------------------------------------------

  /** Checkers of colour `c` in the first `n` entries of the opening layout. */
  function LayoutTotal(c: Color, n: nat): int
    requires n <= |InitialLocations|
  {
    if n == 0 then 0
    else LayoutTotal(c, n - 1) + (if InitialColors[n - 1] == c then InitialNumOfCheckers[n - 1] else 0)
  }

  /** Pips of `p` in the first `n` entries of the opening layout. */
  function LayoutPips(p: Player, n: nat): int
    requires n <= |InitialLocations|
  {
    if n == 0 then 0
    else LayoutPips(p, n - 1) +
         (if InitialColors[n - 1] == p then InitialNumOfCheckers[n - 1] * Distance(p, InitialLocations[n - 1]) else 0)
  }

  /** The layout names 8 distinct on-board points. */
  lemma LayoutDistinct()
    ensures forall k :: 0 <= k < |InitialLocations| ==> OnBoard(InitialLocations[k])
    ensures forall k, m :: 0 <= k < m < |InitialLocations| ==> InitialLocations[k] != InitialLocations[m]
  {
  }

  /** Points not yet named by the first `n` layout entries are still empty. */
  lemma {:induction false} PlaceInitialFresh(n: nat)
    requires n <= |InitialLocations|
    ensures forall i :: 0 <= i < NumPoints && i !in InitialLocations[..n] ==>
              PlaceInitial(n).counts[i] == 0 && PlaceInitial(n).colors[i] == Neither
  {
    if n > 0 {
      PlaceInitialFresh(n - 1);
      assert InitialLocations[..n] == InitialLocations[..n - 1] + [InitialLocations[n - 1]];
      LayoutDistinct();
    }
  }

  /** The `n`-th placement puts the layout's checkers on a point that was
      still empty and touches no other point. */
  lemma PlaceInitialStep(n: nat, p: Player)
    requires 0 < n <= |InitialLocations|
    ensures OnBoard(InitialLocations[n - 1])
    ensures GetCheckers(PlaceInitial(n - 1), InitialLocations[n - 1], Some(p)) == 0
    ensures GetCheckers(PlaceInitial(n), InitialLocations[n - 1], Some(p)) ==
              if InitialColors[n - 1] == p then InitialNumOfCheckers[n - 1] else 0
    ensures forall i :: 0 <= i < NumPoints && i != InitialLocations[n - 1] ==>
              GetCheckers(PlaceInitial(n), i, Some(p)) == GetCheckers(PlaceInitial(n - 1), i, Some(p))
  {
    PlaceInitialFresh(n - 1);
    LayoutDistinct();
    assert InitialLocations[n - 1] !in InitialLocations[..n - 1];
  }

  /** The empty board the layout starts from holds nothing on any prefix
      of the points. */
  lemma {:induction false} EmptyBoardPrefix(p: Player, n: nat)
    requires n <= NumPoints
    ensures PointsTotal(PlaceInitial(0), p, n) == 0
    ensures PointPips(PlaceInitial(0), p, n) == 0
  {
    if n > 0 {
      EmptyBoardPrefix(p, n - 1);
    }
  }

  /** The empty board the layout starts from holds nothing. */
  lemma EmptyBoardTotals(p: Player)
    ensures OnBoardCount(PlaceInitial(0), p) == 0
    ensures PointPips(PlaceInitial(0), p, NumPoints) == 0
  {
    EmptyBoardPrefix(p, NumPoints);
  }

  /** Every stage of laying out the opening position is well formed. */
  lemma {:induction false} PlaceInitialWellFormed(n: nat)
    requires n <= |InitialLocations|
    ensures WellFormed(PlaceInitial(n))
  {
    if n > 0 {
      PlaceInitialWellFormed(n - 1);
    }
  }

  /** After `n` placements the points hold exactly the layout's checkers. */
  lemma {:induction false} PlaceInitialTotals(n: nat, p: Player)
    requires n <= |InitialLocations|
    ensures OnBoardCount(PlaceInitial(n), p) == LayoutTotal(p, n)
  {
    if n > 0 {
      PlaceInitialTotals(n - 1, p);
      PlaceInitialStep(n, p);
      PointsTotalFrame(PlaceInitial(n - 1), PlaceInitial(n), p, InitialLocations[n - 1], NumPoints);
    } else {
      EmptyBoardTotals(p);
    }
  }

  /** After `n` placements the points hold exactly the layout's pips. */
  lemma {:induction false} PlaceInitialPips(n: nat, p: Player)
    requires n <= |InitialLocations|
    ensures PointPips(PlaceInitial(n), p, NumPoints) == LayoutPips(p, n)
  {
    if n > 0 {
      var prev := PlaceInitial(n - 1);
      var next := PlaceInitial(n);
      var loc := InitialLocations[n - 1];
      PlaceInitialPips(n - 1, p);
      PlaceInitialStep(n, p);
      PointPipsFrame(prev, next, p, loc, NumPoints);
      if InitialColors[n - 1] == p {
        assert PointPips(next, p, NumPoints) == PointPips(prev, p, NumPoints) + InitialNumOfCheckers[n - 1] * Distance(p, loc);
      } else {
        assert PointPips(next, p, NumPoints) == PointPips(prev, p, NumPoints);
      }
    } else {
      EmptyBoardTotals(p);
    }
  }

  /** The layout table holds 15 checkers and 167 pips per player. */
  lemma LayoutSums()
    ensures LayoutTotal(White, 8) == 15 && LayoutTotal(Black, 8) == 15
    ensures LayoutPips(White, 8) == 167 && LayoutPips(Black, 8) == 167
  {
  }

  /** The opening position's counts point by point. */
  lemma InitialCheckers()
    ensures ResetBoard().counts == [2, 0, 0, 0, 0, 5, 0, 3, 0, 0, 0, 5, 5, 0, 0, 0, 3, 0, 5, 0, 0, 0, 0, 2]
  {
    assert ResetBoard() == PlaceInitial(8);
  }

  /** The opening position's owners point by point. */
  lemma InitialOwners()
    ensures ResetBoard().colors == [White, Neither, Neither, Neither, Neither, Black, Neither, Black,
                                    Neither, Neither, Neither, White, Black, Neither, Neither, Neither,
                                    White, Neither, White, Neither, Neither, Neither, Neither, Black]
  {
    assert ResetBoard() == PlaceInitial(8);
  }

  /** The completed layout is well formed, with 15 checkers and 167 pips
      per player on the points and nothing on the bars or off. */
  lemma CompletedLayout(n: nat)
    requires n == |InitialLocations|
    ensures WellFormed(PlaceInitial(n))
    ensures OnBoardCount(PlaceInitial(n), White) == 15 && OnBoardCount(PlaceInitial(n), Black) == 15
    ensures PointPips(PlaceInitial(n), White, NumPoints) == 167
    ensures PointPips(PlaceInitial(n), Black, NumPoints) == 167
  {
    PlaceInitialWellFormed(n);
    LayoutSums();
    PlaceInitialTotals(n, White);
    PlaceInitialTotals(n, Black);
    PlaceInitialPips(n, White);
    PlaceInitialPips(n, Black);
  }

  /** The opening position is well formed, with 15 checkers of each colour
      on the points, nothing on the bars or off, and 167 pips for each
      player. */
  lemma InitialLayout()
    ensures WellFormed(ResetBoard())
    ensures ResetBoard().bar == PerPlayer(0, 0) && ResetBoard().off == PerPlayer(0, 0)
    ensures OnBoardCount(ResetBoard(), White) == 15 && OnBoardCount(ResetBoard(), Black) == 15
    ensures FullSets(ResetBoard())
    ensures PipCount(ResetBoard(), White) == 167 && PipCount(ResetBoard(), Black) == 167
  {
    CompletedLayout(|InitialLocations|);
  }
}
