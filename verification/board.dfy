/** The backgammon board value and its checker-level primitives.

    Points are numbered 0..23. White moves towards increasing numbers and
    bears off past point 23; Black moves towards decreasing numbers and
    bears off past point 0. Every primitive returns a new board: the
    source's deep copy before each move is value semantics here.
 */
module Boards {
  import opened Errors

  datatype Color = White | Black | Neither

  /** A colour that can own checkers and take a turn. */
  type Player = c: Color | c != Neither witness White

  const NumPoints: int := 24

  /** Per-player counters, the source's two-slot `bar` and `off` lists. */
  datatype PerPlayer = PerPlayer(white: int, black: int) {

    function Get(p: Player): int {
      if p == White then white else black
    }

    /** The counters with `p`'s slot raised by one. */
    function Inc(p: Player): (r: PerPlayer)
      ensures r.Get(p) == Get(p) + 1
      ensures r.Get(GetOpponent(p)) == Get(GetOpponent(p))
    {
      if p == White then this.(white := white + 1) else this.(black := black + 1)
    }

    /** The counters with `p`'s slot lowered by one. */
    function Dec(p: Player): (r: PerPlayer)
      ensures r.Get(p) == Get(p) - 1
      ensures r.Get(GetOpponent(p)) == Get(GetOpponent(p))
    {
      if p == White then this.(white := white - 1) else this.(black := black - 1)
    }
  }

  /** `counts[i]` checkers stand on point `i`, owned by `colors[i]`. */
  datatype Board = Board(counts: seq<int>, colors: seq<Color>, bar: PerPlayer, off: PerPlayer)

  /** Both point lists have one entry per point. */
  predicate Shaped(b: Board) {
    |b.counts| == NumPoints && |b.colors| == NumPoints
  }

  /** The representation invariant the source maintains: no negative
      counter, and a point is unowned exactly when it is empty. */
  predicate WellFormed(b: Board) {
    && Shaped(b)
    && (forall i :: 0 <= i < NumPoints ==> b.counts[i] >= 0)
    && (forall i :: 0 <= i < NumPoints ==> (b.counts[i] == 0 <==> b.colors[i] == Neither))
    && b.bar.white >= 0 && b.bar.black >= 0
    && b.off.white >= 0 && b.off.black >= 0
  }

  // ---------------------------------------------------------------------
  // Geometry
  // ---------------------------------------------------------------------

  /** The goal location of a colour, one step past its last point. */
  function GetHome(c: Color): int {
    if c == White then NumPoints else -1
  }

  /** The direction a colour's checkers travel. */
  function GetDirection(c: Color): int {
    if c == White then 1 else -1
  }

  /** The opponent of a colour; the source answers Black for Neither. */
  function GetOpponent(c: Color): (r: Player)
    ensures r != c
  {
    if c == Black then White else Black
  }

  /** On the two players, taking the opponent is an involution. */
  lemma OpponentInvolution(p: Player)
    ensures GetOpponent(GetOpponent(p)) == p
    ensures GetOpponent(p) == White <==> p == Black
  {
  }

  predicate OnBoard(location: int) {
    0 <= location < NumPoints
  }

  /** `location` lies between the two bounds, whichever way round they are. */
  predicate IsBetween(location: int, lower: int, upper: int) {
    (lower <= location <= upper) || (upper <= location <= lower)
  }

  /** The six points nearest the colour's home, together with home itself. */
  predicate InHomeBoard(c: Color, location: int) {
    IsBetween(location, GetHome(c), GetHome(c) - 6 * GetDirection(c))
  }

  lemma IsBetweenSymmetric(location: int, lower: int, upper: int)
    ensures IsBetween(location, lower, upper) <==> IsBetween(location, upper, lower)
  {
  }

  /** On the board, White's home board is 18..23 and Black's is 0..5. */
  lemma HomeBoardPoints(location: int)
    requires OnBoard(location)
    ensures InHomeBoard(White, location) <==> 18 <= location <= 23
    ensures InHomeBoard(Black, location) <==> 0 <= location <= 5
  {
  }

  /** Direction and home agree: a player's home lies the far side of the
      board in its direction of travel, 25 steps from the opponent's home. */
  lemma DirectionMatchesHome(p: Player)
    ensures GetDirection(p) == 1 || GetDirection(p) == -1
    ensures GetDirection(p) == 1 <==> GetHome(p) == NumPoints
    ensures GetDirection(p) == -1 <==> GetHome(p) == -1
    ensures GetHome(GetOpponent(p)) + 25 * GetDirection(p) == GetHome(p)
  {
  }

  // ---------------------------------------------------------------------
  // Queries
  // ---------------------------------------------------------------------

  /** Checkers at `location`: all of them when no colour is given,
      otherwise those of the given colour (zero if it does not own the point). */
  function GetCheckers(b: Board, location: int, player: Option<Color>): (n: int)
    requires Shaped(b) && OnBoard(location)
    ensures player.None? ==> n == b.counts[location]
    ensures player.Some? ==> n == (if b.colors[location] == player.value then b.counts[location] else 0)
    ensures WellFormed(b) ==> 0 <= n <= b.counts[location]
    ensures WellFormed(b) && player.Some? ==>
              (n > 0 <==> b.colors[location] == player.value && player.value != Neither)
  {
    if player.Some? then
      if b.colors[location] == player.value then b.counts[location] else 0
    else
      b.counts[location]
  }

  /** On a well-formed board a point's checkers belong to exactly one of
      the two players (or there are none). */
  lemma CheckersSplitByOwner(b: Board, location: int)
    requires WellFormed(b) && OnBoard(location)
    ensures GetCheckers(b, location, Some(White)) + GetCheckers(b, location, Some(Black))
            == GetCheckers(b, location, None)
    ensures GetCheckers(b, location, Some(White)) == 0 || GetCheckers(b, location, Some(Black)) == 0
    ensures GetCheckers(b, location, Some(Neither)) == 0
  {
  }

  /** The player still has a checker in play: on the bar or on some point. */
  predicate InPlay(b: Board, p: Player)
    requires Shaped(b)
  {
    b.bar.Get(p) > 0 || exists i :: 0 <= i < NumPoints && b.colors[i] == p
  }

  /** The winner the source reports: Black if Black has nothing in play,
      else White if White has nothing in play, else Neither. */
  function Winner(b: Board): Color
    requires Shaped(b)
  {
    if !InPlay(b, Black) then Black
    else if !InPlay(b, White) then White
    else Neither
  }

  /** The source's `get_winner`: one pass over the points, remembering for
      each colour whether it still has a checker on the bar or board. */
  method GetWinner(b: Board) returns (w: Color)
    requires Shaped(b)
    ensures w == Winner(b)
    ensures w != Neither ==> b.bar.Get(w) <= 0
    ensures w != Neither ==> forall i :: 0 <= i < NumPoints ==> b.colors[i] != w
    ensures w == Neither ==> InPlay(b, White) && InPlay(b, Black)
  {
    var blackIn := b.bar.black > 0;
    var whiteIn := b.bar.white > 0;
    var i := 0;
    while i < NumPoints
      invariant 0 <= i <= NumPoints
      invariant blackIn <==> b.bar.black > 0 || exists j :: 0 <= j < i && b.colors[j] == Black
      invariant whiteIn <==> b.bar.white > 0 || exists j :: 0 <= j < i && b.colors[j] == White
    {
      blackIn := blackIn || b.colors[i] == Black;
      whiteIn := whiteIn || b.colors[i] == White;
      i := i + 1;
    }
    if !blackIn {
      w := Black;
    } else if !whiteIn {
      w := White;
    } else {
      w := Neither;
    }
  }

  /** The source's `is_gameover`: the same pass, answering whether some
      colour has nothing left in play. */
  method IsGameOver(b: Board) returns (over: bool)
    requires Shaped(b)
    ensures over <==> Winner(b) != Neither
    ensures over <==> !InPlay(b, White) || !InPlay(b, Black)
  {
    var blackIn := b.bar.black > 0;
    var whiteIn := b.bar.white > 0;
    var i := 0;
    while i < NumPoints
      invariant 0 <= i <= NumPoints
      invariant blackIn <==> b.bar.black > 0 || exists j :: 0 <= j < i && b.colors[j] == Black
      invariant whiteIn <==> b.bar.white > 0 || exists j :: 0 <= j < i && b.colors[j] == White
    {
      blackIn := blackIn || b.colors[i] == Black;
      whiteIn := whiteIn || b.colors[i] == White;
      i := i + 1;
    }
    over := !(blackIn && whiteIn);
  }

  /** The source's `__eq__`: boards are equal exactly when their point
      counts, owners, bars and off-counts are. */
  function SameBoard(a: Board, b: Board): (r: bool)
    ensures r <==> a == b
  {
    a.counts == b.counts && a.colors == b.colors && a.bar == b.bar && a.off == b.off
  }

  // ---------------------------------------------------------------------
  // Initial layout
  // ---------------------------------------------------------------------

  const InitialLocations: seq<int> := [0, 5, 7, 11, 12, 16, 18, 23]
  const InitialNumOfCheckers: seq<int> := [2, 5, 3, 5, 5, 3, 5, 2]
  const InitialColors: seq<Color> := [White, Black, Black, White, Black, White, White, Black]

  /** The empty board with the first `n` layout entries placed, as the
      source's `reset_board` loop leaves it after `n` iterations. */
  function PlaceInitial(n: nat): (b: Board)
    requires n <= |InitialLocations|
    ensures Shaped(b)
    ensures b.bar == PerPlayer(0, 0) && b.off == PerPlayer(0, 0)
  {
    if n == 0 then
      Board(seq(NumPoints, _ => 0), seq(NumPoints, _ => Neither), PerPlayer(0, 0), PerPlayer(0, 0))
    else
      var prev := PlaceInitial(n - 1);
      var loc := InitialLocations[n - 1];
      prev.(counts := prev.counts[loc := InitialNumOfCheckers[n - 1]],
            colors := prev.colors[loc := InitialColors[n - 1]])
  }

  /** The opening position. */
  function ResetBoard(): Board {
    PlaceInitial(|InitialLocations|)
  }

  // ---------------------------------------------------------------------
  // Checker primitives
  // ---------------------------------------------------------------------

  /** Places one checker of `p` at `location`; fails on an opposing point.
      The point becomes `p`'s when its count becomes one. */
  function MoveToLocation(b: Board, p: Player, location: int): (r: Result<Board>)
    requires Shaped(b) && OnBoard(location)
    ensures r.Failure? <==> b.colors[location] == GetOpponent(p)
    ensures r.Failure? ==> r.error == OccupiedByOpponent
    ensures r.Ok? ==> Shaped(r.value)
    ensures r.Ok? ==> r.value.counts[location] == b.counts[location] + 1
    ensures r.Ok? ==> r.value.colors[location] == (if b.counts[location] == 0 then p else b.colors[location])
    ensures r.Ok? ==> forall i :: 0 <= i < NumPoints && i != location ==>
              r.value.counts[i] == b.counts[i] && r.value.colors[i] == b.colors[i]
    ensures r.Ok? ==> r.value.bar == b.bar && r.value.off == b.off
  {
    if b.colors[location] == GetOpponent(p) then
      Failure(OccupiedByOpponent)
    else
      var c := b.counts[location] + 1;
      Ok(b.(counts := b.counts[location := c],
            colors := if c == 1 then b.colors[location := p] else b.colors))
  }

  /** Takes one checker of `p` from `location`; fails unless `p` owns it.
      An emptied point becomes unowned. */
  function RemoveFromLocation(b: Board, p: Player, location: int): (r: Result<Board>)
    requires Shaped(b) && OnBoard(location)
    ensures r.Failure? <==> b.colors[location] != p
    ensures r.Failure? ==> r.error == NothingToRemove
    ensures r.Ok? ==> Shaped(r.value)
    ensures r.Ok? ==> r.value.counts[location] == b.counts[location] - 1
    ensures r.Ok? ==> r.value.colors[location] == (if b.counts[location] == 1 then Neither else p)
    ensures r.Ok? ==> forall i :: 0 <= i < NumPoints && i != location ==>
              r.value.counts[i] == b.counts[i] && r.value.colors[i] == b.colors[i]
    ensures r.Ok? ==> r.value.bar == b.bar && r.value.off == b.off
  {
    if b.colors[location] != p then
      Failure(NothingToRemove)
    else
      var c := b.counts[location] - 1;
      Ok(b.(counts := b.counts[location := c],
            colors := if c == 0 then b.colors[location := Neither] else b.colors))
  }

  /** Puts one checker of `p` on the bar. */
  function MoveToBar(b: Board, p: Player): (r: Board)
    ensures r.bar.Get(p) == b.bar.Get(p) + 1
    ensures r.bar.Get(GetOpponent(p)) == b.bar.Get(GetOpponent(p))
    ensures r.counts == b.counts && r.colors == b.colors && r.off == b.off
  {
    b.(bar := b.bar.Inc(p))
  }

  /** Takes one checker of `p` off the bar; fails on an empty bar. */
  function RemoveFromBar(b: Board, p: Player): (r: Result<Board>)
    ensures r.Failure? <==> b.bar.Get(p) == 0
    ensures r.Failure? ==> r.error == NoCheckerOnBar
    ensures r.Ok? ==> r.value.bar.Get(p) == b.bar.Get(p) - 1
    ensures r.Ok? ==> r.value.bar.Get(GetOpponent(p)) == b.bar.Get(GetOpponent(p))
    ensures r.Ok? ==> r.value.counts == b.counts && r.value.colors == b.colors && r.value.off == b.off
  {
    if b.bar.Get(p) == 0 then Failure(NoCheckerOnBar) else Ok(b.(bar := b.bar.Dec(p)))
  }

  /** Bears one checker of `p` off. */
  function MoveOff(b: Board, p: Player): (r: Board)
    ensures r.off.Get(p) == b.off.Get(p) + 1
    ensures r.off.Get(GetOpponent(p)) == b.off.Get(GetOpponent(p))
    ensures r.counts == b.counts && r.colors == b.colors && r.bar == b.bar
  {
    b.(off := b.off.Inc(p))
  }
}
