/** The deterministic part of the source's dice: a pair of fixed values. */
module DiceRolls {

  const MinValue: int := 1
  const MaxValue: int := 6

  datatype Dice = Dice(die1: int, die2: int)

  /** Rolling with both values given records them as they are. */
  function Roll(die1: int, die2: int): (d: Dice)
    ensures d.die1 == die1 && d.die2 == die2
  {
    Dice(die1, die2)
  }

  predicate IsDoubles(d: Dice) {
    d.die1 == d.die2
  }

  /** Rolling with two given values makes them the first and second die,
      and the roll is a double exactly when they agree; every pair of
      dice arises from rolling its own two values. */
  lemma RollRecordsValues(die1: int, die2: int, d: Dice)
    ensures Roll(die1, die2).die1 == die1 && Roll(die1, die2).die2 == die2
    ensures IsDoubles(Roll(die1, die2)) <==> die1 == die2
    ensures Roll(d.die1, d.die2) == d
  {
  }

  /** The two values in ascending order. */
  function Ascending(d: Dice): (r: seq<int>)
    ensures |r| == 2 && r[0] <= r[1]
    ensures multiset(r) == multiset{d.die1, d.die2}
  {
    if d.die1 <= d.die2 then [d.die1, d.die2] else [d.die2, d.die1]
  }

  /** The two values in descending order. */
  function Descending(d: Dice): (r: seq<int>)
    ensures |r| == 2 && r[0] >= r[1]
    ensures multiset(r) == multiset{d.die1, d.die2}
  {
    if d.die1 >= d.die2 then [d.die1, d.die2] else [d.die2, d.die1]
  }

  /** The die value repeated four times, as a double is played. */
  function FourOf(die: int): (r: seq<int>)
    ensures |r| == 4 && forall i :: 0 <= i < 4 ==> r[i] == die
  {
    [die, die, die, die]
  }

  /** `dice` is an order in which the roll `d` is played: the value four
      times for doubles, otherwise the two values one after the other,
      either first. */
  predicate IsOrder(d: Dice, dice: seq<int>) {
    if IsDoubles(d) then dice == FourOf(d.die1)
    else dice == [d.die1, d.die2] || dice == [d.die2, d.die1]
  }
}
