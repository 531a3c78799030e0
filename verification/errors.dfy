/** Failure signals of the move engine.

    The source raises a single exception class whose message says which
    legality check rejected a move; here every kind of check or primitive
    failure gets its own variant, shared by the raise sites that perform
    the same check, so that contracts can say which check fired.
 */
module Errors {

  /** One variant per legality check or primitive failure. */
  datatype IllegalMove =
    // move constructors
    | DestinationOffBoard        // bar move: end not on the board
    | StartOffBoard              // bear-off: start not on the board
    | EndpointOffBoard           // normal move: start or end not on the board
    // move validation
    | WrongDie                   // the die does not match the movement
    | ZeroDistance               // normal move with start == end
    | DistanceTooLarge           // normal move longer than six points
    | BarEmpty                   // bar move without a checker on the bar
    | BarNotCleared              // checkers on the bar must enter first
    | NotOpponentHome            // bar move outside the opponent's home board
    | OutsideHomeBoard           // bear-off while checkers remain outside home
    | Blocked                    // two or more opposing checkers at the end point
    | EmptyStart                 // no own checker at the start point
    | WrongDirection             // backward movement
    // board primitives
    | OccupiedByOpponent         // placing a checker on an opposing point
    | NothingToRemove            // removing a checker the player does not own there
    | NoCheckerOnBar             // taking a checker from an empty bar

  /** The conventional optional value. */
  datatype Option<+T> = None | Some(value: T)

  /** A computation that yields a value or the check that rejected it;
      usable with `:-`. */
  datatype Result<+T> = Ok(value: T) | Failure(error: IllegalMove) {

    predicate IsFailure() {
      Failure?
    }

    function PropagateFailure<U>(): Result<U>
      requires Failure?
    {
      Failure(error)
    }

    function Extract(): T
      requires Ok?
    {
      value
    }
  }
}
