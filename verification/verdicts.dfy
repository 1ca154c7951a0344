/** Structured rejection reasons. The source reports each of these by printing a console
    message and returning False; the model returns the reason instead. */
module Verdicts {

  datatype Reason =
    | GameOver             // the game already has a winner
    | OriginOffBoard       // the first coordinate is not a square of the board
    | DestinationOffBoard  // the destination is not a square of the board
    | NoPieceSelected      // the origin square is empty
    | WrongOwner           // the origin holds the opponent's piece
    | FriendlyFire         // the destination holds one of the mover's own pieces
    | IllegalMove          // the displacement is not in the piece's table
    | KingCannotCapture    // a king targets an occupied square
    | PathBlocked          // a square on the way is occupied
    | DoubleKingLoss       // the capture would blow up both kings

  /** The verdict of one rule-book check. */
  datatype Verdict = Pass | Fail(reason: Reason)
}
