/** The exceptions that escape the opening walk. */
module Errors {

  datatype Error =
      /** The chess library found no legal move with this algebraic notation in the position
          described by `fen`. */
      IllegalMove(fen: string, san: string)
      /** A book candidate without its algebraic notation was compared with the played move
          (a null dereference). */
    | NullCandidateSan
}
