# Opening trainer: the opening walk, modelled in Dafny

This project models the core of a chess opening trainer. The trainer replays a game ply by ply from the
initial position, up to a limit of full moves (15 by default, so 30 plies). Before each ply it asks an
opening explorer about the position reached so far, keyed by the comma-separated coordinate (UCI) moves
played. Each move of the chosen colour becomes a `MoveAnalysis` record:

- If the explorer has a move list ("in book"), the record says whether the played move is among the
  candidates. If it is not, the first candidate becomes the recommendation.
- If the explorer has no answer ("out of book"), the engine's best move becomes the recommendation,
  provided it differs from the played move.
- A move with a recommendation is evaluated twice, after each of the two moves, on clones of the board.
- If the played move loses at least half a pawn (a significant mistake), the engine's best reply to it is
  recorded as the punishment, together with the evaluation after that reply.

Modules (three support modules, then one per source class):

- `Wrappers`: `Option`, `Result` and `Outcome`.
- `JavaInt`: Java's 32-bit `int`, its wrap-around and its decimal rendering.
- `Errors`: the exceptions that escape the walk.
- `OpeningMoveModel`, `EngineResponseModel`: the parsed JSON records, as datatypes.
- `MoveAnalysisModel`: the mutable record as a class. Its contents are the value `Analysis`; each setter
  replaces one field, and the getters delegate to `Analysis`.
- `PositionTracking`: the tracker as a class around one board value, whose methods change it in place.
- `OpeningTrainer`: the service. Each of its methods is proved against a function on values:
  `AnalyzeGame` against `AnalyzeGameSpec` (the recursive `Walk`), `AnalyzeMoveInPosition` against
  `AnalyzeMoveSpec`, and `EvaluateMoves` against `EvaluateSpec`. The lemmas then state what the source
  promises about those functions.

The environment becomes parameters, in the datatype `Oracles`:

- The chess library is the `Rules` oracle. For a FEN and a move in algebraic notation (SAN) it gives
  legality, the resulting FEN and the coordinate rendering of the move. A position is identified by its FEN.
- The opening explorer is a function from the UCI key to `Option<OpeningResponse>`.
- The engine is a function from a FEN to `Option<EngineResponse>`.
- `None` stands for a failed request or a failed parse. The source catches those, logs them and goes on
  with `null`.

Exceptions that escape are modelled as errors that end the walk:

- `IllegalMove(fen, san)`: the library refuses a move.
- `NullCandidateSan`: the `NullPointerException` that `anyMatch` throws on a candidate without SAN.

`clone()` loads a new board from the current FEN. The clone therefore has the same position, an empty
move history, and nothing shared with the original.

## Model

| member | source | states |
|---|---|---|
| JavaInt.Wrap32 | src/main/java/jp/ac/dendai/model/OpeningMove.java:29-31 | Java `int` arithmetic: the result differs from the exact value by a multiple of 2^32, and equals it when the exact value fits in 32 bits |
| JavaInt.DecimalString | src/main/java/jp/ac/dendai/model/MoveAnalysis.java:98 | rendering an `int` in a string concatenation: non-empty, ends in a digit, starts with '-' exactly for negative numbers |
| JavaInt.NatDigitsRoundTrip | src/main/java/jp/ac/dendai/model/MoveAnalysis.java:98 | the digits of a natural number read back as that number |
| JavaInt.DecimalRoundTrip | src/main/java/jp/ac/dendai/model/MoveAnalysis.java:98 | every `int` is recovered from its decimal rendering, so the rendering loses nothing |
| OpeningMoveModel.OpeningMove.TotalGames | src/main/java/jp/ac/dendai/model/OpeningMove.java:29-31 | the game count is white + draws + black, up to wrap-around modulo 2^32, and exactly that sum when it fits in an `int` |
| OpeningMoveModel.SetWhiteShiftsTotal | src/main/java/jp/ac/dendai/model/OpeningMove.java:18-31 | changing the white-win counter moves the total by exactly the change, wrapped like an `int` |
| OpeningMoveModel.SetDrawsShiftsTotal | src/main/java/jp/ac/dendai/model/OpeningMove.java:21-31 | changing the draw counter moves the total by exactly the change, wrapped like an `int` |
| OpeningMoveModel.SetBlackShiftsTotal | src/main/java/jp/ac/dendai/model/OpeningMove.java:24-31 | changing the black-win counter moves the total by exactly the change, wrapped like an `int` |
| OpeningMoveModel.SetOtherFieldsKeepTotal | src/main/java/jp/ac/dendai/model/OpeningMove.java:11-31 | the move strings and the average rating do not affect the total |
| OpeningMoveModel.TotalGamesCanWrap | src/main/java/jp/ac/dendai/model/OpeningMove.java:29-31 | two counters of 2^30 give a total of -2^31, as Java's `int` addition does |
| EngineResponseModel.EngineResponse.BestMoveUci | src/main/java/jp/ac/dendai/model/EngineResponse.java:38-43 | the best move is present exactly when both squares are, and is the origin square followed by the target square |
| EngineResponseModel.EngineResponse.Evaluation | src/main/java/jp/ac/dendai/model/EngineResponse.java:49-51 | the evaluation sent, or 0.0 when none was sent |
| MoveAnalysisModel.Analysis.EvalLoss | src/main/java/jp/ac/dendai/model/MoveAnalysis.java:69-77 | the loss is present exactly when both evaluations are. For White it is what the played move's evaluation falls short of the recommended one; for Black it is what it exceeds it by |
| MoveAnalysisModel.Analysis.IsSignificantMistake | src/main/java/jp/ac/dendai/model/MoveAnalysis.java:82-85 | a significant mistake needs both evaluations. With both present, it is one where White's played move is evaluated at least 0.5 below the recommended one, or Black's at least 0.5 above it |
| MoveAnalysisModel.Analysis.PlayerName | src/main/java/jp/ac/dendai/model/MoveAnalysis.java:90-92 | "White" exactly for White's moves, otherwise "Black" |
| MoveAnalysisModel.Analysis.FormattedMoveNumber | src/main/java/jp/ac/dendai/model/MoveAnalysis.java:97-99 | the text ends in "."; it ends in "..." for Black, and in a single "." (not preceded by another) exactly for White |
| MoveAnalysisModel.EqualEvaluationsLoseNothing | src/main/java/jp/ac/dendai/model/MoveAnalysis.java:69-85 | equal evaluations give a loss of 0.0 and never a significant mistake, for either colour |
| MoveAnalysisModel.EvalLossColourSymmetry | src/main/java/jp/ac/dendai/model/MoveAnalysis.java:69-77 | on the same evaluations, Black's loss is the negation of White's |
| MoveAnalysisModel.FormattedMoveNumberReadsBack | src/main/java/jp/ac/dendai/model/MoveAnalysis.java:97-99 | the text is the decimal move number followed by "." (White) or "..." (Black), and the number reads back |
| MoveAnalysisModel.MoveAnalysis.constructor | src/main/java/jp/ac/dendai/model/MoveAnalysis.java:17-21 | the record holds the move number, the side and the move; every other field is unset |
| MoveAnalysisModel.MoveAnalysis.SetMoveNumber | src/main/java/jp/ac/dendai/model/MoveAnalysis.java:25 | replaces the move number and nothing else |
| MoveAnalysisModel.MoveAnalysis.SetWhite | src/main/java/jp/ac/dendai/model/MoveAnalysis.java:28 | replaces the side and nothing else |
| MoveAnalysisModel.MoveAnalysis.SetPlayedMove | src/main/java/jp/ac/dendai/model/MoveAnalysis.java:31 | replaces the played move and nothing else |
| MoveAnalysisModel.MoveAnalysis.SetOpeningMove | src/main/java/jp/ac/dendai/model/MoveAnalysis.java:34 | replaces the in-book flag and nothing else |
| MoveAnalysisModel.MoveAnalysis.SetTopOpeningMoves | src/main/java/jp/ac/dendai/model/MoveAnalysis.java:37-39 | replaces the candidate list and nothing else |
| MoveAnalysisModel.MoveAnalysis.SetRecommendedMove | src/main/java/jp/ac/dendai/model/MoveAnalysis.java:42-44 | replaces the recommendation and nothing else |
| MoveAnalysisModel.MoveAnalysis.SetPlayedMoveEval | src/main/java/jp/ac/dendai/model/MoveAnalysis.java:47-49 | replaces the played move's evaluation and nothing else |
| MoveAnalysisModel.MoveAnalysis.SetRecommendedMoveEval | src/main/java/jp/ac/dendai/model/MoveAnalysis.java:52-54 | replaces the recommended move's evaluation and nothing else |
| MoveAnalysisModel.MoveAnalysis.SetPunishmentMove | src/main/java/jp/ac/dendai/model/MoveAnalysis.java:57-59 | replaces the punishment move and nothing else |
| MoveAnalysisModel.MoveAnalysis.SetEvalAfterPunishment | src/main/java/jp/ac/dendai/model/MoveAnalysis.java:62-64 | replaces the evaluation after the punishment and nothing else |
| PositionTracking.DoMove | src/main/java/jp/ac/dendai/util/PositionTracker.java:24-26 | the move succeeds exactly when it is legal. It then yields the position after the move, with the move's coordinate rendering appended to the history; otherwise it fails with that position and move |
| PositionTracking.Replay | src/main/java/jp/ac/dendai/util/PositionTracker.java:31-35 | making moves in order only extends the history, by at most one entry per move, and every move was made exactly when it grew by all of them |
| PositionTracking.ReplayAppend | src/main/java/jp/ac/dendai/util/PositionTracker.java:31-35 | making xs then ys is making xs, then, if every move of xs was made, ys from where xs ended |
| PositionTracking.ReplayKeepsTokens | src/main/java/jp/ac/dendai/util/PositionTracker.java:24-35 | when the library renders every legal move as a token, moves only ever add tokens to a history of tokens |
| PositionTracking.HistoryKeyDecodes | src/main/java/jp/ac/dendai/util/PositionTracker.java:69-85 | when the library renders every legal move as a token, the key of any position reached from the start is empty exactly when no move was made, and otherwise cuts back into exactly the history |
| PositionTracking.JoinShape | src/main/java/jp/ac/dendai/util/PositionTracker.java:69-85 | joining tokens gives a string that neither starts nor ends with a comma and has one comma fewer than there are moves |
| PositionTracking.SplitJoin | src/main/java/jp/ac/dendai/util/PositionTracker.java:69-85 | the move encoding is decodable: cutting it at the commas gives the moves back |
| PositionTracking.JoinSplit | src/main/java/jp/ac/dendai/util/PositionTracker.java:69-85 | joining the pieces of any string at its commas gives the string back |
| PositionTracking.JoinPrefix | src/main/java/jp/ac/dendai/util/PositionTracker.java:47-85 | the encoding of the first k moves is a prefix of the encoding of all of them, followed by a comma when moves remain |
| PositionTracking.PositionTracker.constructor | src/main/java/jp/ac/dendai/util/PositionTracker.java:9-11 | a new tracker is on the initial position with no moves made |
| PositionTracking.PositionTracker.FromFen | src/main/java/jp/ac/dendai/util/PositionTracker.java:16-19 | a tracker loaded from a FEN is on that position with no moves made |
| PositionTracking.PositionTracker.GetFen | src/main/java/jp/ac/dendai/util/PositionTracker.java:40-42 | the FEN of the board's current position |
| PositionTracking.PositionTracker.ApplyMoveSan | src/main/java/jp/ac/dendai/util/PositionTracker.java:24-26 | a legal move advances the board to the next position; an illegal one fails and leaves the board unchanged |
| PositionTracking.PositionTracker.ApplyMovesSan | src/main/java/jp/ac/dendai/util/PositionTracker.java:31-35 | the board and the outcome are those of making the moves in order, stopping at the first illegal one |
| PositionTracking.PositionTracker.GetLastMovesAsUci | src/main/java/jp/ac/dendai/util/PositionTracker.java:47-64 | the encoding of the first min(count, history) moves, and empty for a count that is not positive |
| PositionTracking.PositionTracker.GetAllMovesAsUci | src/main/java/jp/ac/dendai/util/PositionTracker.java:69-85 | the encoding of the whole history, oldest first |
| PositionTracking.PositionTracker.Clone | src/main/java/jp/ac/dendai/util/PositionTracker.java:97-100 | a new tracker on the same position, with an empty history |
| PositionTracking.PositionTracker.Reset | src/main/java/jp/ac/dendai/util/PositionTracker.java:105-107 | the board is back on the initial position with no moves made |
| PositionTracking.ExploreOnClone | src/main/java/jp/ac/dendai/util/PositionTracker.java:97-100 | moves made on a clone leave the original tracker unchanged |
| OpeningTrainer.IsWhiteColor | src/main/java/jp/ac/dendai/service/OpeningTrainerService.java:42 | null selects Black. Otherwise White is selected exactly for five characters, each the matching letter of "white" in either case, where 'ı' and 'İ' also match 'i'. The contract states both directions: a colour is selected exactly when it has five characters that lower-case to "white" outside the third, and the third is one of 'i', 'I', 'ı', 'İ' |
| OpeningTrainer.ColorExamples | src/main/java/jp/ac/dendai/service/OpeningTrainerService.java:42 | "white", "WHITE", "White" and "whİte" select White; "black", "whites" and null select Black |
| OpeningTrainer.WhiteColorIgnoresCase | src/main/java/jp/ac/dendai/service/OpeningTrainerService.java:42 | for every ASCII colour string: White is selected exactly when the string lower-cases to "white" |
| OpeningTrainer.PlyBound | src/main/java/jp/ac/dendai/service/OpeningTrainerService.java:45 | the walk examines all plies of a shorter game, otherwise two plies per full move of the limit, and none for a limit that is not positive |
| OpeningTrainer.PlyBoundOverflows | src/main/java/jp/ac/dendai/service/OpeningTrainerService.java:45 | with a limit of 2^30, the bound as written is negative while the intended bound is 1 (see Findings) |
| OpeningTrainer.PlyBoundOverflowsNegative | src/main/java/jp/ac/dendai/service/OpeningTrainerService.java:45 | with a limit of -(2^30 + 1), the bound as written examines the whole game while the intended bound is 0 (see Findings) |
| OpeningTrainer.PlyBoundMatchesWhenNoOverflow | src/main/java/jp/ac/dendai/service/OpeningTrainerService.java:45 | when the product does not wrap, the intended bound is the written one |
| OpeningTrainer.DefaultExaminesThirtyPlies | src/main/java/jp/ac/dendai/service/OpeningTrainerService.java:22-24 | the default service examines min(length, 30) plies |
| OpeningTrainer.EngineBestMove | src/main/java/jp/ac/dendai/service/OpeningTrainerService.java:166-175 | when the engine answered, the best move is exactly the SAN of its answer (absent if the answer has none); no move when the request or parse failed |
| OpeningTrainer.PositionEvaluation | src/main/java/jp/ac/dendai/service/OpeningTrainerService.java:180-189 | an evaluation exists exactly when the engine answered. It is the answer's evaluation, or 0.0 when the answer has none |
| OpeningTrainer.AnyMatch | src/main/java/jp/ac/dendai/service/OpeningTrainerService.java:100-101 | on success, true exactly when some candidate's SAN is the played move. A negative answer means every candidate had a SAN, and with every SAN present it always succeeds; the only failure is a candidate without SAN |
| OpeningTrainer.FirstStop | src/main/java/jp/ac/dendai/service/OpeningTrainerService.java:100-101 | where the scan stops: every earlier candidate has a SAN other than the played move, and the candidate there has none or the played one |
| OpeningTrainer.AnyMatchShortCircuit | src/main/java/jp/ac/dendai/service/OpeningTrainerService.java:100-101 | the scan short-circuits. It answers true when it stops at a match and throws when it stops at a candidate without SAN, so a match before such a candidate succeeds. It answers false only after passing every candidate |
| OpeningTrainer.EvaluateMovesEffects | src/main/java/jp/ac/dendai/service/OpeningTrainerService.java:130-161 | both moves are legal. The evaluations are those after each move. Only the evaluation and punishment fields change. The punishment fields change only for a significant mistake, and the punishment is the engine's best reply to the played move. When there is a punishment, it is legal, and the evaluation after the punishment is the one taken after the played move and the punishment. The error is the first illegal move, in the order played, recommended, punishment |
| OpeningTrainer.AnalyzeMoveKeepsIdentity | src/main/java/jp/ac/dendai/service/OpeningTrainerService.java:93 | a record carries the move number, side and move it was made for |
| OpeningTrainer.AnalyzeMoveClassification | src/main/java/jp/ac/dendai/service/OpeningTrainerService.java:85-125 | in book: the candidates are stored, and the move is an opening move exactly when a candidate has its SAN; otherwise the first candidate is recommended. Out of book: never an opening move, and the engine's best move is recommended exactly when it exists and differs. Evaluations exist only with a recommendation, and a punishment only after a significant mistake. Failures are a candidate without SAN or an illegal move |
| OpeningTrainer.TargetCountStep | src/main/java/jp/ac/dendai/service/OpeningTrainerService.java:45-62 | the number of plies of the chosen colour grows by one exactly at a ply of that colour, and the j-th such ply is the one counted |
| OpeningTrainer.AnalyzerKeepsIdentity | src/main/java/jp/ac/dendai/service/OpeningTrainerService.java:64-70 | the service's move analysis files every record under the move number, side and move it was given |
| OpeningTrainer.PlyAnalysisShape | src/main/java/jp/ac/dendai/service/OpeningTrainerService.java:46-48 | a ply's record is for the side to move and the played move, numbered by full moves from 1 |
| OpeningTrainer.WalkStep | src/main/java/jp/ac/dendai/service/OpeningTrainerService.java:45-77 | one loop step: from the position the earlier plies reach, the record is made before the move is applied. The walk stops at the first failure of either |
| OpeningTrainer.WalkSucceeds | src/main/java/jp/ac/dendai/service/OpeningTrainerService.java:45-77 | the walk succeeds exactly when every move up to the bound is legal and every ply of the chosen colour can be analysed |
| OpeningTrainer.WalkRecordCount | src/main/java/jp/ac/dendai/service/OpeningTrainerService.java:45-77 | a successful walk keeps the earlier records and adds exactly one per ply of the chosen colour |
| OpeningTrainer.WalkRecordAt | src/main/java/jp/ac/dendai/service/OpeningTrainerService.java:45-77 | the j-th record is the independently defined record of the j-th ply of the chosen colour |
| OpeningTrainer.AnalyzeGameMatchesPlies | src/main/java/jp/ac/dendai/service/OpeningTrainerService.java:39-80 | analyzeGame succeeds exactly when every ply below the bound is legal and every chosen-colour ply can be analysed. Each record is made in the position before its ply, against the explorer's answer for the encoding of exactly the earlier moves |
| OpeningTrainer.AnalyzeGameRecordShape | src/main/java/jp/ac/dendai/service/OpeningTrainerService.java:39-80 | every record is of the chosen colour and carries its ply's move; the j-th record is move j + 1, so there are at most `openingPhaseLimit` records |
| OpeningTrainer.OpeningTrainerService.Default | src/main/java/jp/ac/dendai/service/OpeningTrainerService.java:22-24 | the default service has a limit of 15 full moves |
| OpeningTrainer.OpeningTrainerService.constructor | src/main/java/jp/ac/dendai/service/OpeningTrainerService.java:26-31 | the service keeps the given limit |
| OpeningTrainer.OpeningTrainerService.AnalyzeGame | src/main/java/jp/ac/dendai/service/OpeningTrainerService.java:39-80 | the loop over a tracker returns fresh records whose contents are the walk's records, and fails with the walk's error |
| OpeningTrainer.OpeningTrainerService.AnalyzePly | src/main/java/jp/ac/dendai/service/OpeningTrainerService.java:46-76 | one pass of the loop: the explorer is asked with the encoding of the moves so far, the record is made for a chosen-colour ply, and the move is applied. The walk from the next ply gives the same result |
| OpeningTrainer.OpeningTrainerService.AnalyzeMoveInPosition | src/main/java/jp/ac/dendai/service/OpeningTrainerService.java:85-125 | the tracker is untouched, and the new record is the one `AnalyzeMoveSpec` describes, as is the error |
| OpeningTrainer.OpeningTrainerService.EvaluateMoves | src/main/java/jp/ac/dendai/service/OpeningTrainerService.java:130-161 | the hypothetical moves are made on clones, so the tracker is untouched; the record is updated as `EvaluateSpec` describes |

## Left out

- The HTTP clients (`ChessEngineClient`, `OpeningExplorerClient`, `LichessApiClient`) and `App` are not modelled. Their answers are the `Oracles` functions, and a failed request is `None`.
- JSON parsing (Gson) is not modelled. The parsed records are datatypes, and a field absent from the JSON is `None`.
- The chess library is not reimplemented. Legality, the resulting FEN and the coordinate rendering of a move are the `Rules` oracle. `loadFromFen` is taken to leave the board's move history empty.
- The chess library is assumed to render every legal move as a non-empty coordinate string without a comma. The `RendersTokens` predicate states this, and `HistoryKeyDecodes` holds under it.
- The engine is taken to answer the same FEN the same way each time. `evaluateMoves` asks it twice about the position after the played move: once for the evaluation and once for the punishment. The model gives both requests the same answer.
- `clone()` relies on the chess library reading back, after `loadFromFen`, exactly the FEN that was loaded. `FromFen` and `Clone` take the clone's FEN to be the original's.
- Java's `Double` is modelled as `real`, without floating-point rounding.
- The logging to standard error in the two engine helpers and around the explorer query is not modelled.
- `PositionTracker.getBoard` is left out: it exposes the library's board, which the model does not have.
- The setters of `OpeningMove`, `OpeningResponse` and `EngineResponse` are datatype updates, and `EngineResponse`'s `text`, `depth` and `pv` are carried but never read. The core never calls those setters.
- `null` elements inside the candidate list are not modelled: the list holds values. A candidate whose SAN is `null` is modelled.
- `analyzeGame`'s loop body is the helper method `AnalyzePly`, and `anyMatch`'s stream is the recursive function `AnyMatch`.
- OpeningTrainer.OpeningTrainerService.AnalyzeGame: the walk uses the intended bound `PlyBound`, not the wrapping product `openingPhaseLimit * 2`. The two differ only for limits of 2^30 or more, or below -2^30 (see Findings).
- OpeningTrainer.OpeningTrainerService.AnalyzeGame: requires at most 2^31 - 1 moves, the largest length a Java array can have.
- OpeningTrainer.OpeningTrainerService.EvaluateMoves: when it fails, the contract does not describe the partly updated record. The source then throws, and analyzeGame discards the record.

## Findings

| source | as written | input that shows it | evidently intended | confidence | as-written member | corrected member |
|---|---|---|---|---|---|---|
| src/main/java/jp/ac/dendai/service/OpeningTrainerService.java:45 | the ply bound `Math.min(moves.length, openingPhaseLimit * 2)` multiplies in 32-bit `int`, so the product wraps | `openingPhaseLimit = 1073741824` (2^30) and a one-move game: the product is -2^31, and no ply is examined. With `openingPhaseLimit = -1073741825` the product wraps to 2^31 - 2, and every ply is examined | two plies per full move of the limit, capped at the game's length, and none for a limit that is not positive: 1 and 0 for these inputs | not executed | OpeningTrainer.PlyBoundAsWritten, OpeningTrainer.PlyBoundOverflows, OpeningTrainer.PlyBoundOverflowsNegative | OpeningTrainer.PlyBound |
