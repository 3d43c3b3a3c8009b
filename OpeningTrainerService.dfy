/** The opening walk: the game is replayed ply by ply; before each move the opening explorer
    is asked about the position reached so far, and each move of the chosen colour is
    classified against its answer, with the engine consulted when the move leaves the book. */
module OpeningTrainer {
  import opened Wrappers
  import opened JavaInt
  import opened Errors
  import opened OpeningMoveModel
  import opened EngineResponseModel
  import opened MoveAnalysisModel
  import opened PositionTracking

  /** The collaborators: the chess library; the opening explorer, asked with the
      comma-separated coordinate moves played so far; and the engine, asked with a FEN.
      `None` from either service stands for a request or a parse that failed. */
  datatype Oracles = Oracles(
    rules: Rules,
    book: string -> Option<OpeningResponse>,
    engine: string -> Option<EngineResponse>)

  /** Full moves examined when no limit is given. */
  const DefaultOpeningPhaseLimit: Int32 := 15

  function UpperAscii(c: char): char {
    if 'a' <= c <= 'z' then (c as int - 32) as char else c
  }

  /** Java's `equalsIgnoreCase` for one character against a lower-case ASCII letter: the same
      letter in either case, and for 'i' also the dotless 'ı' and the dotted 'İ', whose case
      mappings meet 'i'. */
  predicate CharEqualsIgnoreCase(c: char, lower: char) {
    c == lower || c == UpperAscii(lower) || (lower == 'i' && (c == '\U{0131}' || c == '\U{0130}'))
  }

  /** Whether the colour names White, ignoring case; anything else, and null, means Black. */
  predicate IsWhiteColor(playerColor: Option<string>)
    ensures IsWhiteColor(playerColor) ==> playerColor.Some? && |playerColor.value| == 5
    ensures IsWhiteColor(playerColor) ==>
      forall k :: 0 <= k < 5 && k != 2 ==> LowerAscii(playerColor.value[k]) == "white"[k]
    ensures IsWhiteColor(playerColor) ==> playerColor.value[2] in {'i', 'I', '\U{0131}', '\U{0130}'}
    ensures playerColor.Some? && |playerColor.value| == 5
      && (forall k :: 0 <= k < 5 && k != 2 ==> LowerAscii(playerColor.value[k]) == "white"[k])
      && playerColor.value[2] in {'i', 'I', '\U{0131}', '\U{0130}'}
      ==> IsWhiteColor(playerColor)
  {
    && playerColor.Some?
    && |playerColor.value| == 5
    && forall k :: 0 <= k < 5 ==> CharEqualsIgnoreCase(playerColor.value[k], "white"[k])
  }

  lemma ColorExamples()
    ensures IsWhiteColor(Some("white")) && IsWhiteColor(Some("WHITE")) && IsWhiteColor(Some("White"))
    ensures IsWhiteColor(Some("wh\U{0130}te"))
    ensures !IsWhiteColor(Some("black")) && !IsWhiteColor(Some("whites")) && !IsWhiteColor(None)
  {
    assert !CharEqualsIgnoreCase("black"[0], "white"[0]);
  }

  function LowerAscii(c: char): char {
    if 'A' <= c <= 'Z' then (c as int + 32) as char else c
  }

  predicate IsAscii(s: string) {
    forall k :: 0 <= k < |s| ==> s[k] as int < 128
  }

  /** The string with its ASCII capitals lowered, the way an ASCII-only case fold works. */
  function LowerAsciiString(s: string): (r: string)
    ensures |r| == |s|
    ensures forall k :: 0 <= k < |s| ==> r[k] == LowerAscii(s[k])
  {
    if |s| == 0 then "" else [LowerAscii(s[0])] + LowerAsciiString(s[1..])
  }

  /** On ASCII input the colour selects White exactly when it lower-cases to "white": any
      mixture of cases of the five letters, and nothing else. */
  lemma WhiteColorIgnoresCase(s: string)
    requires IsAscii(s)
    ensures IsWhiteColor(Some(s)) <==> LowerAsciiString(s) == "white"
  {
    var r := LowerAsciiString(s);
    if IsWhiteColor(Some(s)) {
      assert forall k :: 0 <= k < 5 ==> r[k] == "white"[k];
    }
    if r == "white" {
      assert forall k :: 0 <= k < 5 ==> LowerAscii(s[k]) == "white"[k];
    }
  }

  /** The number of plies the loop examines as written: `Math.min(moves.length,
      openingPhaseLimit * 2)`, where the product wraps like Java's `int`. */
  function PlyBoundAsWritten(length: nat, openingPhaseLimit: Int32): int {
    Min(length, Wrap32(openingPhaseLimit * 2))
  }

  /** The number of plies evidently intended: two per full move of the limit, all the game's
      plies if it is shorter, none for a limit that is not positive. */
  function PlyBound(length: nat, openingPhaseLimit: Int32): (n: nat)
    ensures n <= length
    ensures n == 0 || n <= 2 * openingPhaseLimit
    ensures openingPhaseLimit > 0 ==> n == length || n == 2 * openingPhaseLimit
  {
    if openingPhaseLimit <= 0 then 0 else Min(length, 2 * openingPhaseLimit)
  }

  /** A limit of 2^30 full moves makes the product wrap to -2^31, so a one-move game is not
      examined at all. */
  lemma PlyBoundOverflows()
    ensures PlyBoundAsWritten(1, 0x4000_0000) < 0
    ensures PlyBound(1, 0x4000_0000) == 1
  {
  }

  /** A limit of -(2^30 + 1) full moves makes the product wrap to 2^31 - 2, so every ply of the
      game is examined although the limit is negative. */
  lemma PlyBoundOverflowsNegative()
    ensures PlyBoundAsWritten(1, -0x4000_0001) == 1
    ensures PlyBound(1, -0x4000_0001) == 0
  {
  }

  /** Wherever the product does not wrap, the intended bound is the written one (a negative
      written bound runs no iteration). */
  lemma PlyBoundMatchesWhenNoOverflow(length: nat, openingPhaseLimit: Int32)
    requires -0x4000_0000 <= openingPhaseLimit < 0x4000_0000
    ensures PlyBound(length, openingPhaseLimit) ==
      (if PlyBoundAsWritten(length, openingPhaseLimit) < 0 then 0 else PlyBoundAsWritten(length, openingPhaseLimit))
  {
  }

  /** The default limit examines the first 30 plies. */
  lemma DefaultExaminesThirtyPlies(length: nat)
    ensures PlyBound(length, DefaultOpeningPhaseLimit) == Min(length, 30)
  {
  }

  /** getEngineBestMove: the engine's best move in algebraic notation; a failed request or
      parse, like an answer without one, gives none. */
  function EngineBestMove(o: Oracles, fen: string): (r: Option<string>)
    ensures r.Some? ==> o.engine(fen).Some? && o.engine(fen).value.san == r
    ensures o.engine(fen).Some? ==> r == o.engine(fen).value.san
    ensures o.engine(fen).None? ==> r.None?
  {
    match o.engine(fen)
    case None => None
    case Some(response) => response.san
  }

  /** getPositionEvaluation: the engine's evaluation (0.0 when its answer has none); a failed
      request or parse gives none. */
  function PositionEvaluation(o: Oracles, fen: string): (r: Option<real>)
    ensures r.Some? <==> o.engine(fen).Some?
    ensures r.Some? ==> r.value == o.engine(fen).value.Evaluation()
    ensures r.Some? && o.engine(fen).value.eval.Some? ==> r.value == o.engine(fen).value.eval.value
    ensures r.Some? && o.engine(fen).value.eval.None? ==> r.value == 0.0
  {
    match o.engine(fen)
    case None => None
    case Some(response) => Some(response.Evaluation())
  }

  /** The stream's `anyMatch`: the candidates in order, each one's SAN compared with the played
      move; a candidate without SAN that is reached before a match throws. */
  function AnyMatch(candidates: seq<OpeningMove>, playedMove: string): (r: Result<bool, Error>)
    ensures r.Success? ==> (r.value <==> exists k :: 0 <= k < |candidates| && candidates[k].san == Some(playedMove))
    ensures r == Success(false) ==> forall k :: 0 <= k < |candidates| ==> candidates[k].san.Some?
    ensures (forall k :: 0 <= k < |candidates| ==> candidates[k].san.Some?) ==> r.Success?
    ensures r.Failure? ==> r.error == NullCandidateSan
  {
    if |candidates| == 0 then Success(false)
    else match candidates[0].san
      case None => Failure(NullCandidateSan)
      case Some(san) =>
        if san == playedMove then Success(true)
        else
          var rest := AnyMatch(candidates[1..], playedMove);
          assert forall k :: 1 <= k < |candidates| ==> candidates[k] == candidates[1..][k - 1];
          rest
  }

  /** Where the scan stops: the first candidate that has no SAN or has the played move's, or
      the end of the list when there is none. */
  function FirstStop(candidates: seq<OpeningMove>, playedMove: string): (k: nat)
    ensures k <= |candidates|
    ensures forall m :: 0 <= m < k ==> candidates[m].san.Some? && candidates[m].san != Some(playedMove)
    ensures k < |candidates| ==> candidates[k].san.None? || candidates[k].san == Some(playedMove)
  {
    if |candidates| == 0 || candidates[0].san.None? || candidates[0].san == Some(playedMove) then 0
    else
      var k := 1 + FirstStop(candidates[1..], playedMove);
      assert forall m :: 1 <= m < |candidates| ==> candidates[m] == candidates[1..][m - 1];
      k
  }

  /** The scan short-circuits: it answers true when the first stop is a match, throws when it
      is a candidate without SAN, and answers false only after passing every candidate. So a
      match before any candidate without SAN answers true. */
  lemma {:induction false} AnyMatchShortCircuit(candidates: seq<OpeningMove>, playedMove: string)
    ensures var r, k := AnyMatch(candidates, playedMove), FirstStop(candidates, playedMove);
      && (r == Success(true) <==> k < |candidates| && candidates[k].san == Some(playedMove))
      && (r.Failure? <==> k < |candidates| && candidates[k].san.None?)
      && (r == Success(false) <==> k == |candidates|)
  {
    if |candidates| > 0 && candidates[0].san.Some? && candidates[0].san != Some(playedMove) {
      AnyMatchShortCircuit(candidates[1..], playedMove);
      var k := FirstStop(candidates[1..], playedMove);
      if k < |candidates| - 1 {
        assert candidates[k + 1] == candidates[1..][k];
      }
    }
  }

  /** evaluateMoves on values: the evaluations after the played and after the recommended move,
      each made on a fresh board loaded from `fen`; then, for a significant mistake only, the
      engine's best reply to the played move and, if there is one, the evaluation after it. */
  function EvaluateSpec(o: Oracles, fen: string, a: Analysis, playedMove: string, recommendedMove: string): Result<Analysis, Error>
  {
    if !o.rules.legal(fen, playedMove) then Failure(IllegalMove(fen, playedMove))
    else if !o.rules.legal(fen, recommendedMove) then Failure(IllegalMove(fen, recommendedMove))
    else
      var afterPlayed := o.rules.play(fen, playedMove);
      var evaluated := a.(playedMoveEval := PositionEvaluation(o, afterPlayed),
                          recommendedMoveEval := PositionEvaluation(o, o.rules.play(fen, recommendedMove)));
      if !evaluated.IsSignificantMistake() then Success(evaluated)
      else match EngineBestMove(o, afterPlayed)
        case None => Success(evaluated.(punishmentMove := None))
        case Some(punishment) =>
          if !o.rules.legal(afterPlayed, punishment) then Failure(IllegalMove(afterPlayed, punishment))
          else Success(evaluated.(punishmentMove := Some(punishment),
                                  evalAfterPunishment := PositionEvaluation(o, o.rules.play(afterPlayed, punishment))))
  }

  /** What evaluateMoves does to a record: both moves must be legal in the position; it sets the
      two evaluations, each taken after its own move, touches the punishment fields only for a
      significant mistake, sets the punishment to the engine's best reply to the played move,
      and evaluates after that reply only when there is one. Nothing else changes. */
  lemma EvaluateMovesEffects(o: Oracles, fen: string, a: Analysis, playedMove: string, recommendedMove: string)
    ensures var r := EvaluateSpec(o, fen, a, playedMove, recommendedMove);
      r.Success? ==>
        && o.rules.legal(fen, playedMove) && o.rules.legal(fen, recommendedMove)
        && r.value.playedMoveEval == PositionEvaluation(o, o.rules.play(fen, playedMove))
        && r.value.recommendedMoveEval == PositionEvaluation(o, o.rules.play(fen, recommendedMove))
        && r.value.(playedMoveEval := a.playedMoveEval, recommendedMoveEval := a.recommendedMoveEval,
                    punishmentMove := a.punishmentMove, evalAfterPunishment := a.evalAfterPunishment) == a
        && (!r.value.IsSignificantMistake() ==>
              r.value.punishmentMove == a.punishmentMove && r.value.evalAfterPunishment == a.evalAfterPunishment)
        && (r.value.IsSignificantMistake() ==>
              r.value.punishmentMove == EngineBestMove(o, o.rules.play(fen, playedMove)))
        && (r.value.punishmentMove.None? ==> r.value.evalAfterPunishment == a.evalAfterPunishment)
        && (r.value.IsSignificantMistake() && r.value.punishmentMove.Some? ==>
              && o.rules.legal(o.rules.play(fen, playedMove), r.value.punishmentMove.value)
              && r.value.evalAfterPunishment ==
                   PositionEvaluation(o, o.rules.play(o.rules.play(fen, playedMove), r.value.punishmentMove.value)))
    // Each hypothetical move must be legal where it is made; the first illegal one is the error.
    ensures var r := EvaluateSpec(o, fen, a, playedMove, recommendedMove);
      r.Failure? ==>
        if !o.rules.legal(fen, playedMove) then r.error == IllegalMove(fen, playedMove)
        else if !o.rules.legal(fen, recommendedMove) then r.error == IllegalMove(fen, recommendedMove)
        else
          var afterPlayed := o.rules.play(fen, playedMove);
          && r.error.IllegalMove?
          && r.error.fen == afterPlayed
          && EngineBestMove(o, afterPlayed) == Some(r.error.san)
          && !o.rules.legal(afterPlayed, r.error.san)
  {
  }

  /** The classification part of analyzeMoveInPosition: in book, the candidates, whether the
      move is among them and otherwise the first candidate as recommendation; out of book, the
      engine's best move as recommendation when it differs from the played one. */
  function Classify(o: Oracles, fen: string, moveNumber: Int32, isWhiteMove: bool, playedMove: string,
                    theory: Option<OpeningResponse>): Result<Analysis, Error>
  {
    var unset := Unset(moveNumber, isWhiteMove, playedMove);
    if theory.Some? && theory.value.moves.Some? then
      var candidates := theory.value.moves.value;
      match AnyMatch(candidates, playedMove)
      case Failure(e) => Failure(e)
      case Success(isOpeningMove) =>
        var recommended := if !isOpeningMove && |candidates| > 0 then candidates[0].san else None;
        Success(unset.(topOpeningMoves := Some(candidates), isOpeningMove := isOpeningMove, recommendedMove := recommended))
    else
      var best := EngineBestMove(o, fen);
      Success(unset.(recommendedMove := if best.Some? && best.value != playedMove then best else None))
  }

  /** analyzeMoveInPosition on values: the record of one move of the chosen colour, made in the
      position `fen`, against the explorer's answer for that position; a move with a
      recommendation is evaluated against it. */
  function AnalyzeMoveSpec(o: Oracles, fen: string, moveNumber: Int32, isWhiteMove: bool, playedMove: string,
                           theory: Option<OpeningResponse>): Result<Analysis, Error>
  {
    match Classify(o, fen, moveNumber, isWhiteMove, playedMove, theory)
    case Failure(e) => Failure(e)
    case Success(classified) =>
      if classified.recommendedMove.Some? then
        EvaluateSpec(o, fen, classified, playedMove, classified.recommendedMove.value)
      else Success(classified)
  }

  /** A record carries the move number, side and move it was made for. */
  lemma AnalyzeMoveKeepsIdentity(o: Oracles, fen: string, moveNumber: Int32, isWhiteMove: bool, playedMove: string,
                                 theory: Option<OpeningResponse>)
    ensures var r := AnalyzeMoveSpec(o, fen, moveNumber, isWhiteMove, playedMove, theory);
      r.Success? ==> r.value.moveNumber == moveNumber && r.value.isWhite == isWhiteMove && r.value.playedMove == playedMove
  {
    var classified := Classify(o, fen, moveNumber, isWhiteMove, playedMove, theory);
    if classified.Success? && classified.value.recommendedMove.Some? {
      EvaluateMovesEffects(o, fen, classified.value, playedMove, classified.value.recommendedMove.value);
    }
  }

  /** What analyzeMoveInPosition records: the move's identity; in book, the candidates, whether
      the move is among them and otherwise the first as recommendation; out of book, the
      engine's differing best move as recommendation; evaluations only with a recommendation,
      punishment only after a significant mistake. */
  lemma AnalyzeMoveClassification(o: Oracles, fen: string, moveNumber: Int32, isWhiteMove: bool, playedMove: string,
                                  theory: Option<OpeningResponse>)
    ensures var r := AnalyzeMoveSpec(o, fen, moveNumber, isWhiteMove, playedMove, theory);
      var inBook := theory.Some? && theory.value.moves.Some?;
      r.Success? ==>
        && r.value.moveNumber == moveNumber && r.value.isWhite == isWhiteMove && r.value.playedMove == playedMove
        // In book: a move is an opening move exactly when some candidate has its SAN; otherwise
        // the first candidate, if any, is the recommendation.
        && (inBook ==>
              var candidates := theory.value.moves.value;
              && r.value.topOpeningMoves == Some(candidates)
              && (r.value.isOpeningMove <==> exists k :: 0 <= k < |candidates| && candidates[k].san == Some(playedMove))
              && (r.value.recommendedMove.Some? <==> !r.value.isOpeningMove && |candidates| > 0)
              && (r.value.recommendedMove.Some? ==> r.value.recommendedMove == candidates[0].san))
        // Out of book: never an opening move; the engine's best move is recommended when it
        // differs from the played one.
        && (!inBook ==>
              var best := EngineBestMove(o, fen);
              && !r.value.isOpeningMove
              && r.value.topOpeningMoves.None?
              && (r.value.recommendedMove.Some? <==> best.Some? && best.value != playedMove)
              && (r.value.recommendedMove.Some? ==> r.value.recommendedMove == best))
        // Evaluations exist only for a recommendation, and are those after each move; a
        // punishment only for a significant mistake, its evaluation only with it.
        && (r.value.recommendedMove.None? ==>
              r.value.playedMoveEval.None? && r.value.recommendedMoveEval.None? && r.value.punishmentMove.None?)
        && (r.value.recommendedMove.Some? ==>
              && r.value.recommendedMove.value != playedMove
              && r.value.playedMoveEval == PositionEvaluation(o, o.rules.play(fen, playedMove))
              && r.value.recommendedMoveEval == PositionEvaluation(o, o.rules.play(fen, r.value.recommendedMove.value)))
        && (r.value.punishmentMove.Some? ==> r.value.IsSignificantMistake())
        && (r.value.evalAfterPunishment.Some? ==> r.value.punishmentMove.Some?)
    // It fails only on a candidate without SAN, in book, or on an illegal move.
    ensures var r := AnalyzeMoveSpec(o, fen, moveNumber, isWhiteMove, playedMove, theory);
      r.Failure? ==>
        || (r.error == NullCandidateSan && theory.Some? && theory.value.moves.Some?)
        || (r.error.IllegalMove? && !o.rules.legal(r.error.fen, r.error.san))
  {
    var unset := Unset(moveNumber, isWhiteMove, playedMove);
    if theory.Some? && theory.value.moves.Some? {
      var candidates := theory.value.moves.value;
      if AnyMatch(candidates, playedMove) == Success(false) && |candidates| > 0 {
        var recommended := candidates[0].san;
        EvaluateMovesEffects(o, fen, unset.(topOpeningMoves := Some(candidates), recommendedMove := recommended),
                             playedMove, recommended.value);
      }
    } else {
      var best := EngineBestMove(o, fen);
      if best.Some? && best.value != playedMove {
        EvaluateMovesEffects(o, fen, unset.(recommendedMove := best), playedMove, best.value);
      }
    }
  }

  /** Whether ply `i` (0 for White's first move) belongs to the analysed colour. */
  predicate IsTargetPly(i: nat, analyzeWhite: bool) {
    (i % 2 == 0) == analyzeWhite
  }

  /** How many of the first `plies` plies belong to the analysed colour. */
  function TargetCount(plies: nat, analyzeWhite: bool): nat {
    if analyzeWhite then (plies + 1) / 2 else plies / 2
  }

  /** The ply of the analysed colour's `j`-th move (from 0). */
  function PlyOf(j: nat, analyzeWhite: bool): nat {
    2 * j + (if analyzeWhite then 0 else 1)
  }

  /** Counting the analysed plies one ply further; the next record is that of ply `i`. */
  lemma TargetCountStep(i: nat, w: bool)
    ensures TargetCount(i + 1, w) == TargetCount(i, w) + (if IsTargetPly(i, w) then 1 else 0)
    ensures IsTargetPly(i, w) ==> PlyOf(TargetCount(i, w), w) == i
  {
  }

  /** The analysis of one move as the walk applies it, from the position's FEN, the move
      number, the side to move, the move and the explorer's answer for the position. */
  type MoveAnalyzer = (string, Int32, bool, string, Option<OpeningResponse>) -> Result<Analysis, Error>

  /** The service's own analysis of a move. */
  function Analyzer(o: Oracles): MoveAnalyzer {
    (fen: string, moveNumber: Int32, isWhiteMove: bool, playedMove: string, theory: Option<OpeningResponse>) =>
      AnalyzeMoveSpec(o, fen, moveNumber, isWhiteMove, playedMove, theory)
  }

  /** The walk from ply `i` on, with the board reached so far and the records made so far. */
  function Walk(o: Oracles, analyze: MoveAnalyzer, moves: seq<string>, analyzeWhite: bool, n: nat, i: nat, board: Board,
                done: seq<Analysis>): Result<seq<Analysis>, Error>
    requires i <= n <= |moves| <= MaxInt32
    decreases n - i
  {
    if i == n then Success(done)
    else
      var isWhiteMove := i % 2 == 0;
      var theory := o.book(Join(board.backup));
      if isWhiteMove == analyzeWhite then
        match analyze(board.fen, i / 2 + 1, isWhiteMove, moves[i], theory)
        case Failure(e) => Failure(e)
        case Success(analysis) =>
          match DoMove(o.rules, board, moves[i])
          case Failure(e) => Failure(e)
          case Success(next) => Walk(o, analyze, moves, analyzeWhite, n, i + 1, next, done + [analysis])
      else
        match DoMove(o.rules, board, moves[i])
        case Failure(e) => Failure(e)
        case Success(next) => Walk(o, analyze, moves, analyzeWhite, n, i + 1, next, done)
  }

  /** analyzeGame on values: the walk over the first plies from the initial position. */
  function AnalyzeGameSpec(o: Oracles, openingPhaseLimit: Int32, moves: seq<string>, playerColor: Option<string>): Result<seq<Analysis>, Error>
    requires |moves| <= MaxInt32
  {
    Walk(o, Analyzer(o), moves, IsWhiteColor(playerColor), PlyBound(|moves|, openingPhaseLimit), 0, StartBoard, [])
  }

  /** A reference definition of one ply's record, independent of the walk: replay the moves
      before it from the initial position, ask the explorer with their coordinate encoding,
      and analyse the move in the position reached. */
  function PlyAnalysis(o: Oracles, analyze: MoveAnalyzer, moves: seq<string>, i: nat): Result<Analysis, Error>
    requires i < |moves| <= MaxInt32
  {
    var (before, outcome) := Replay(o.rules, StartBoard, moves[..i]);
    if outcome.Fail? then Failure(outcome.error)
    else analyze(before.fen, i / 2 + 1, i % 2 == 0, moves[i], o.book(Join(before.backup)))
  }

  /** An analyser that files each record under the move number, side and move it was given. */
  ghost predicate KeepsIdentity(analyze: MoveAnalyzer) {
    forall fen: string, moveNumber: Int32, isWhiteMove: bool, playedMove: string, theory: Option<OpeningResponse> ::
      analyze(fen, moveNumber, isWhiteMove, playedMove, theory).Success? ==>
        && analyze(fen, moveNumber, isWhiteMove, playedMove, theory).value.moveNumber == moveNumber
        && analyze(fen, moveNumber, isWhiteMove, playedMove, theory).value.isWhite == isWhiteMove
        && analyze(fen, moveNumber, isWhiteMove, playedMove, theory).value.playedMove == playedMove
  }

  lemma AnalyzerKeepsIdentity(o: Oracles)
    ensures KeepsIdentity(Analyzer(o))
  {
    forall fen: string, moveNumber: Int32, isWhiteMove: bool, playedMove: string, theory: Option<OpeningResponse>
      ensures Analyzer(o)(fen, moveNumber, isWhiteMove, playedMove, theory).Success? ==>
        && Analyzer(o)(fen, moveNumber, isWhiteMove, playedMove, theory).value.moveNumber == moveNumber
        && Analyzer(o)(fen, moveNumber, isWhiteMove, playedMove, theory).value.isWhite == isWhiteMove
        && Analyzer(o)(fen, moveNumber, isWhiteMove, playedMove, theory).value.playedMove == playedMove
    {
      AnalyzeMoveKeepsIdentity(o, fen, moveNumber, isWhiteMove, playedMove, theory);
    }
  }

  /** A ply's reference record is of the side to move, numbered by full moves from 1, and
      carries the move played at that ply. */
  lemma PlyAnalysisShape(o: Oracles, analyze: MoveAnalyzer, moves: seq<string>, i: nat, a: Analysis)
    requires i < |moves| <= MaxInt32
    requires KeepsIdentity(analyze)
    requires PlyAnalysis(o, analyze, moves, i) == Success(a)
    ensures a.isWhite == (i % 2 == 0) && a.moveNumber == i / 2 + 1 && a.playedMove == moves[i]
  {
  }

  /** Whether every analysed ply from `i` below `n` has a record. */
  predicate PliesAnalysable(o: Oracles, analyze: MoveAnalyzer, moves: seq<string>, w: bool, i: nat, n: nat)
    requires n <= |moves| <= MaxInt32
  {
    forall k :: i <= k < n && IsTargetPly(k, w) ==> PlyAnalysis(o, analyze, moves, k).Success?
  }

  /** One step of the walk from a position that the replay of the earlier plies reaches. */
  lemma WalkStep(o: Oracles, analyze: MoveAnalyzer, moves: seq<string>, w: bool, n: nat, i: nat, b: Board, done: seq<Analysis>)
    requires i < n <= |moves| <= MaxInt32
    requires Replay(o.rules, StartBoard, moves[..i]) == (b, Pass)
    ensures var step := DoMove(o.rules, b, moves[i]);
      var ply := PlyAnalysis(o, analyze, moves, i);
      && (step.Success? ==> Replay(o.rules, StartBoard, moves[..i + 1]) == (step.value, Pass))
      && (step.Failure? ==> Replay(o.rules, StartBoard, moves[..n]).1.Fail?)
      && Walk(o, analyze, moves, w, n, i, b, done) ==
           if IsTargetPly(i, w) && ply.Failure? then Failure(ply.error)
           else if step.Failure? then Failure(step.error)
           else Walk(o, analyze, moves, w, n, i + 1, step.value, if IsTargetPly(i, w) then done + [ply.value] else done)
  {
    ReplayPrefixStep(o.rules, StartBoard, moves, i, b);
  }

  /** The walk from ply `i` succeeds exactly when every move up to the bound is legal and every
      analysed ply's record can be made. */
  lemma {:induction false} WalkSucceeds(o: Oracles, analyze: MoveAnalyzer, moves: seq<string>, w: bool, n: nat, i: nat, b: Board, done: seq<Analysis>)
    requires i <= n <= |moves| <= MaxInt32
    requires Replay(o.rules, StartBoard, moves[..i]) == (b, Pass)
    ensures Walk(o, analyze, moves, w, n, i, b, done).Success? <==>
      Replay(o.rules, StartBoard, moves[..n]).1.Pass? && PliesAnalysable(o, analyze, moves, w, i, n)
    decreases n - i
  {
    if i < n {
      WalkStep(o, analyze, moves, w, n, i, b, done);
      var step := DoMove(o.rules, b, moves[i]);
      var ply := PlyAnalysis(o, analyze, moves, i);
      if step.Success? && !(IsTargetPly(i, w) && ply.Failure?) {
        WalkSucceeds(o, analyze, moves, w, n, i + 1, step.value, if IsTargetPly(i, w) then done + [ply.value] else done);
      }
    }
  }

  /** A successful walk from ply `i` keeps the records made before it and adds one for each
      analysed ply from `i` on. */
  lemma {:induction false} WalkRecordCount(o: Oracles, analyze: MoveAnalyzer, moves: seq<string>, w: bool, n: nat, i: nat, b: Board, done: seq<Analysis>)
    requires i <= n <= |moves| <= MaxInt32
    requires Replay(o.rules, StartBoard, moves[..i]) == (b, Pass)
    requires |done| == TargetCount(i, w)
    ensures var r := Walk(o, analyze, moves, w, n, i, b, done);
      r.Success? ==> |r.value| == TargetCount(n, w) && r.value[..|done|] == done
    decreases n - i
  {
    if i < n {
      WalkStep(o, analyze, moves, w, n, i, b, done);
      var step := DoMove(o.rules, b, moves[i]);
      var ply := PlyAnalysis(o, analyze, moves, i);
      if step.Success? && !(IsTargetPly(i, w) && ply.Failure?) {
        var done' := if IsTargetPly(i, w) then done + [ply.value] else done;
        TargetCountStep(i, w);
        WalkRecordCount(o, analyze, moves, w, n, i + 1, step.value, done');
        var r := Walk(o, analyze, moves, w, n, i + 1, step.value, done');
        if r.Success? {
          assert r.value[..|done|] == r.value[..|done'|][..|done|];
        }
      }
    }
  }

  /** Each record a successful walk adds from ply `i` on is the reference record of an analysed
      ply below the bound: the `j`-th record overall is that of the `j`-th analysed ply. */
  lemma {:induction false} WalkRecordAt(o: Oracles, analyze: MoveAnalyzer, moves: seq<string>, w: bool, n: nat, i: nat,
                                        b: Board, done: seq<Analysis>, j: nat)
    requires i <= n <= |moves| <= MaxInt32
    requires Replay(o.rules, StartBoard, moves[..i]) == (b, Pass)
    requires |done| == TargetCount(i, w) <= j
    requires var r := Walk(o, analyze, moves, w, n, i, b, done); r.Success? && j < |r.value|
    ensures var r := Walk(o, analyze, moves, w, n, i, b, done);
      PlyOf(j, w) < n && PlyAnalysis(o, analyze, moves, PlyOf(j, w)) == Success(r.value[j])
    decreases n - i
  {
    WalkStep(o, analyze, moves, w, n, i, b, done);
    var step := DoMove(o.rules, b, moves[i]);
    var ply := PlyAnalysis(o, analyze, moves, i);
    var done' := if IsTargetPly(i, w) then done + [ply.value] else done;
    TargetCountStep(i, w);
    var r := Walk(o, analyze, moves, w, n, i + 1, step.value, done');
    if IsTargetPly(i, w) && j == |done| {
      WalkRecordCount(o, analyze, moves, w, n, i + 1, step.value, done');
      assert r.value[j] == r.value[..|done'|][j];
    } else {
      WalkRecordAt(o, analyze, moves, w, n, i + 1, step.value, done', j);
    }
  }

  /** analyzeGame examines exactly the plies below the bound, all of them whatever their
      classification: it succeeds exactly when all of them are legal and every record of the
      chosen colour can be made, and then yields one record per ply of that colour, in ply
      order, each made against the explorer's answer for the coordinate encoding of exactly
      the moves before it. */
  lemma AnalyzeGameMatchesPlies(o: Oracles, openingPhaseLimit: Int32, moves: seq<string>, playerColor: Option<string>)
    requires |moves| <= MaxInt32
    ensures var w := IsWhiteColor(playerColor);
      var n := PlyBound(|moves|, openingPhaseLimit);
      var r := AnalyzeGameSpec(o, openingPhaseLimit, moves, playerColor);
      && (r.Success? <==> Replay(o.rules, StartBoard, moves[..n]).1.Pass? && PliesAnalysable(o, Analyzer(o), moves, w, 0, n))
      && (r.Success? ==>
            && |r.value| == TargetCount(n, w)
            && forall j :: 0 <= j < |r.value| ==>
                 PlyOf(j, w) < n && PlyAnalysis(o, Analyzer(o), moves, PlyOf(j, w)) == Success(r.value[j]))
  {
    assert moves[..0] == [];
    WalkSucceeds(o, Analyzer(o), moves, IsWhiteColor(playerColor), PlyBound(|moves|, openingPhaseLimit), 0, StartBoard, []);
    WalkRecordCount(o, Analyzer(o), moves, IsWhiteColor(playerColor), PlyBound(|moves|, openingPhaseLimit), 0, StartBoard, []);
    var r := AnalyzeGameSpec(o, openingPhaseLimit, moves, playerColor);
    if r.Success? {
      forall j | 0 <= j < |r.value|
        ensures PlyOf(j, IsWhiteColor(playerColor)) < PlyBound(|moves|, openingPhaseLimit)
        ensures PlyAnalysis(o, Analyzer(o), moves, PlyOf(j, IsWhiteColor(playerColor))) == Success(r.value[j])
      {
        WalkRecordAt(o, Analyzer(o), moves, IsWhiteColor(playerColor), PlyBound(|moves|, openingPhaseLimit), 0, StartBoard, [], j);
      }
    }
  }

  /** Every record is of the chosen colour and carries the played move of its ply; the j-th
      record is move number j + 1, so there are at most `openingPhaseLimit` of them. */
  lemma AnalyzeGameRecordShape(o: Oracles, openingPhaseLimit: Int32, moves: seq<string>, playerColor: Option<string>)
    requires |moves| <= MaxInt32
    ensures var w := IsWhiteColor(playerColor);
      var r := AnalyzeGameSpec(o, openingPhaseLimit, moves, playerColor);
      r.Success? ==>
        && |r.value| <= (if openingPhaseLimit > 0 then openingPhaseLimit as int else 0)
        && forall j :: 0 <= j < |r.value| ==>
             && PlyOf(j, w) < |moves|
             && r.value[j].isWhite == w
             && r.value[j].moveNumber == j + 1
             && r.value[j].playedMove == moves[PlyOf(j, w)]
  {
    AnalyzeGameMatchesPlies(o, openingPhaseLimit, moves, playerColor);
    AnalyzerKeepsIdentity(o);
    var w := IsWhiteColor(playerColor);
    var r := AnalyzeGameSpec(o, openingPhaseLimit, moves, playerColor);
    if r.Success? {
      forall j | 0 <= j < |r.value|
        ensures r.value[j].isWhite == w && r.value[j].moveNumber == j + 1 && r.value[j].playedMove == moves[PlyOf(j, w)]
      {
        PlyAnalysisShape(o, Analyzer(o), moves, PlyOf(j, w), r.value[j]);
      }
    }
  }

  /** The service of the source: a fixed opening-phase limit and its collaborators. */
  class OpeningTrainerService {
    const oracles: Oracles
    const openingPhaseLimit: Int32

    /** The default service examines the first 15 full moves. */
    constructor Default(oracles: Oracles)
      ensures this.oracles == oracles && openingPhaseLimit == DefaultOpeningPhaseLimit
    {
      this.oracles := oracles;
      openingPhaseLimit := DefaultOpeningPhaseLimit;
    }

    constructor (oracles: Oracles, openingPhaseLimit: Int32)
      ensures this.oracles == oracles && this.openingPhaseLimit == openingPhaseLimit
    {
      this.oracles := oracles;
      this.openingPhaseLimit := openingPhaseLimit;
    }

    /** Walks the game, returning fresh records whose contents are the specified ones. */
    method AnalyzeGame(moves: seq<string>, playerColor: Option<string>) returns (res: Result<seq<MoveAnalysis>, Error>)
      requires |moves| <= MaxInt32
      ensures var spec := AnalyzeGameSpec(oracles, openingPhaseLimit, moves, playerColor);
        && (res.Success? <==> spec.Success?)
        && (res.Failure? ==> res.error == spec.error)
        && (res.Success? ==>
              && |res.value| == |spec.value|
              && forall j :: 0 <= j < |res.value| ==> fresh(res.value[j]) && res.value[j].View() == spec.value[j])
    {
      ghost var spec := AnalyzeGameSpec(oracles, openingPhaseLimit, moves, playerColor);
      var analyses: seq<MoveAnalysis> := [];
      ghost var views: seq<Analysis> := [];
      var tracker := new PositionTracker(oracles.rules);
      var analyzeWhite := IsWhiteColor(playerColor);
      var plies := PlyBound(|moves|, openingPhaseLimit);
      var i := 0;
      while i < plies
        invariant 0 <= i <= plies
        invariant fresh(tracker) && tracker.rules == oracles.rules
        invariant |analyses| == |views|
        invariant forall j :: 0 <= j < |analyses| ==> fresh(analyses[j]) && analyses[j].View() == views[j]
        invariant Walk(oracles, Analyzer(oracles), moves, analyzeWhite, plies, i, tracker.board, views) == spec
      {
        var analyzed := AnalyzePly(tracker, moves, analyzeWhite, i, plies, views);
        if analyzed.Failure? {
          return Failure(analyzed.error);
        }
        if analyzed.value.Some? {
          var analysis := analyzed.value.value;
          analyses := analyses + [analysis];
          views := views + [analysis.View()];
        }
        i := i + 1;
      }
      assert spec == Success(views);
      res := Success(analyses);
    }

    /** One pass of analyzeGame's loop: the explorer is asked about the position reached, the
        move is analysed there if it is the chosen colour's, and then it is made on the tracker. */
    method AnalyzePly(tracker: PositionTracker, moves: seq<string>, analyzeWhite: bool, i: nat,
                      ghost plies: nat, ghost done: seq<Analysis>) returns (res: Result<Option<MoveAnalysis>, Error>)
      requires i < plies <= |moves| <= MaxInt32
      requires tracker.rules == oracles.rules
      modifies tracker
      ensures var walk := Walk(oracles, Analyzer(oracles), moves, analyzeWhite, plies, i, old(tracker.board), done);
        match res
        case Failure(e) => walk == Failure(e)
        case Success(None) => walk == Walk(oracles, Analyzer(oracles), moves, analyzeWhite, plies, i + 1, tracker.board, done)
        case Success(Some(analysis)) =>
          fresh(analysis) && walk == Walk(oracles, Analyzer(oracles), moves, analyzeWhite, plies, i + 1, tracker.board, done + [analysis.View()])
    {
      var isWhiteMove := i % 2 == 0;
      var moveNumber := i / 2 + 1;
      var move := moves[i];
      // The explorer is asked about the position before the move.
      var currentUciMoves := tracker.GetAllMovesAsUci();
      var openingTheory := oracles.book(currentUciMoves);
      ghost var before := tracker.board;
      ghost var walk := Walk(oracles, Analyzer(oracles), moves, analyzeWhite, plies, i, before, done);
      ghost var step := DoMove(oracles.rules, before, move);
      var recorded: Option<MoveAnalysis> := None;
      if isWhiteMove == analyzeWhite {
        ghost var ply := AnalyzeMoveSpec(oracles, before.fen, moveNumber, isWhiteMove, move, openingTheory);
        assert walk == if ply.Failure? then Failure(ply.error)
          else if step.Failure? then Failure(step.error)
          else Walk(oracles, Analyzer(oracles), moves, analyzeWhite, plies, i + 1, step.value, done + [ply.value]);
        var analyzed := AnalyzeMoveInPosition(tracker, move, moveNumber, isWhiteMove, openingTheory);
        if analyzed.Failure? {
          return Failure(analyzed.error);
        }
        recorded := Some(analyzed.value);
      } else {
        assert walk == if step.Failure? then Failure(step.error)
          else Walk(oracles, Analyzer(oracles), moves, analyzeWhite, plies, i + 1, step.value, done);
      }
      var applied := tracker.ApplyMoveSan(move);
      if applied.Fail? {
        return Failure(applied.error);
      }
      res := Success(recorded);
    }

    /** Records one move against the explorer's answer for the position before it. */
    method AnalyzeMoveInPosition(tracker: PositionTracker, playedMove: string, moveNumber: Int32, isWhiteMove: bool,
                                 openingTheory: Option<OpeningResponse>) returns (res: Result<MoveAnalysis, Error>)
      requires tracker.rules == oracles.rules
      ensures tracker.board == old(tracker.board)
      ensures var spec := AnalyzeMoveSpec(oracles, tracker.board.fen, moveNumber, isWhiteMove, playedMove, openingTheory);
        && (res.Success? <==> spec.Success?)
        && (res.Failure? ==> res.error == spec.error)
        && (res.Success? ==> fresh(res.value) && res.value.View() == spec.value)
    {
      var analysis := new MoveAnalysis(moveNumber, isWhiteMove, playedMove);
      if openingTheory.Some? && openingTheory.value.moves.Some? {
        var candidates := openingTheory.value.moves.value;
        analysis.SetTopOpeningMoves(Some(candidates));
        var isOpeningMove :- AnyMatch(candidates, playedMove);
        analysis.SetOpeningMove(isOpeningMove);
        if !isOpeningMove && |candidates| > 0 {
          var topMove := candidates[0];
          analysis.SetRecommendedMove(topMove.san);
          var evaluated := EvaluateMoves(tracker, analysis, playedMove, topMove.san.value);
          if evaluated.Fail? {
            return Failure(evaluated.error);
          }
        }
      } else {
        analysis.SetOpeningMove(false);
        var engineBestMove := EngineBestMove(oracles, tracker.GetFen());
        if engineBestMove.Some? && engineBestMove.value != playedMove {
          analysis.SetRecommendedMove(engineBestMove);
          var evaluated := EvaluateMoves(tracker, analysis, playedMove, engineBestMove.value);
          if evaluated.Fail? {
            return Failure(evaluated.error);
          }
        }
      }
      res := Success(analysis);
    }

    /** Fills in the evaluations, and for a significant mistake the punishment, making every
        hypothetical move on a clone so that the walk's tracker is left as it was. */
    method EvaluateMoves(tracker: PositionTracker, analysis: MoveAnalysis, playedMove: string, recommendedMove: string)
      returns (res: Outcome<Error>)
      requires tracker.rules == oracles.rules
      modifies analysis
      ensures tracker.board == old(tracker.board)
      ensures var spec := EvaluateSpec(oracles, tracker.board.fen, old(analysis.View()), playedMove, recommendedMove);
        && (res.Pass? <==> spec.Success?)
        && (res.Fail? ==> res.error == spec.error)
        && (res.Pass? ==> analysis.View() == spec.value)
    {
      var afterPlayed := tracker.Clone();
      var applied := afterPlayed.ApplyMoveSan(playedMove);
      if applied.Fail? {
        return applied;
      }
      var playedEval := PositionEvaluation(oracles, afterPlayed.GetFen());
      analysis.SetPlayedMoveEval(playedEval);

      var afterRecommended := tracker.Clone();
      applied := afterRecommended.ApplyMoveSan(recommendedMove);
      if applied.Fail? {
        return applied;
      }
      var recommendedEval := PositionEvaluation(oracles, afterRecommended.GetFen());
      analysis.SetRecommendedMoveEval(recommendedEval);

      if analysis.IsSignificantMistake() {
        var punishment := EngineBestMove(oracles, afterPlayed.GetFen());
        analysis.SetPunishmentMove(punishment);
        if punishment.Some? {
          var afterPunishment := afterPlayed.Clone();
          applied := afterPunishment.ApplyMoveSan(punishment.value);
          if applied.Fail? {
            return applied;
          }
          var punishmentEval := PositionEvaluation(oracles, afterPunishment.GetFen());
          analysis.SetEvalAfterPunishment(punishmentEval);
        }
      }
      res := Pass;
    }
  }
}
