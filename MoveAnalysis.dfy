/** The per-move record that the opening walk produces: the object with its setters,
    and its value `Analysis`, on which the derived quantities are defined. */
module MoveAnalysisModel {
  import opened Wrappers
  import opened JavaInt
  import opened OpeningMoveModel

  /** The loss at or above which a move counts as a significant mistake (half a pawn). */
  const SignificanceThreshold: real := 0.5

  /** The contents of a `MoveAnalysis` object; `None` is a field left at `null`. */
  datatype Analysis = Analysis(
    moveNumber: Int32,
    isWhite: bool,
    playedMove: string,
    isOpeningMove: bool,
    topOpeningMoves: Option<seq<OpeningMove>>,
    recommendedMove: Option<string>,
    playedMoveEval: Option<real>,
    recommendedMoveEval: Option<real>,
    punishmentMove: Option<string>,
    evalAfterPunishment: Option<real>)
  {
    /** How much worse the played move is than the recommended one, from the mover's side:
        evaluations favour White, so a White mover loses what the played move's evaluation
        falls short of the recommendation, and a Black mover what it exceeds it by.
        Absent as soon as either evaluation is. */
    function EvalLoss(): (r: Option<real>)
      ensures r.Some? <==> playedMoveEval.Some? && recommendedMoveEval.Some?
      ensures r.Some? && isWhite ==> playedMoveEval.value + r.value == recommendedMoveEval.value
      ensures r.Some? && !isWhite ==> recommendedMoveEval.value + r.value == playedMoveEval.value
    {
      if playedMoveEval.None? || recommendedMoveEval.None? then None
      else if isWhite then Some(recommendedMoveEval.value - playedMoveEval.value)
      else Some(playedMoveEval.value - recommendedMoveEval.value)
    }

    /** A significant mistake loses at least half a pawn; never so when an evaluation is missing.
        For White the played move's evaluation is at least half a pawn below the recommended
        one's, for Black at least half a pawn above it. */
    predicate IsSignificantMistake()
      ensures IsSignificantMistake() ==> playedMoveEval.Some? && recommendedMoveEval.Some?
      ensures playedMoveEval.Some? && recommendedMoveEval.Some? ==>
        (IsSignificantMistake() <==>
           if isWhite then playedMoveEval.value + SignificanceThreshold <= recommendedMoveEval.value
           else recommendedMoveEval.value + SignificanceThreshold <= playedMoveEval.value)
    {
      var loss := EvalLoss();
      loss.Some? && loss.value >= SignificanceThreshold
    }

    /** "White" exactly for White's moves, "Black" otherwise. */
    function PlayerName(): (r: string)
      ensures r == "White" <==> isWhite
      ensures r == "White" || r == "Black"
    {
      if isWhite then "White" else "Black"
    }

    /** The move number in decimal, then "." for White or "..." for Black. */
    function FormattedMoveNumber(): (r: string)
      ensures |r| >= 2 && r[|r| - 1] == '.'
      ensures isWhite <==> r[|r| - 2] != '.'
      ensures !isWhite ==> |r| >= 4 && r[|r| - 3..] == "..."
    {
      DecimalString(moveNumber) + (if isWhite then "." else "...")
    }
  }

  /** A fresh record: the constructor's three values, every other field unset. */
  function Unset(moveNumber: Int32, isWhite: bool, playedMove: string): Analysis {
    Analysis(moveNumber, isWhite, playedMove, false, None, None, None, None, None, None)
  }

  /** A record whose two evaluations are equal has lost nothing, whichever side moved. */
  lemma EqualEvaluationsLoseNothing(a: Analysis)
    requires a.playedMoveEval.Some? && a.playedMoveEval == a.recommendedMoveEval
    ensures a.EvalLoss() == Some(0.0)
    ensures !a.IsSignificantMistake()
  {
  }

  /** On the same two evaluations, Black's loss is the negation of White's. */
  lemma EvalLossColourSymmetry(a: Analysis)
    ensures a.(isWhite := false).EvalLoss().Some? <==> a.(isWhite := true).EvalLoss().Some?
    ensures a.(isWhite := false).EvalLoss().Some? ==>
      a.(isWhite := false).EvalLoss().value == -a.(isWhite := true).EvalLoss().value
  {
  }

  /** The formatted move number ends in "." or "...", and what precedes it reads back as the
      move number. */
  lemma FormattedMoveNumberReadsBack(a: Analysis)
    ensures var r := a.FormattedMoveNumber();
      var suffix := if a.isWhite then "." else "...";
      |r| > |suffix|
      && r[|r| - |suffix|..] == suffix
      && IsDecimal(r[..|r| - |suffix|])
      && ParseDecimal(r[..|r| - |suffix|]) == a.moveNumber
  {
    var r := a.FormattedMoveNumber();
    var suffix := if a.isWhite then "." else "...";
    DecimalRoundTrip(a.moveNumber);
    assert r[..|r| - |suffix|] == DecimalString(a.moveNumber);
  }

  /** The mutable record of the source: each setter replaces one field. */
  class MoveAnalysis {
    var moveNumber: Int32
    var isWhite: bool
    var playedMove: string
    var isOpeningMove: bool
    var topOpeningMoves: Option<seq<OpeningMove>>
    var recommendedMove: Option<string>
    var playedMoveEval: Option<real>
    var recommendedMoveEval: Option<real>
    var punishmentMove: Option<string>
    var evalAfterPunishment: Option<real>

    function View(): Analysis
      reads this
    {
      Analysis(moveNumber, isWhite, playedMove, isOpeningMove, topOpeningMoves, recommendedMove,
               playedMoveEval, recommendedMoveEval, punishmentMove, evalAfterPunishment)
    }

    constructor (moveNumber: Int32, isWhite: bool, playedMove: string)
      ensures View() == Unset(moveNumber, isWhite, playedMove)
    {
      this.moveNumber := moveNumber;
      this.isWhite := isWhite;
      this.playedMove := playedMove;
      isOpeningMove := false;
      topOpeningMoves := None;
      recommendedMove := None;
      playedMoveEval := None;
      recommendedMoveEval := None;
      punishmentMove := None;
      evalAfterPunishment := None;
    }

    method SetMoveNumber(moveNumber: Int32)
      modifies this
      ensures View() == old(View()).(moveNumber := moveNumber)
    {
      this.moveNumber := moveNumber;
    }

    method SetWhite(white: bool)
      modifies this
      ensures View() == old(View()).(isWhite := white)
    {
      isWhite := white;
    }

    method SetPlayedMove(playedMove: string)
      modifies this
      ensures View() == old(View()).(playedMove := playedMove)
    {
      this.playedMove := playedMove;
    }

    method SetOpeningMove(openingMove: bool)
      modifies this
      ensures View() == old(View()).(isOpeningMove := openingMove)
    {
      isOpeningMove := openingMove;
    }

    method SetTopOpeningMoves(topOpeningMoves: Option<seq<OpeningMove>>)
      modifies this
      ensures View() == old(View()).(topOpeningMoves := topOpeningMoves)
    {
      this.topOpeningMoves := topOpeningMoves;
    }

    method SetRecommendedMove(recommendedMove: Option<string>)
      modifies this
      ensures View() == old(View()).(recommendedMove := recommendedMove)
    {
      this.recommendedMove := recommendedMove;
    }

    method SetPlayedMoveEval(playedMoveEval: Option<real>)
      modifies this
      ensures View() == old(View()).(playedMoveEval := playedMoveEval)
    {
      this.playedMoveEval := playedMoveEval;
    }

    method SetRecommendedMoveEval(recommendedMoveEval: Option<real>)
      modifies this
      ensures View() == old(View()).(recommendedMoveEval := recommendedMoveEval)
    {
      this.recommendedMoveEval := recommendedMoveEval;
    }

    method SetPunishmentMove(punishmentMove: Option<string>)
      modifies this
      ensures View() == old(View()).(punishmentMove := punishmentMove)
    {
      this.punishmentMove := punishmentMove;
    }

    method SetEvalAfterPunishment(evalAfterPunishment: Option<real>)
      modifies this
      ensures View() == old(View()).(evalAfterPunishment := evalAfterPunishment)
    {
      this.evalAfterPunishment := evalAfterPunishment;
    }

    function GetEvalLoss(): Option<real>
      reads this
    {
      View().EvalLoss()
    }

    predicate IsSignificantMistake()
      reads this
    {
      View().IsSignificantMistake()
    }

    function GetPlayerName(): string
      reads this
    {
      View().PlayerName()
    }

    function GetFormattedMoveNumber(): string
      reads this
    {
      View().FormattedMoveNumber()
    }
  }
}
