/** The engine's answer for one position, as the JSON parser delivers it. */
module EngineResponseModel {
  import opened Wrappers
  import opened JavaInt

  /** Every field is absent when the JSON lacks it. `san` is the best move in algebraic
      notation, `from`/`to` its squares, `eval` the evaluation in pawns (positive favours
      White). */
  datatype EngineResponse = EngineResponse(
    text: Option<string>,
    from: Option<string>,
    to: Option<string>,
    san: Option<string>,
    eval: Option<real>,
    depth: Option<Int32>,
    pv: Option<seq<string>>)
  {
    /** The best move in coordinate notation: origin square followed by target square,
        and absent unless both squares are present. */
    function BestMoveUci(): (r: Option<string>)
      ensures r.Some? <==> from.Some? && to.Some?
      ensures r.Some? ==> |r.value| == |from.value| + |to.value|
      ensures r.Some? ==> r.value[..|from.value|] == from.value && r.value[|from.value|..] == to.value
    {
      if from.Some? && to.Some? then Some(from.value + to.value) else None
    }

    /** The evaluation, read as 0.0 when the engine sent none; so it is always defined. */
    function Evaluation(): (r: real)
      ensures eval.Some? ==> r == eval.value
      ensures eval.None? ==> r == 0.0
    {
      if eval.Some? then eval.value else 0.0
    }
  }
}
