/** The opening explorer's answer for one position, as the JSON parser delivers it:
    aggregate results and the ranked candidate continuations. */
module OpeningMoveModel {
  import opened Wrappers
  import opened JavaInt

  /** One candidate continuation. Its string fields are absent when the JSON lacks them;
      its counters are Java `int`s (zero when absent). */
  datatype OpeningMove = OpeningMove(
    uci: Option<string>,
    san: Option<string>,
    white: Int32,
    draws: Int32,
    black: Int32,
    averageRating: Int32)
  {
    /** Number of games that continued with this move: the three outcome counters added
        with Java's wrapping `int` addition, left to right. */
    function TotalGames(): (r: Int32)
      ensures (r - (white + draws + black)) % Modulus == 0
      ensures MinInt32 <= white + draws + black <= MaxInt32 ==> r == white + draws + black
    {
      WrapShift(Wrap32(white + draws) + black, white + draws + black);
      Wrap32(Wrap32(white + draws) + black)
    }
  }

  /** The explorer's answer; `moves` is absent when the JSON has no move list. */
  datatype OpeningResponse = OpeningResponse(
    white: Int32,
    draws: Int32,
    black: Int32,
    moves: Option<seq<OpeningMove>>)

  /** Setting the white-win counter moves the total by exactly the change of that counter
      (modulo 2^32, as Java's `int` does). */
  lemma SetWhiteShiftsTotal(m: OpeningMove, w: Int32)
    ensures m.(white := w).TotalGames() == Wrap32(m.TotalGames() + (w - m.white))
  {
    var m' := m.(white := w);
    MultipleDifference(m'.TotalGames() - (m'.white + m'.draws + m'.black), m.TotalGames() - (m.white + m.draws + m.black));
    WrapShift(m'.TotalGames(), m.TotalGames() + (w - m.white));
  }

  /** Setting the draw counter moves the total by exactly the change of that counter. */
  lemma SetDrawsShiftsTotal(m: OpeningMove, d: Int32)
    ensures m.(draws := d).TotalGames() == Wrap32(m.TotalGames() + (d - m.draws))
  {
    var m' := m.(draws := d);
    MultipleDifference(m'.TotalGames() - (m'.white + m'.draws + m'.black), m.TotalGames() - (m.white + m.draws + m.black));
    WrapShift(m'.TotalGames(), m.TotalGames() + (d - m.draws));
  }

  /** Setting the black-win counter moves the total by exactly the change of that counter. */
  lemma SetBlackShiftsTotal(m: OpeningMove, b: Int32)
    ensures m.(black := b).TotalGames() == Wrap32(m.TotalGames() + (b - m.black))
  {
    var m' := m.(black := b);
    MultipleDifference(m'.TotalGames() - (m'.white + m'.draws + m'.black), m.TotalGames() - (m.white + m.draws + m.black));
    WrapShift(m'.TotalGames(), m.TotalGames() + (b - m.black));
  }

  /** The move strings and the average rating do not enter the total. */
  lemma SetOtherFieldsKeepTotal(m: OpeningMove, uci: Option<string>, san: Option<string>, rating: Int32)
    ensures m.(uci := uci, san := san, averageRating := rating).TotalGames() == m.TotalGames()
  {
  }

  /** With counters large enough, the total wraps to a negative number, as Java's does. */
  lemma TotalGamesCanWrap()
    ensures OpeningMove(None, None, 0x4000_0000, 0x4000_0000, 0, 0).TotalGames() == MinInt32
  {
  }
}
