/** The position tracker: a chess board that remembers the moves applied to it and encodes
    them as the comma-separated coordinate (UCI) list that keys the opening explorer. */
module PositionTracking {
  import opened Wrappers
  import opened JavaInt
  import opened Errors

  /** The standard initial position. */
  const StartFen: string := "rnbqkbnr/pppppppp/8/8/8/8/PPPPPPPP/RNBQKBNR w KQkq - 0 1"

  /** The chess library, which this model does not reimplement. A position is identified by
      its FEN; for a FEN and a move in algebraic notation (SAN) it says whether the move is
      legal, the FEN after it, and the move's coordinate rendering. */
  datatype Rules = Rules(
    legal: (string, string) -> bool,
    play: (string, string) -> string,
    uci: (string, string) -> string)

  /** The library's board: the current position and its backup, the coordinate renderings of
      the moves made on it, oldest first. */
  datatype Board = Board(fen: string, backup: seq<string>)

  const StartBoard: Board := Board(StartFen, [])

  /** Making one move on a board: an illegal move is refused with an exception and leaves the
      board as it was. */
  function DoMove(rules: Rules, b: Board, san: string): (r: Result<Board, Error>)
    ensures r.Success? <==> rules.legal(b.fen, san)
    ensures r.Success? ==> r.value.fen == rules.play(b.fen, san) && r.value.backup == b.backup + [rules.uci(b.fen, san)]
    ensures r.Failure? ==> r.error == IllegalMove(b.fen, san)
  {
    if rules.legal(b.fen, san) then Success(Board(rules.play(b.fen, san), b.backup + [rules.uci(b.fen, san)]))
    else Failure(IllegalMove(b.fen, san))
  }

  /** Making several moves in order, stopping at the first illegal one: the board reached and
      whether every move was made. */
  function Replay(rules: Rules, b: Board, sans: seq<string>): (r: (Board, Outcome<Error>))
    ensures |b.backup| <= |r.0.backup| <= |b.backup| + |sans|
    ensures r.0.backup[..|b.backup|] == b.backup
    ensures r.1.Pass? <==> |r.0.backup| == |b.backup| + |sans|
    decreases |sans|
  {
    if |sans| == 0 then (b, Pass)
    else match DoMove(rules, b, sans[0])
      case Failure(e) => (b, Fail(e))
      case Success(next) => Replay(rules, next, sans[1..])
  }

  /** Replaying two lists is replaying the first, then, if every move of it was made, the
      second from where the first ended. */
  lemma {:induction false} ReplayAppend(rules: Rules, b: Board, xs: seq<string>, ys: seq<string>)
    ensures Replay(rules, b, xs + ys) ==
      (var (mid, outcome) := Replay(rules, b, xs); if outcome.Pass? then Replay(rules, mid, ys) else (mid, outcome))
    decreases |xs|
  {
    if |xs| > 0 {
      assert (xs + ys)[0] == xs[0];
      assert (xs + ys)[1..] == xs[1..] + ys;
      match DoMove(rules, b, xs[0])
      case Failure(e) =>
      case Success(next) => ReplayAppend(rules, next, xs[1..], ys);
    } else {
      assert xs + ys == ys;
    }
  }

  /** Replaying one more move of a list continues from where the replay of the shorter prefix
      ended: the move is made if it is legal, and otherwise every longer prefix stops there. */
  lemma ReplayPrefixStep(rules: Rules, start: Board, sans: seq<string>, i: nat, b: Board)
    requires i < |sans|
    requires Replay(rules, start, sans[..i]) == (b, Pass)
    ensures DoMove(rules, b, sans[i]).Success? ==>
      Replay(rules, start, sans[..i + 1]) == (DoMove(rules, b, sans[i]).value, Pass)
    ensures DoMove(rules, b, sans[i]).Failure? ==>
      forall n :: i < n <= |sans| ==> Replay(rules, start, sans[..n]).1.Fail?
  {
    forall n | i < n <= |sans|
      ensures Replay(rules, start, sans[..n]) ==
        Replay(rules, b, sans[i..n])
    {
      assert sans[..n] == sans[..i] + sans[i..n];
      ReplayAppend(rules, start, sans[..i], sans[i..n]);
    }
    assert sans[i..i + 1] == [sans[i]];
    if DoMove(rules, b, sans[i]).Success? {
      assert [sans[i]][1..] == [];
      assert Replay(rules, b, [sans[i]]) == Replay(rules, DoMove(rules, b, sans[i]).value, []);
    }
  }

  /** The separator between two encoded moves. */
  const Separator: char := ','

  /** A coordinate move rendering: never empty, never containing the separator. */
  predicate IsToken(s: string) {
    |s| > 0 && Separator !in s
  }

  /** The parts joined with the separator between each two: empty for no parts. */
  function Join(parts: seq<string>): string {
    if |parts| == 0 then ""
    else if |parts| == 1 then parts[0]
    else Join(parts[..|parts| - 1]) + [Separator] + parts[|parts| - 1]
  }

  /** Position of the last separator in `s`, or -1 when there is none. */
  function LastSeparator(s: string): (k: int)
    ensures -1 <= k < |s|
    ensures k >= 0 ==> s[k] == Separator
    ensures forall j :: k < j < |s| ==> s[j] != Separator
  {
    if |s| == 0 then -1
    else if s[|s| - 1] == Separator then |s| - 1
    else LastSeparator(s[..|s| - 1])
  }

  /** Cuts `s` at every separator: the inverse of `Join`. */
  function Split(s: string): (r: seq<string>)
    ensures |r| > 0
    ensures forall k :: 0 <= k < |r| ==> Separator !in r[k]
    decreases |s|
  {
    var k := LastSeparator(s);
    var tail := s[k + 1..];
    assert Separator !in tail by {
      assert forall j :: 0 <= j < |tail| ==> tail[j] == s[k + 1 + j];
    }
    if k < 0 then [tail] else Split(s[..k]) + [tail]
  }

  function CountSeparators(s: string): nat {
    if |s| == 0 then 0 else CountSeparators(s[..|s| - 1]) + (if s[|s| - 1] == Separator then 1 else 0)
  }

  lemma {:induction false} CountSeparatorsAppend(a: string, b: string)
    ensures CountSeparators(a + b) == CountSeparators(a) + CountSeparators(b)
  {
    if |b| > 0 {
      CountSeparatorsAppend(a, b[..|b| - 1]);
      assert (a + b)[..|a + b| - 1] == a + b[..|b| - 1];
    } else {
      assert a + b == a;
    }
  }

  lemma {:induction false} NoSeparatorCountsZero(s: string)
    requires Separator !in s
    ensures CountSeparators(s) == 0
  {
    if |s| > 0 {
      assert s == s[..|s| - 1] + [s[|s| - 1]];
      NoSeparatorCountsZero(s[..|s| - 1]);
    }
  }

  /** Joining tokens gives a string that neither starts nor ends with a separator and holds
      exactly one separator fewer than there are parts. */
  lemma {:induction false} JoinShape(parts: seq<string>)
    requires |parts| > 0 && forall k :: 0 <= k < |parts| ==> IsToken(parts[k])
    ensures var r := Join(parts);
      |r| > 0 && r[0] != Separator && r[|r| - 1] != Separator
      && CountSeparators(r) == |parts| - 1
  {
    var last := parts[|parts| - 1];
    assert IsToken(last);
    NoSeparatorCountsZero(last);
    if |parts| > 1 {
      var init := parts[..|parts| - 1];
      JoinShape(init);
      CountSeparatorsAppend(Join(init) + [Separator], last);
      CountSeparatorsAppend(Join(init), [Separator]);
      assert CountSeparators([Separator]) == 1 by {
        assert [Separator][..0] == [];
      }
      assert last[|last| - 1] in last;
    } else {
      assert last[0] in last;
    }
  }

  lemma {:induction false} LastSeparatorOfJoined(a: string, b: string)
    requires Separator !in b
    ensures LastSeparator(a + [Separator] + b) == |a|
    decreases |b|
  {
    var s := a + [Separator] + b;
    if |b| > 0 {
      assert b[|b| - 1] in b;
      assert s[..|s| - 1] == a + [Separator] + b[..|b| - 1];
      assert b == b[..|b| - 1] + [b[|b| - 1]];
      LastSeparatorOfJoined(a, b[..|b| - 1]);
    }
  }

  /** Splitting what `Join` built from tokens gives the tokens back. */
  lemma {:induction false} SplitJoin(parts: seq<string>)
    requires |parts| > 0 && forall k :: 0 <= k < |parts| ==> IsToken(parts[k])
    ensures Split(Join(parts)) == parts
  {
    if |parts| > 1 {
      var init, last := parts[..|parts| - 1], parts[|parts| - 1];
      assert IsToken(last);
      SplitJoin(init);
      var s := Join(parts);
      LastSeparatorOfJoined(Join(init), last);
      assert s[..|Join(init)|] == Join(init);
      assert s[|Join(init)| + 1..] == last;
      assert init + [last] == parts;
    }
  }

  /** Joining what `Split` cut gives the string back, for every string. */
  lemma {:induction false} JoinSplit(s: string)
    ensures Join(Split(s)) == s
    decreases |s|
  {
    var k := LastSeparator(s);
    if k >= 0 {
      JoinSplit(s[..k]);
      var parts := Split(s[..k]) + [s[k + 1..]];
      assert parts[..|parts| - 1] == Split(s[..k]);
      assert s == s[..k] + [Separator] + s[k + 1..];
    }
  }

  /** The encoding of the first k moves is a prefix of the encoding of all of them that ends
      where a separator, or the string, ends. */
  lemma {:induction false} JoinPrefix(parts: seq<string>, k: nat)
    requires k <= |parts|
    ensures Join(parts[..k]) <= Join(parts)
    ensures 0 < k < |parts| ==>
      |Join(parts[..k])| < |Join(parts)| && Join(parts)[|Join(parts[..k])|] == Separator
    decreases |parts|
  {
    if k < |parts| {
      var init := parts[..|parts| - 1];
      assert init[..k] == parts[..k];
      JoinPrefix(init, k);
      if k > 0 {
        assert Join(parts) == Join(init) + [Separator] + parts[|parts| - 1];
        if k < |init| {
          assert Join(parts)[|Join(parts[..k])|] == Join(init)[|Join(parts[..k])|];
        }
      }
    } else {
      assert parts[..k] == parts;
    }
  }

  /** Whether the library renders every legal move as a token, as coordinate notation
      ("e2e4", "e7e8q") does. */
  ghost predicate RendersTokens(rules: Rules) {
    forall fen: string, san: string :: rules.legal(fen, san) ==> IsToken(rules.uci(fen, san))
  }

  predicate AllTokens(parts: seq<string>) {
    forall k :: 0 <= k < |parts| ==> IsToken(parts[k])
  }

  /** Moves made by such a library only ever add tokens to a history of tokens. */
  lemma {:induction false} ReplayKeepsTokens(rules: Rules, b: Board, sans: seq<string>)
    requires RendersTokens(rules) && AllTokens(b.backup)
    ensures AllTokens(Replay(rules, b, sans).0.backup)
    decreases |sans|
  {
    if |sans| > 0 {
      match DoMove(rules, b, sans[0])
      case Failure(_) =>
      case Success(next) =>
        assert IsToken(rules.uci(b.fen, sans[0]));
        assert next.backup == b.backup + [rules.uci(b.fen, sans[0])];
        ReplayKeepsTokens(rules, next, sans[1..]);
    }
  }

  /** The explorer key of a game's position, the comma-joined history of the moves made from
      the initial position, decodes back to that history. */
  lemma HistoryKeyDecodes(rules: Rules, sans: seq<string>)
    requires RendersTokens(rules)
    ensures var history := Replay(rules, StartBoard, sans).0.backup;
      (|history| == 0 <==> Join(history) == "")
      && (|history| > 0 ==> Split(Join(history)) == history)
  {
    var history := Replay(rules, StartBoard, sans).0.backup;
    ReplayKeepsTokens(rules, StartBoard, sans);
    if |history| > 0 {
      SplitJoin(history);
      JoinShape(history);
    }
  }

  /** The tracker of the source: one board, changed in place by each move. */
  class PositionTracker {
    const rules: Rules
    var board: Board

    /** A tracker on the standard initial position, with no moves made. */
    constructor (rules: Rules)
      ensures this.rules == rules && board == StartBoard
    {
      this.rules := rules;
      board := StartBoard;
    }

    /** A tracker on the position `fen`, with no moves made. */
    constructor FromFen(rules: Rules, fen: string)
      ensures this.rules == rules && board == Board(fen, [])
    {
      this.rules := rules;
      board := Board(fen, []);
    }

    /** Makes one move; an illegal one throws and changes nothing. */
    method ApplyMoveSan(sanMove: string) returns (res: Outcome<Error>)
      modifies this
      ensures match DoMove(rules, old(board), sanMove)
        case Success(next) => res.Pass? && board == next
        case Failure(e) => res == Fail(e) && board == old(board)
    {
      match DoMove(rules, board, sanMove)
      case Success(next) =>
        board := next;
        res := Pass;
      case Failure(e) =>
        res := Fail(e);
    }

    /** Makes the moves one by one in order; the first illegal one throws, leaving the
        moves before it made. */
    method ApplyMovesSan(sanMoves: seq<string>) returns (res: Outcome<Error>)
      modifies this
      ensures (board, res) == Replay(rules, old(board), sanMoves)
    {
      var k := 0;
      while k < |sanMoves|
        invariant 0 <= k <= |sanMoves|
        invariant Replay(rules, old(board), sanMoves) == Replay(rules, board, sanMoves[k..])
      {
        assert sanMoves[k..][1..] == sanMoves[k + 1..];
        var r := ApplyMoveSan(sanMoves[k]);
        if r.Fail? {
          return r;
        }
        k := k + 1;
      }
      res := Pass;
    }

    /** The FEN of the board's current position. */
    function GetFen(): (fen: string)
      reads this
      ensures fen == board.fen
    {
      board.fen
    }

    /** The first `count` moves (not the last ones, despite the name) in coordinate notation,
        comma-separated; empty when `count` is not positive or no move was made. */
    method GetLastMovesAsUci(count: Int32) returns (uciMoves: string)
      ensures uciMoves == if count <= 0 then "" else Join(board.backup[..Min(count, |board.backup|)])
    {
      if count == 0 || |board.backup| == 0 {
        assert count > 0 ==> board.backup[..Min(count, |board.backup|)] == [];
        return "";
      }
      uciMoves := "";
      var movesAvailable := Min(count, |board.backup|);
      var i := 0;
      while i < movesAvailable
        invariant 0 <= i <= |board.backup|
        invariant if movesAvailable > 0 then i <= movesAvailable else i == 0
        invariant uciMoves == Join(board.backup[..i])
      {
        if i > 0 {
          uciMoves := uciMoves + [Separator];
        }
        uciMoves := uciMoves + board.backup[i];
        assert board.backup[..i + 1][..i] == board.backup[..i];
        i := i + 1;
      }
      if movesAvailable <= 0 {
        assert board.backup[..0] == [];
      }
    }

    /** Every move made, in coordinate notation, comma-separated, oldest first. */
    method GetAllMovesAsUci() returns (uciMoves: string)
      ensures uciMoves == Join(board.backup)
    {
      if |board.backup| == 0 {
        return "";
      }
      uciMoves := "";
      var i := 0;
      while i < |board.backup|
        invariant 0 <= i <= |board.backup|
        invariant uciMoves == Join(board.backup[..i])
      {
        if i > 0 {
          uciMoves := uciMoves + [Separator];
        }
        uciMoves := uciMoves + board.backup[i];
        assert board.backup[..i + 1][..i] == board.backup[..i];
        i := i + 1;
      }
      assert board.backup[..i] == board.backup;
    }

    /** A new tracker on a new board loaded from this one's FEN: the same position, no
        moves remembered, and nothing shared with this tracker. */
    method Clone() returns (clone: PositionTracker)
      ensures fresh(clone)
      ensures clone.rules == rules && clone.board == Board(board.fen, [])
    {
      clone := new PositionTracker.FromFen(rules, GetFen());
    }

    /** Back to the standard initial position with no moves remembered. */
    method Reset()
      modifies this
      ensures board == StartBoard
    {
      board := Board(StartFen, []);
    }
  }

  /** Moves made on a clone never reach the tracker it was cloned from. */
  method ExploreOnClone(tracker: PositionTracker, sanMoves: seq<string>) returns (branch: PositionTracker)
    ensures fresh(branch)
    ensures tracker.board == old(tracker.board)
    ensures branch.board == Replay(tracker.rules, Board(tracker.board.fen, []), sanMoves).0
  {
    branch := tracker.Clone();
    var _ := branch.ApplyMovesSan(sanMoves);
  }
}
