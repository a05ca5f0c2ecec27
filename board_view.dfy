/**
 * The two inputs of the board drawing that the bot computes itself: the
 * squares of the setup move to highlight, cut out of its UCI text, and
 * the orientation flag.
 */
module BoardView {
  import opened PyStr
  import opened PuzzleRecord

  /** python-chess represents colours as booleans. */
  const WHITE: bool := true
  const BLACK: bool := false

  /** An algebraic square name: a file from a to h, then a rank from 1 to 8. */
  predicate IsSquareName(s: string) {
    |s| == 2 && 'a' <= s[0] <= 'h' && '1' <= s[1] <= '8'
  }

  /** `move[0:2]` and `move[2:4]`: origin and destination text of the setup
      move. Python clamps slice bounds, so a short move gives short pieces
      rather than an error. */
  function HighlightSquares(move: string): (squares: (string, string))
    ensures squares.0 == move[..if |move| < 2 then |move| else 2]
    ensures |move| >= 4 ==> squares.0 + squares.1 == move[..4] && |squares.0| == 2 && |squares.1| == 2
    ensures |move| < 4 ==> |squares.1| < 2
    ensures squares.0 + squares.1 == move[..if |move| < 4 then |move| else 4]
  {
    var from, to := Slice(move, 0, 2), Slice(move, 2, 4);
    assert from + to == move[..if |move| < 4 then |move| else 4];
    (from, to)
  }

  /** Both squares can only be square names when the move has at least four
      characters. */
  lemma SquaresNeedFourChars(move: string)
    requires IsSquareName(HighlightSquares(move).0) && IsSquareName(HighlightSquares(move).1)
    ensures |move| >= 4
  {
  }

  /** A UCI move, origin square then destination square then an optional
      promotion piece, is cut back into its two squares. */
  lemma UciMoveSquares(from: string, to: string, promotion: string)
    requires IsSquareName(from) && IsSquareName(to) && |promotion| <= 1
    ensures HighlightSquares(from + to + promotion) == (from, to)
  {
    var move := from + to + promotion;
    var squares := HighlightSquares(move);
    assert move[..4] == from + to;
    assert squares.0 == (squares.0 + squares.1)[..2];
    assert squares.1 == (squares.0 + squares.1)[2..];
  }

  /** `flipped = not board.turn`: the board is drawn from Black's side when
      Black is to move. */
  function Flipped(turn: bool): (flipped: bool)
    ensures flipped <==> turn == BLACK
    ensures !flipped <==> turn == WHITE
  {
    !turn
  }

  /** The colour to move once the setup move has been played on a position
      whose active-colour field is `activeColour` ("w" or "b"): the move
      hands the turn to the other side. */
  function TurnAfterSetup(activeColour: string): (turn: bool)
    requires activeColour == "w" || activeColour == "b"
    ensures turn == WHITE <==> activeColour == "b"
  {
    !(activeColour == "w")
  }

  /** For a six-field FEN, the board is flipped exactly when the caption's
      label is "Black": the picture and the text agree on who moves. */
  lemma OrientationMatchesLabel(row: seq<string>, fields: seq<string>)
    requires |row| >= 9 && |Split(row[2])| >= 1
    requires |fields| == 6 && forall k :: 0 <= k < 6 ==> IsWord(fields[k])
    requires fields[1] == "w" || fields[1] == "b"
    requires row[1] == Join(fields, " ")
    ensures Build(row).Ok?
    ensures Flipped(TurnAfterSetup(fields[1])) <==> Build(row).value.sideToMove == "Black"
  {
    SixFieldFenLabel(row, fields);
  }

  /** A five-field FEN (no fullmove number) is still accepted, but the fifth
      token from the end is then the piece placement, not the active colour.
      With active colour "b" the label is "Black", while after the setup move
      White is to move and the board is not flipped: caption and picture
      disagree. */
  lemma FiveFieldFenMismatch(row: seq<string>, fields: seq<string>)
    requires |row| >= 9 && |Split(row[2])| >= 1
    requires |fields| == 5 && forall k :: 0 <= k < 5 ==> IsWord(fields[k])
    requires fields[0] != "b" && fields[1] == "b"
    requires row[1] == Join(fields, " ")
    ensures Build(row).Ok?
    ensures Build(row).value.sideToMove == "Black"
    ensures !Flipped(TurnAfterSetup(fields[1]))
  {
    SplitJoin(fields, " ");
  }
}
