/**
 * The puzzle record builder: a CSV row of the Lichess puzzle database,
 * read positionally, becomes a six-field record (code, FEN, first move,
 * side-to-move label, rating, URL), in the order the fields are inserted.
 */
module PuzzleRecord {
  import opened Wrappers
  import opened PyStr

  /** The record, fields in insertion order. `sideToMove` is the label of the
      side that moves after the setup move: "White" or "Black". */
  datatype Record = Record(
    code: string,
    fen: string,
    firstMove: string,
    sideToMove: string,
    rating: string,
    url: string)

  /** The index accesses the builder makes, listed in the order Python
      evaluates them. */
  datatype Access =
    | CodeColumn        // row[0]
    | FenColumn         // row[1]
    | MovesColumn       // row[2]
    | FirstMoveToken    // row[2].split()[0]
    | SideToken         // row[1].split()[-5]
    | RatingColumn      // row[3]
    | UrlColumn         // row[8]

  /** Every failure is an IndexError raised by one of those accesses. */
  datatype BuildError = IndexError(at: Access)

  /** Position of an access in evaluation order. */
  function Step(a: Access): nat {
    match a
    case CodeColumn => 0
    case FenColumn => 1
    case MovesColumn => 2
    case FirstMoveToken => 3
    case SideToken => 4
    case RatingColumn => 5
    case UrlColumn => 6
  }

  /** Whether access `a` raises IndexError on `row`, assuming the value it
      indexes into could be computed. */
  predicate Fails(row: seq<string>, a: Access) {
    match a
    case CodeColumn => |row| <= 0
    case FenColumn => |row| <= 1
    case MovesColumn => |row| <= 2
    case FirstMoveToken => |row| > 2 && |Split(row[2])| == 0
    case SideToken => |row| > 1 && |Split(row[1])| < 5
    case RatingColumn => |row| <= 3
    case UrlColumn => |row| <= 8
  }

  /** The rows the builder accepts: nine columns or more, a move column with
      at least one token, and a FEN with at least five tokens. */
  predicate WellFormed(row: seq<string>) {
    |row| >= 9 && |Split(row[2])| >= 1 && |Split(row[1])| >= 5
  }

  /** The side-to-move label read from a FEN: the fifth whitespace token
      from the end is the side to move before the setup move, so "b" there
      means White moves next. */
  function SideLabel(fenTokens: seq<string>): (name: string)
    requires |fenTokens| >= 5
    ensures name == "White" || name == "Black"
    ensures name == "White" <==> fenTokens[|fenTokens| - 5] == "b"
  {
    if fenTokens[|fenTokens| - 5] == "b" then "White" else "Black"
  }

  /** `xs[i]` as Python evaluates it, with an IndexError tagged by the
      access that raised it. */
  function Index<T>(xs: seq<T>, i: int, at: Access): (r: Result<T, BuildError>)
    ensures r.Ok? <==> At(xs, i).Some?
    ensures r.Ok? ==> r.value == At(xs, i).value
    ensures r.Err? ==> r.error == IndexError(at)
  {
    match At(xs, i)
    case Some(v) => Ok(v)
    case None => Err(IndexError(at))
  }

  /** `create_puzzle_dictionary`: the record for `row`, or the IndexError of
      the first index access that fails. */
  function Build(row: seq<string>): (r: Result<Record, BuildError>)
    ensures r.Ok? <==> WellFormed(row)
    ensures r.Ok? ==> (r.value.code == row[0] && r.value.fen == row[1] &&
                       r.value.rating == row[3] && r.value.url == row[8])
    ensures r.Ok? ==> r.value.firstMove == Split(row[2])[0]
    ensures r.Ok? ==> r.value.sideToMove == SideLabel(Split(row[1]))
    ensures r.Err? ==> Fails(row, r.error.at)
    ensures r.Err? ==> forall a :: Step(a) < Step(r.error.at) ==> !Fails(row, a)
  {
    var code :- Index(row, 0, CodeColumn);
    var fen :- Index(row, 1, FenColumn);
    var moves :- Index(row, 2, MovesColumn);
    var firstMove :- Index(Split(moves), 0, FirstMoveToken);
    var side :- Index(Split(fen), -5, SideToken);
    var rating :- Index(row, 3, RatingColumn);
    var url :- Index(row, 8, UrlColumn);
    Ok(Record(code, fen, firstMove, if side == "b" then "White" else "Black", rating, url))
  }

  /** A row is accepted exactly when none of the builder's accesses fails. */
  lemma WellFormedIffNoFailure(row: seq<string>)
    ensures WellFormed(row) <==> forall a :: !Fails(row, a)
  {
    if !WellFormed(row) {
      if |row| <= 8 {
        assert Fails(row, UrlColumn);
      } else if |Split(row[2])| == 0 {
        assert Fails(row, FirstMoveToken);
      } else {
        assert Fails(row, SideToken);
      }
    }
  }

  /** The first move is a single token: non-empty, free of whitespace, and
      the first run of non-whitespace characters of the move column. */
  lemma FirstMoveIsFirstToken(row: seq<string>)
    requires Build(row).Ok?
    ensures IsWord(Build(row).value.firstMove)
    ensures var m, k := row[2], LeadingSpace(row[2]);
            var w := Build(row).value.firstMove;
            k + |w| <= |m| && m[k..k + |w|] == w && (k + |w| == |m| || IsSpace(m[k + |w|]))
  {
    FirstWord(row[2]);
  }

  /** The builder fails on a move column made only of whitespace, whatever
      the other columns hold. */
  lemma BlankMovesFail(row: seq<string>)
    requires |row| > 2 && AllSpace(row[2])
    ensures Build(row).Err?
  {
    SplitEmptyIff(row[2]);
  }

  /** Columns 4 to 7 and any column after 8 do not affect the record. */
  lemma UnusedColumnsIgnored(row: seq<string>, row': seq<string>)
    requires |row| >= 9 && |row'| >= 9
    requires row[..4] == row'[..4] && row[8] == row'[8]
    ensures Build(row) == Build(row')
  {
    assert row[1] == row'[1] && row[2] == row'[2];
  }

  /** For a standard six-field FEN (piece placement, active colour, castling,
      en passant, halfmove clock, fullmove number) the fifth token from the
      end is the active colour, so "White" is the label exactly when Black
      moves first in the FEN. */
  lemma SixFieldFenLabel(row: seq<string>, fields: seq<string>)
    requires |row| >= 9 && |Split(row[2])| >= 1
    requires |fields| == 6 && forall k :: 0 <= k < 6 ==> IsWord(fields[k])
    requires row[1] == Join(fields, " ")
    ensures Build(row).Ok?
    ensures Build(row).value.sideToMove == "White" <==> fields[1] == "b"
  {
    SplitJoin(fields, " ");
  }

  /** The starting position in FEN: six fields, White to move. */
  const StartFen := "rnbqkbnr/pppppppp/8/8/8/8/PPPPPPPP/RNBQKBNR w KQkq - 0 1"

  lemma StartFenTokens()
    ensures Split(StartFen) == ["rnbqkbnr/pppppppp/8/8/8/8/PPPPPPPP/RNBQKBNR", "w", "KQkq", "-", "0", "1"]
  {
    var fields := ["rnbqkbnr/pppppppp/8/8/8/8/PPPPPPPP/RNBQKBNR", "w", "KQkq", "-", "0", "1"];
    assert Join(fields, " ") == StartFen;
    SplitJoin(fields, " ");
  }

  lemma ExampleMovesTokens()
    ensures Split("e2e4 e7e5") == ["e2e4", "e7e5"]
  {
    var moves := ["e2e4", "e7e5"];
    assert Join(moves, " ") == "e2e4 e7e5";
    SplitJoin(moves, " ");
  }

  lemma RecordFromTokens(row: seq<string>)
    requires |row| >= 9
    requires Split(row[1]) == ["rnbqkbnr/pppppppp/8/8/8/8/PPPPPPPP/RNBQKBNR", "w", "KQkq", "-", "0", "1"]
    requires Split(row[2]) == ["e2e4", "e7e5"]
    ensures Build(row) == Ok(Record(row[0], row[1], "e2e4", "Black", row[3], row[8]))
  {
  }

  /** A nine-column row holding the starting position with White to move,
      moves "e2e4 e7e5" and rating 1200 gives first move "e2e4" and the
      label "Black". */
  lemma ExampleRow(row: seq<string>)
    requires |row| == 9 && row[0] == "ex01" && row[1] == StartFen && row[2] == "e2e4 e7e5"
    requires row[3] == "1200" && row[8] == "https://example.com/ex01"
    ensures Build(row) == Ok(Record("ex01", StartFen, "e2e4", "Black", "1200", "https://example.com/ex01"))
  {
    StartFenTokens();
    ExampleMovesTokens();
    RecordFromTokens(row);
  }
}
