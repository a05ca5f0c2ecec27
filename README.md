# Chess puzzle bot: puzzle record and post text

A Dafny model of the part of the chess-puzzle bot that computes something.
The bot posts a Lichess puzzle to Twitter. It picks a row of the Lichess
puzzle CSV and turns it into a puzzle record. From that record it builds:

- the base name of the image files;
- the squares of the setup move to highlight;
- the board orientation;
- the caption of the post.

Everything else is file I/O, library calls (python-chess, svglib/reportlab,
PyMuPDF) or Twitter network calls, and is not modelled.

Modules:

- `Wrappers` (`wrappers.dfy`): `Option` and a `Result` usable with `:-`.
- `PyStr` (`py_str.dfy`): Python built-ins. The builder uses two of
  them. `Split` is argument-less `str.split()`: it splits on runs of the
  characters `str.isspace` accepts and never yields an empty token. `At`
  is list indexing with negative indices, where `None` stands for
  IndexError. `Slice` is `s[i:j]` with Python's clamping of the bounds,
  used for the highlight squares. `Join` (`sep.join`) is not used by the
  bot; it only serves to state `SplitJoin` and the lemmas built on it.
- `PuzzleRecord` (`puzzle_record.dfy`): `create_puzzle_dictionary` as
  `Build`. A row is a `seq<string>`. The result is a `Record` with the six
  fields in the dictionary's insertion order, or `IndexError(at)`. The
  `at` field names the first index access that fails, in the order Python
  evaluates the dictionary literal.
- `TweetText` (`tweet_text.dfy`): the file base name `{code}_{rating}` and
  the caption f-string.
- `BoardView` (`board_view.dfy`): the highlight squares `move[0:2]` and
  `move[2:4]`, and `flipped = not board.turn`. python-chess's colours are
  booleans (`WHITE` is `true`).

The builder has two quirks that the model keeps as written:

- The side-to-move label reads the fifth whitespace token *from the end*
  of the FEN. It does not read field 2. `SixFieldFenLabel` proves that for
  a standard six-field FEN this token is the active-colour field (section
  16.1.3.2 of the PGN Standard). A FEN with five or more tokens but a
  different shape is still accepted, and some other token is read. For a
  five-field FEN (no fullmove number) that token is the piece placement,
  so the label is "Black" even when the active colour is "b". python-chess
  reads the turn from the active-colour field, so White is then to move and
  the board is not flipped: caption and picture disagree
  (`FiveFieldFenMismatch`).
- The label names the side that moves *after* the setup move. So "b" in
  the FEN gives "White".

The code computes `flipped = not board.turn`, and in python-chess `WHITE`
is `True`. So the board is flipped when Black is to move, and is drawn
from the perspective of the side to move. `Flipped` and
`OrientationMatchesLabel` state this.

## Model

| member | source | states |
|---|---|---|
| PyStr.Split | chess_puzzle_twitter_bot.py:57-58 | `str.split()`: every token is non-empty and free of whitespace, and the tokens together hold exactly the non-whitespace characters of the input, in order. That tokens are the maximal runs is stated by `SplitOfWord`, `SplitSkipsSpace` and `SplitEmptyIff` |
| PyStr.SplitOfWord | chess_puzzle_twitter_bot.py:57-58 | a word followed by nothing or by whitespace comes out as one whole token, followed by the split of the rest |
| PyStr.SplitSkipsSpace | chess_puzzle_twitter_bot.py:57-58 | leading whitespace does not change the split |
| PyStr.SplitEmptyIff | chess_puzzle_twitter_bot.py:57 | `split()` yields no token exactly when the string is all whitespace, which is when `[0]` raises |
| PyStr.FirstWord | chess_puzzle_twitter_bot.py:57 | the first token is the run of non-whitespace characters right after the leading whitespace, ending at whitespace or at the end of the string |
| PyStr.SplitJoin | chess_puzzle_twitter_bot.py:57-58 | splitting words joined by a whitespace separator gives the words back |
| PyStr.At | chess_puzzle_twitter_bot.py:55-60 | Python list indexing: defined exactly for `-len <= i < len`, and negative indices count from the end |
| PyStr.Slice | chess_puzzle_twitter_bot.py:81-82 | Python slicing with clamped bounds: the length of the piece, and each character is the one at the same offset in the source string |
| PuzzleRecord.SideLabel | chess_puzzle_twitter_bot.py:58 | the label is "White" or "Black", and it is "White" exactly when the fifth token from the end is "b" |
| PuzzleRecord.Build | chess_puzzle_twitter_bot.py:53-61 | success exactly for rows with at least 9 columns, a move column with a token and a FEN with at least 5 tokens. On success: code, FEN, rating and URL are columns 0, 1, 3 and 8; the first move is the first token of column 2; the label follows the fifth-from-last FEN token. On failure: the reported access does fail, and every access evaluated before it succeeds |
| PuzzleRecord.WellFormedIffNoFailure | chess_puzzle_twitter_bot.py:55-60 | a row is accepted exactly when none of the seven index accesses raises IndexError |
| PuzzleRecord.FirstMoveIsFirstToken | chess_puzzle_twitter_bot.py:57 | the first move is a whitespace-free token, and it is the first run of non-whitespace characters of column 2 |
| PuzzleRecord.BlankMovesFail | chess_puzzle_twitter_bot.py:57 | a move column made only of whitespace makes the builder fail, whatever the other columns hold |
| PuzzleRecord.UnusedColumnsIgnored | chess_puzzle_twitter_bot.py:55-60 | rows that agree on columns 0-3 and 8 give the same result, so columns 4-7 and any after 8 do not matter (determinism follows) |
| PuzzleRecord.SixFieldFenLabel | chess_puzzle_twitter_bot.py:58 | for a six-field FEN the label is "White" exactly when the active-colour field is "b" |
| PuzzleRecord.ExampleRow | chess_puzzle_twitter_bot.py:53-61 | a nine-column row holding the starting position with White to move and moves "e2e4 e7e5" gives first move "e2e4" and label "Black" |
| TweetText.FileName | chess_puzzle_twitter_bot.py:164 | the base name is the code, then "_", then the rating, at fixed positions |
| TweetText.CutAtFirst | chess_puzzle_twitter_bot.py:164 | inverse helper: cutting at the first occurrence of a character gives the text before it, which does not contain it, and the text after it. The result is `None` exactly when the character is absent |
| TweetText.FileNameRoundTrip | chess_puzzle_twitter_bot.py:164 | when the code has no "_", the base name cuts back into code and rating at its first "_" |
| TweetText.FileNameInjective | chess_puzzle_twitter_bot.py:164 | codes without "_" give distinct base names for distinct (code, rating) pairs |
| TweetText.Caption | chess_puzzle_twitter_bot.py:136-139 | the caption is, in order: a newline, the label, " to move. This puzzle is rated ", the rating, " on Lichess.org." with the thank-you line and "Puzzle Details: ", then the URL, each at its stated offset |
| TweetText.CaptionDetermined | chess_puzzle_twitter_bot.py:136-139 | for labels of equal length and ratings without spaces, the caption determines label, rating and URL |
| TweetText.CaptionOfRecord | chess_puzzle_twitter_bot.py:136-139 | the caption of a built record names "White" exactly when the FEN token is "b", names "White" or "Black", carries column 3 (the rating) after " to move. This puzzle is rated ", and ends with column 8 |
| BoardView.HighlightSquares | chess_puzzle_twitter_bot.py:81-82 | origin is the first two characters of the move (fewer if the move is shorter); origin and destination are characters 0-1 and 2-3 of the move, and together they are its first four characters. A move shorter than 4 characters leaves a destination shorter than a square name |
| BoardView.SquaresNeedFourChars | chess_puzzle_twitter_bot.py:81-82 | both pieces can be square names only when the move has at least 4 characters |
| BoardView.UciMoveSquares | chess_puzzle_twitter_bot.py:81-82 | a UCI move (two squares and an optional promotion letter) is cut back into its two squares |
| BoardView.Flipped | chess_puzzle_twitter_bot.py:84 | the board is flipped exactly when Black is to move |
| BoardView.TurnAfterSetup | chess_puzzle_twitter_bot.py:64-72 | after the setup move, White is to move exactly when the FEN's active colour is "b" |
| BoardView.FiveFieldFenMismatch | chess_puzzle_twitter_bot.py:58 | a five-field FEN with active colour "b" (and a piece placement other than "b") is accepted with label "Black", while the board after the setup move is not flipped |
| BoardView.OrientationMatchesLabel | chess_puzzle_twitter_bot.py:84 | for a six-field FEN, the board is flipped exactly when the record's label is "Black" |

## Left out

- `twitter_authorization`, the media upload and `update_status`: Twitter network calls, and credentials imported from a module that is not part of this model.
- `choose_puzzle`: reading the CSV file and `random.choice`. The builder takes the chosen row as input.
- `play_first_move`: FEN parsing, UCI parsing and `board.push` belong to python-chess and are not part of this model.
- BoardView.TurnAfterSetup: states abstractly what python-chess does. The active colour "w" is White, and pushing a move hands the turn to the other side. It does not model parsing or move legality.
- `chess.parse_square` and `chess.svg.board`: the colour constants, size and coordinates are rendering configuration. `IsSquareName` only states which two-character strings are square names.
- `svg_to_pdf`, `pdf_to_image` and the `os.replace` archive step: file writes, file removal and third-party format conversion.
- `main`: orchestration only. The tuple-unpacking of `dict.values()` depends on insertion order, which the field order of `Record` follows.
- PyStr.Split: characters are Unicode code points, as in Python `str`. The CSV reader's decoding of bytes into `str` is not modelled.
