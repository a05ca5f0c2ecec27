/**
 * The two strings built from a puzzle record for publishing: the base name
 * of the rendered image files, `{code}_{rating}`, and the caption of the
 * post.
 */
module TweetText {
  import opened Wrappers
  import opened PuzzleRecord
  import opened PyStr

  /** Base name shared by the .svg, .pdf and .png files of one puzzle. */
  function FileName(code: string, rating: string): (name: string)
    ensures |name| == |code| + 1 + |rating|
    ensures name[..|code|] == code && name[|code|] == '_' && name[|code| + 1..] == rating
  {
    code + "_" + rating
  }

  /** Splits `s` at the first occurrence of `c` (what Python's
      `s.partition(c)` does when `c` occurs); `None` when `c` does not occur. */
  function CutAtFirst(s: string, c: char): (r: Option<(string, string)>)
    ensures r.None? <==> c !in s
    ensures r.Some? ==> s == r.value.0 + [c] + r.value.1 && c !in r.value.0
  {
    if |s| == 0 then None
    else if s[0] == c then
      assert s == [] + [c] + s[1..];
      Some(([], s[1..]))
    else
      match CutAtFirst(s[1..], c)
      case None => None
      case Some((before, after)) =>
        assert s == [s[0]] + s[1..];
        Some(([s[0]] + before, after))
  }

  /** When the puzzle code has no underscore, the base name splits back into
      code and rating at its first underscore. */
  lemma FileNameRoundTrip(code: string, rating: string)
    requires '_' !in code
    ensures CutAtFirst(FileName(code, rating), '_') == Some((code, rating))
  {
    var name := FileName(code, rating);
    var r := CutAtFirst(name, '_');
    assert '_' in name by { assert name[|code|] == '_'; }
    var before, after := r.value.0, r.value.1;
    assert |before| == |code| by {
      assert forall i :: 0 <= i < |code| ==> name[i] == code[i] && code[i] != '_';
      assert forall i :: 0 <= i < |before| ==> name[i] == before[i] && before[i] != '_';
      assert name[|before|] == '_';
    }
    assert before == name[..|code|];
    assert after == name[|code| + 1..];
  }

  /** Distinct puzzles without underscores in their codes get distinct file
      names. */
  lemma FileNameInjective(code: string, rating: string, code': string, rating': string)
    requires '_' !in code && '_' !in code'
    requires FileName(code, rating) == FileName(code', rating')
    ensures code == code' && rating == rating'
  {
    FileNameRoundTrip(code, rating);
    FileNameRoundTrip(code', rating');
  }

  const CaptionMiddle := " to move. This puzzle is rated "
  const CaptionTail := " " + "on Lichess.org.\nThank you to Lichess for providing the puzzle database.\nPuzzle Details: "

  /** The text of the post, for side-to-move label `side`. */
  function Caption(side: string, rating: string, url: string): (text: string)
    ensures |text| == 1 + |side| + |CaptionMiddle| + |rating| + |CaptionTail| + |url|
    ensures text[0] == '\n' && text[1..1 + |side|] == side
    ensures text[1 + |side|..1 + |side| + |CaptionMiddle|] == CaptionMiddle
    ensures text[1 + |side| + |CaptionMiddle|..1 + |side| + |CaptionMiddle| + |rating|] == rating
    ensures text[|text| - |url| - |CaptionTail|..|text| - |url|] == CaptionTail
    ensures text[|text| - |url|..] == url
  {
    ("\n" + side + CaptionMiddle) + (rating + CaptionTail + url)
  }

  /** Two words free of spaces, each followed by the same text that starts
      with a space, can only line up if the words are equal. */
  lemma {:induction false} SpaceDelimited(r: string, u: string, r': string, u': string, m: string)
    requires ' ' !in r && ' ' !in r'
    requires |m| > 0 && m[0] == ' '
    requires r + m + u == r' + m + u'
    ensures r == r' && u == u'
  {
    var t := r + m + u;
    assert |r| == |r'| by {
      assert forall i :: 0 <= i < |r| ==> t[i] == r[i] && r[i] != ' ';
      assert forall i :: 0 <= i < |r'| ==> t[i] == r'[i] && r'[i] != ' ';
      assert t[|r|] == ' ' && t[|r'|] == ' ';
    }
    assert r == t[..|r|] == r';
    assert m + u == t[|r|..] == m + u';
    assert u == (m + u)[|m|..] == (m + u')[|m|..] == u';
  }

  /** A caption determines its label, rating and URL, for labels of one
      length (such as "White" and "Black") and ratings without spaces. */
  lemma CaptionDetermined(side: string, rating: string, url: string,
                          side': string, rating': string, url': string)
    requires |side| == |side'| && ' ' !in rating && ' ' !in rating'
    requires Caption(side, rating, url) == Caption(side', rating', url')
    ensures side == side' && rating == rating' && url == url'
  {
    var t := Caption(side, rating, url);
    var o := 1 + |side| + |CaptionMiddle|;
    assert t[o..] == rating + CaptionTail + url;
    assert t[o..] == rating' + CaptionTail + url';
    assert CaptionTail[0] == ' ';
    SpaceDelimited(rating, url, rating', url', CaptionTail);
  }

  /** The caption posted for a built record names the side to move first,
      "White" exactly when the FEN token read by the builder is "b", carries
      the rating, column 3 of the row, after " to move. This puzzle is
      rated ", and ends with the puzzle's URL, column 8 of the row. */
  lemma CaptionOfRecord(row: seq<string>)
    requires Build(row).Ok?
    ensures var rec := Build(row).value;
            var text := Caption(rec.sideToMove, rec.rating, rec.url);
            (text[1..6] == "White" <==> Split(row[1])[|Split(row[1])| - 5] == "b") &&
            (text[1..6] == "White" || text[1..6] == "Black") &&
            text[6 + |CaptionMiddle|..6 + |CaptionMiddle| + |row[3]|] == row[3] &&
            text[|text| - |row[8]|..] == row[8]
  {
  }
}
