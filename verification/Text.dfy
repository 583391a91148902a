/** The string helpers the authorization server leans on: splitting on white
    space, joining with a separator and splitting on a separator character. */
module Text {

  /** White space as strings.Fields sees it (unicode.IsSpace). */
  predicate IsSpace(c: char) {
    || '\t' <= c <= '\r' || c == ' ' || c == '\U{85}' || c == '\U{A0}' || c == '\U{1680}'
    || '\U{2000}' <= c <= '\U{200A}' || c == '\U{2028}' || c == '\U{2029}' || c == '\U{202F}'
    || c == '\U{205F}' || c == '\U{3000}'
  }

  /** A word: not empty, no white space. */
  predicate IsWord(w: string) {
    w != "" && forall i :: 0 <= i < |w| ==> !IsSpace(w[i])
  }

  predicate AllWords(ws: seq<string>) {
    forall i :: 0 <= i < |ws| ==> IsWord(ws[i])
  }

  /** Length of the longest prefix of s without white space. */
  function WordEnd(s: string): (n: nat)
    ensures n <= |s|
    ensures forall i :: 0 <= i < n ==> !IsSpace(s[i])
    ensures n < |s| ==> IsSpace(s[n])
  {
    if s == "" || IsSpace(s[0]) then 0 else 1 + WordEnd(s[1..])
  }

  /** strings.Fields: the words of s, in order. */
  function Fields(s: string): (ws: seq<string>)
    ensures AllWords(ws)
    decreases |s|
  {
    if s == "" then []
    else if IsSpace(s[0]) then Fields(s[1..])
    else
      var n := WordEnd(s);
      [s[..n]] + Fields(s[n..])
  }

  /** strings.Join(ws, " "). */
  function JoinSpace(ws: seq<string>): string {
    if |ws| == 0 then "" else if |ws| == 1 then ws[0] else ws[0] + " " + JoinSpace(ws[1..])
  }

  lemma {:induction false} WordEndPrefix(w: string, rest: string)
    requires forall i :: 0 <= i < |w| ==> !IsSpace(w[i])
    requires rest == "" || IsSpace(rest[0])
    ensures WordEnd(w + rest) == |w|
  {
    if w == "" {
      assert w + rest == rest;
    } else {
      assert (w + rest)[1..] == w[1..] + rest;
      WordEndPrefix(w[1..], rest);
    }
  }

  /** Splitting undoes joining, for every list of words. */
  lemma {:induction false} FieldsOfJoin(ws: seq<string>)
    requires AllWords(ws)
    ensures Fields(JoinSpace(ws)) == ws
  {
    if |ws| == 1 {
      WordEndPrefix(ws[0], "");
      assert ws[0] + "" == ws[0];
      assert ws[0][|ws[0]|..] == "";
    } else if |ws| > 1 {
      var rest := " " + JoinSpace(ws[1..]);
      var s := ws[0] + rest;
      assert JoinSpace(ws) == s;
      WordEndPrefix(ws[0], rest);
      assert s[..|ws[0]|] == ws[0] && s[|ws[0]|..] == rest;
      assert rest[1..] == JoinSpace(ws[1..]);
      FieldsOfJoin(ws[1..]);
    }
  }

  /** Splitting at the first separator is unique. */
  lemma SplitOnce(sep: char, a: string, x: string, b: string, y: string)
    requires sep !in a && sep !in b && a + [sep] + x == b + [sep] + y
    ensures a == b && x == y
  {
    var s := a + [sep] + x;
    assert s[|a|] == sep && s[|b|] == sep;
    assert (forall i | 0 <= i < |a| :: s[i] == a[i]) && (forall i | 0 <= i < |b| :: s[i] == b[i]);
    assert s[..|a|] == a && s[..|b|] == b;
    assert s[|a| + 1..] == x && s[|b| + 1..] == y;
  }

  /** strings.Split(s, [sep]): the pieces between separators, empty ones included. */
  function Split(sep: char, s: string): (pieces: seq<string>)
    ensures pieces != []
    ensures forall i :: 0 <= i < |pieces| ==> sep !in pieces[i]
    decreases |s|
  {
    if s == "" then [""]
    else
      var rest := Split(sep, s[1..]);
      if s[0] == sep then [""] + rest else [[s[0]] + rest[0]] + rest[1..]
  }

  /** Pieces joined by the separator. */
  function Join(sep: char, pieces: seq<string>): string {
    if |pieces| == 0 then "" else if |pieces| == 1 then pieces[0] else pieces[0] + [sep] + Join(sep, pieces[1..])
  }

  lemma {:induction false} SplitPiece(sep: char, piece: string)
    requires sep !in piece
    ensures Split(sep, piece) == [piece]
  {
    if piece != "" {
      assert [piece[0]] + piece[1..] == piece;
      SplitPiece(sep, piece[1..]);
    }
  }

  lemma {:induction false} SplitPrefix(sep: char, piece: string, rest: string)
    requires sep !in piece
    ensures Split(sep, piece + [sep] + rest) == [piece] + Split(sep, rest)
  {
    var s := piece + [sep] + rest;
    if piece == "" {
      assert s[1..] == rest;
    } else {
      assert s[1..] == piece[1..] + [sep] + rest;
      assert [piece[0]] + piece[1..] == piece;
      SplitPrefix(sep, piece[1..], rest);
    }
  }

  /** Splitting undoes joining, for every list of pieces free of the separator. */
  lemma {:induction false} SplitOfJoin(sep: char, pieces: seq<string>)
    requires pieces != [] && forall i :: 0 <= i < |pieces| ==> sep !in pieces[i]
    ensures Split(sep, Join(sep, pieces)) == pieces
  {
    if |pieces| == 1 {
      SplitPiece(sep, pieces[0]);
    } else {
      SplitPrefix(sep, pieces[0], Join(sep, pieces[1..]));
      SplitOfJoin(sep, pieces[1..]);
    }
  }
}
