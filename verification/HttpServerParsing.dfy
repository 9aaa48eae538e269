/** The two parsing functions of the HTTP server stage. */
module HttpServerParsing {
  import opened Text

  // ---------------------------------------------------------------------------------------------
  // Query strings
  // ---------------------------------------------------------------------------------------------

  type Pair = (string, string)

  /** A piece is split at its first '='. A piece without one is its own key, and its value is the
      piece without its last character. */
  function PairOf(piece: string): Pair {
    var i := Find(piece, '=');
    if i != NPOS then (piece[..i], piece[i + 1..])
    else (piece, if piece == "" then "" else piece[..|piece| - 1])
  }

  /** The pieces between '&', without one trailing empty piece. */
  function Pieces(query: string): seq<string> {
    var ps := SplitOn(query, '&');
    if ps[|ps| - 1] == "" then ps[..|ps| - 1] else ps
  }

  function Pairs(pieces: seq<string>): (ps: seq<Pair>)
    ensures |ps| == |pieces| && forall i :: 0 <= i < |ps| ==> ps[i] == PairOf(pieces[i])
  {
    seq(|pieces|, i requires 0 <= i < |pieces| => PairOf(pieces[i]))
  }

  /** The later of two pairs with the same key wins. */
  function Fold(data: map<string, string>, ps: seq<Pair>): map<string, string>
    decreases |ps|
  {
    if ps == [] then data else Fold(data[ps[0].0 := ps[0].1], ps[1..])
  }

  lemma {:induction false} FoldIsLastWins(data: map<string, string>, ps: seq<Pair>, k: string)
    ensures k in Fold(data, ps) <==> k in data || exists i :: 0 <= i < |ps| && ps[i].0 == k
    ensures forall i :: 0 <= i < |ps| && ps[i].0 == k && (forall j :: i < j < |ps| ==> ps[j].0 != k) ==>
              k in Fold(data, ps) && Fold(data, ps)[k] == ps[i].1
    ensures k in data && (forall i :: 0 <= i < |ps| ==> ps[i].0 != k) ==>
              k in Fold(data, ps) && Fold(data, ps)[k] == data[k]
    decreases |ps|
  {
    if ps != [] {
      var rest := ps[1..];
      FoldIsLastWins(data[ps[0].0 := ps[0].1], rest, k);
      assert forall i :: 1 <= i < |ps| ==> ps[i] == rest[i - 1];
      assert forall i :: 0 <= i < |rest| ==> rest[i] == ps[i + 1];
    }
  }

  function FirstPiece(query: string): string {
    var i := Find(query, '&');
    if i != NPOS then query[..i] else query
  }

  function OtherPieces(query: string): string {
    var i := Find(query, '&');
    if i != NPOS then query[i + 1..] else ""
  }

  lemma PiecesStep(query: string)
    requires query != ""
    ensures Pieces(query) == [FirstPiece(query)] + Pieces(OtherPieces(query))
  {
    var i := Find(query, '&');
    if i != NPOS {
      OnePiece(query[..i], SplitOn(query[i + 1..], '&'));
    } else {
      NoPieces();
    }
  }

  lemma NoPieces()
    ensures Pieces("") == []
  {
    assert SplitOn("", '&') == [""];
  }

  lemma OnePiece(first: string, ps: seq<string>)
    requires ps != []
    ensures ([first] + ps)[|ps|] == ps[|ps| - 1] && ([first] + ps)[..|ps|] == [first] + ps[..|ps| - 1]
  {}

  lemma FoldStep(data: map<string, string>, query: string)
    requires query != ""
    ensures var p := PairOf(FirstPiece(query));
      Final(data, query) == Final(data[p.0 := p.1], OtherPieces(query))
  {
    PiecesStep(query);
    FoldCons(data, FirstPiece(query), Pieces(OtherPieces(query)));
  }

  lemma FoldCons(data: map<string, string>, piece: string, pieces: seq<string>)
    ensures Fold(data, Pairs([piece] + pieces)) == Fold(data[PairOf(piece).0 := PairOf(piece).1], Pairs(pieces))
  {
    assert Pairs([piece] + pieces)[1..] == Pairs(pieces);
  }

  method ExtractPair(queryPair: string) returns (key: string, value: string)
    ensures (key, value) == PairOf(queryPair)
  {
    var posEqual := Find(queryPair, '=');
    SubstrRest(queryPair, 0, posEqual);
    SubstrRest(queryPair, posEqual + 1, |queryPair| - 1);
    key := Substr(queryPair, 0, posEqual);
    value := Substr(queryPair, posEqual + 1, |queryPair| - 1);
  }

  /** Cuts the first piece off the view. */
  method NextPiece(queryUrl: string) returns (queryPair: string, rest: string)
    requires queryUrl != ""
    ensures queryPair == FirstPiece(queryUrl) && rest == OtherPieces(queryUrl) && |rest| < |queryUrl|
  {
    var posAnd := Find(queryUrl, '&');
    if posAnd != NPOS {
      SubstrRest(queryUrl, 0, posAnd);
      SubstrRest(queryUrl, posAnd + 1, |queryUrl| - 1);
      queryPair := Substr(queryUrl, 0, posAnd);
      rest := Substr(queryUrl, posAnd + 1, |queryUrl| - 1);
    } else {
      SubstrRest(queryUrl, 0, |queryUrl|);
      queryPair := Substr(queryUrl, 0, |queryUrl|);
      rest := "";
    }
  }

  /** What the map will be when the rest of the view has been read. */
  function Final(data: map<string, string>, query: string): map<string, string> {
    Fold(data, Pairs(Pieces(query)))
  }

  method ExtractQuery(query: string) returns (queryData: map<string, string>)
    ensures queryData == Final(map[], query)
  {
    var queryUrl := query;
    queryData := map[];
    while queryUrl != ""
      invariant Final(queryData, queryUrl) == Final(map[], query)
      decreases |queryUrl|
    {
      FoldStep(queryData, queryUrl);
      var queryPair;
      queryPair, queryUrl := NextPiece(queryUrl);
      var key, value := ExtractPair(queryPair);
      queryData := queryData[key := value];
    }
    FinalEmpty(queryData);
  }

  lemma FinalEmpty(data: map<string, string>)
    ensures Final(data, "") == data
  {}

  function Print(p: Pair): string {
    p.0 + "=" + p.1
  }

  function PrintAll(ps: seq<Pair>): (texts: seq<string>)
    ensures |texts| == |ps| && forall i :: 0 <= i < |ps| ==> texts[i] == Print(ps[i])
  {
    seq(|ps|, i requires 0 <= i < |ps| => Print(ps[i]))
  }

  function PrintQuery(ps: seq<Pair>): string {
    if ps == [] then "" else Join(PrintAll(ps), '&')
  }

  lemma PrintedPair(p: Pair)
    requires '&' !in p.0 && '=' !in p.0 && '&' !in p.1
    ensures PairOf(Print(p)) == p && '&' !in Print(p)
  {
    FindFirst(p.0, '=', p.1);
    assert Print(p) == p.0 + ['='] + p.1;
    assert Print(p)[..|p.0|] == p.0 && Print(p)[|p.0| + 1..] == p.1;
  }

  /** A piece is what its pair prints as if and only if it has an '='. */
  lemma PieceIsItsPair(piece: string)
    ensures Print(PairOf(piece)) == piece <==> '=' in piece
  {
    var i := Find(piece, '=');
    if i != NPOS {
      assert piece == piece[..i] + "=" + piece[i + 1..];
    } else {
      assert |Print(PairOf(piece))| > |piece|;
    }
  }

  /** Printing pairs and parsing them gives back the last value of every key. */
  lemma QueryRoundTrip(ps: seq<Pair>)
    requires forall p :: p in ps ==> '&' !in p.0 && '=' !in p.0 && '&' !in p.1
    ensures Pairs(Pieces(PrintQuery(ps))) == ps
    ensures Final(map[], PrintQuery(ps)) == Fold(map[], ps)
  {
    if ps != [] {
      var texts := PrintAll(ps);
      forall i | 0 <= i < |ps|
        ensures PairOf(texts[i]) == ps[i] && '&' !in texts[i] && texts[i] != ""
      {
        assert ps[i] in ps;
        PrintedPair(ps[i]);
      }
      SplitJoin(texts, '&');
      assert Pieces(PrintQuery(ps)) == texts;
    }
  }

  /** A piece of a query: an assignment, or a bare text without '='. */
  datatype Piece = Assign(key: string, value: string) | Bare(text: string)

  function PrintPiece(piece: Piece): string {
    match piece
    case Assign(key, value) => key + "=" + value
    case Bare(text) => text
  }

  predicate IsPrintable(piece: Piece) {
    match piece
    case Assign(key, value) => '&' !in key && '=' !in key && '&' !in value
    case Bare(text) => '&' !in text && '=' !in text
  }

  /** What a piece contributes: a bare text is a key, and its value is the text less its last character. */
  predicate Contributes(piece: Piece, p: Pair) {
    match piece
    case Assign(key, value) => p == (key, value)
    case Bare(text) => p.0 == text && if text == "" then p.1 == "" else p.1 + [text[|text| - 1]] == text
  }

  lemma PrintedPiece(piece: Piece)
    requires IsPrintable(piece)
    ensures Contributes(piece, PairOf(PrintPiece(piece))) && '&' !in PrintPiece(piece)
  {
    if piece.Assign? {
      PrintedPair((piece.key, piece.value));
      assert PrintPiece(piece) == Print((piece.key, piece.value));
    } else if piece.text != "" {
      BarePiece(piece.text);
    }
  }

  /** A text without '=' is its own key, and its value is the text less its last character. */
  lemma BarePiece(text: string)
    requires text != "" && '=' !in text
    ensures PairOf(text).0 == text && PairOf(text).1 + [text[|text| - 1]] == text
  {}

  function PrintPieces(pieces: seq<Piece>): (texts: seq<string>)
    ensures |texts| == |pieces| && forall i :: 0 <= i < |texts| ==> texts[i] == PrintPiece(pieces[i])
  {
    seq(|pieces|, i requires 0 <= i < |pieces| => PrintPiece(pieces[i]))
  }

  /** The text of a query, which may end in a '&'. */
  function QueryText(texts: seq<string>, trailing: bool): string
    requires texts != []
  {
    if trailing then Join(texts, '&') + "&" else Join(texts, '&')
  }

  lemma TextPieces(texts: seq<string>, trailing: bool)
    requires texts != [] && Free(texts, '&') && (trailing || texts[|texts| - 1] != "")
    ensures Pieces(QueryText(texts, trailing)) == texts
  {
    SplitJoin(texts, '&');
    if trailing {
      SplitTrailing(Join(texts, '&'), '&');
    }
  }

  predicate ArePrintable(pieces: seq<Piece>) {
    forall i :: 0 <= i < |pieces| ==> IsPrintable(pieces[i])
  }

  predicate AllContribute(pieces: seq<Piece>, ps: seq<Pair>) {
    |ps| == |pieces| && forall i :: 0 <= i < |ps| ==> Contributes(pieces[i], ps[i])
  }

  /** The map has exactly the keys of the pairs, each with the value of its last pair. */
  ghost predicate LastWins(data: map<string, string>, ps: seq<Pair>) {
    && (forall k :: k in data <==> exists i :: 0 <= i < |ps| && ps[i].0 == k)
    && (forall i :: 0 <= i < |ps| && (forall j :: i < j < |ps| ==> ps[j].0 != ps[i].0) ==>
          ps[i].0 in data && data[ps[i].0] == ps[i].1)
  }

  lemma FoldLastWins(ps: seq<Pair>)
    ensures LastWins(Fold(map[], ps), ps)
  {
    forall k
      ensures k in Fold(map[], ps) <==> exists i :: 0 <= i < |ps| && ps[i].0 == k
    {
      FoldIsLastWins(map[], ps, k);
    }
    forall i | 0 <= i < |ps| && (forall j :: i < j < |ps| ==> ps[j].0 != ps[i].0)
      ensures ps[i].0 in Fold(map[], ps) && Fold(map[], ps)[ps[i].0] == ps[i].1
    {
      FoldIsLastWins(map[], ps, ps[i].0);
    }
  }

  lemma PiecesContribute(pieces: seq<Piece>)
    requires ArePrintable(pieces)
    ensures AllContribute(pieces, Pairs(PrintPieces(pieces))) && Free(PrintPieces(pieces), '&')
  {
    var texts := PrintPieces(pieces);
    forall i | 0 <= i < |pieces|
      ensures Contributes(pieces[i], PairOf(texts[i])) && '&' !in texts[i]
    {
      PrintedPiece(pieces[i]);
    }
  }

  /** A query of assignments and bare texts in any order, with or without a final '&': each piece
      contributes its pair, and the last pair of a key is its value in the parsed map. */
  lemma ParsedPieces(pieces: seq<Piece>, trailing: bool) returns (ps: seq<Pair>)
    requires pieces != [] && ArePrintable(pieces) && (trailing || PrintPiece(pieces[|pieces| - 1]) != "")
    ensures AllContribute(pieces, ps) && LastWins(Final(map[], QueryText(PrintPieces(pieces), trailing)), ps)
  {
    ps := Pairs(PrintPieces(pieces));
    PiecesContribute(pieces);
    FinalOfText(PrintPieces(pieces), trailing);
    FoldLastWins(ps);
  }

  lemma FinalOfText(texts: seq<string>, trailing: bool)
    requires texts != [] && Free(texts, '&') && (trailing || texts[|texts| - 1] != "")
    ensures Final(map[], QueryText(texts, trailing)) == Fold(map[], Pairs(texts))
  {
    TextPieces(texts, trailing);
  }

  // ---------------------------------------------------------------------------------------------
  // Path templates
  // ---------------------------------------------------------------------------------------------

  /** The names of the segments that begin with ':', in order. */
  function Names(words: seq<string>): seq<string> {
    if words == [] then [] else Names(words[..|words| - 1]) + Name(words[|words| - 1])
  }

  lemma LastPieces(a: seq<string>, x: string, b: seq<string>, y: string)
    requires a + [x] == b + [y]
    ensures a == b
  {
    assert (a + [x])[..|a|] == a && (b + [y])[..|b|] == b;
  }

  lemma WordsStep(words: seq<string>, rest: string, i: int)
    requires i == Find(rest, '/') && i != NPOS
    ensures words + SplitOn(rest, '/') == words + [rest[..i]] + SplitOn(rest[i + 1..], '/')
  {}

  method SplitPath(path: string) returns (words: seq<string>)
    ensures words == SplitOn(path, '/')
  {
    words := [];
    var rest := path + "/";
    SplitTrailing(path, '/');
    var position := Find(rest, '/');
    while position != NPOS
      invariant position == Find(rest, '/')
      invariant words + SplitOn(rest, '/') == SplitOn(path, '/') + [""]
      decreases |rest|
    {
      WordsStep(words, rest, position);
      words := words + [Substr(rest, 0, position)];
      rest := rest[position + 1..];
      position := Find(rest, '/');
    }
    LastPieces(words, rest, SplitOn(path, '/'), "");
  }

  function Name(word: string): seq<string> {
    if word != "" && word[0] == ':' then [word[1..]] else []
  }

  lemma NamesStep(words: seq<string>, i: nat)
    requires i < |words|
    ensures Names(words[..i + 1]) == Names(words[..i]) + Name(words[i])
  {
    assert words[..i + 1][..i] == words[..i];
  }

  method ExtractPathParameters(path: string) returns (parameters: seq<string>)
    ensures parameters == Names(SplitOn(path, '/'))
  {
    var words := SplitPath(path);
    parameters := [];
    for i := 0 to |words|
      invariant parameters == Names(words[..i])
    {
      var word := words[i];
      NamesStep(words, i);
      // `word[0]` of an empty string is the terminating NUL.
      if word != "" && word[0] == ':' {
        SubstrRest(word, 1, NPOS);
        parameters := parameters + [Substr(word, 1, NPOS)];
      }
    }
    assert words[..|words|] == words;
  }

  datatype Segment = Literal(text: string) | Parameter(name: string)

  /** A segment as it stands in a path template. */
  function PrintSegment(segment: Segment): string {
    match segment
    case Literal(text) => text
    case Parameter(name) => ":" + name
  }

  predicate IsPlain(segment: Segment) {
    match segment
    case Literal(text) => '/' !in text && (text == "" || text[0] != ':')
    case Parameter(name) => '/' !in name
  }

  function PrintSegments(segments: seq<Segment>): (texts: seq<string>)
    ensures |texts| == |segments| && forall i :: 0 <= i < |texts| ==> texts[i] == PrintSegment(segments[i])
  {
    seq(|segments|, i requires 0 <= i < |segments| => PrintSegment(segments[i]))
  }

  /** The names of the parameters, in order. */
  function Parameters(segments: seq<Segment>): seq<string> {
    if segments == [] then []
    else if segments[0].Parameter? then [segments[0].name] + Parameters(segments[1..])
    else Parameters(segments[1..])
  }

  lemma SegmentName(segment: Segment)
    requires IsPlain(segment)
    ensures Name(PrintSegment(segment)) == if segment.Parameter? then [segment.name] else []
  {}

  lemma {:induction false} NamesCons(word: string, words: seq<string>)
    ensures Names([word] + words) == Name(word) + Names(words)
  {
    var all := [word] + words;
    if words == [] {
      assert all[..0] == [] && all[0] == word;
    } else {
      var n := |words| - 1;
      NamesCons(word, words[..n]);
      assert all[..|all| - 1] == [word] + words[..n] && all[|all| - 1] == words[n];
      assert Name(word) + Names(words[..n]) + Name(words[n]) == Name(word) + (Names(words[..n]) + Name(words[n]));
    }
  }

  lemma {:induction false} NamesOfSegments(segments: seq<Segment>)
    requires forall s :: s in segments ==> IsPlain(s)
    ensures Names(PrintSegments(segments)) == Parameters(segments)
  {
    if segments != [] {
      SegmentName(segments[0]);
      NamesOfSegments(segments[1..]);
      NamesCons(PrintSegment(segments[0]), PrintSegments(segments[1..]));
      PrintSegmentsCons(segments);
    }
  }

  lemma PrintSegmentsCons(segments: seq<Segment>)
    requires segments != []
    ensures PrintSegments(segments) == [PrintSegment(segments[0])] + PrintSegments(segments[1..])
  {}

  /** From any printed template, extraction gives exactly the names of its parameters, in order and
      without their colons. */
  lemma PathRoundTrip(segments: seq<Segment>)
    requires segments != [] && forall s :: s in segments ==> IsPlain(s)
    ensures Names(SplitOn(Join(PrintSegments(segments), '/'), '/')) == Parameters(segments)
  {
    forall text | text in PrintSegments(segments)
      ensures '/' !in text
    {
      var i :| 0 <= i < |segments| && PrintSegment(segments[i]) == text;
      assert IsPlain(segments[i]);
    }
    SplitJoin(PrintSegments(segments), '/');
    NamesOfSegments(segments);
  }
}
