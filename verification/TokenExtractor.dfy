/** The augmentor that extracts the tokens a field value holds between two marker characters. */
module TokenExtractor {
  import opened DynamicMessage

  datatype Config = Config(
    field: (string, string),
    start: char,
    end: char,
    nTokens: int,
    targets: seq<(string, string)>
  )

  datatype Scan = Scan(tokens: seq<string>, malformed: bool)

  datatype Progress = Outside | Inside(token: string)

  /** The 8-bit counter of extracted tokens has reached the wanted number. */
  predicate Stops(c: Config, count: nat) {
    count > 0 && count % 256 == c.nTokens
  }

  /** What is extracted from the rest of a value when `count` tokens have been extracted before. */
  function ScanFrom(c: Config, s: string, count: nat, p: Progress): Scan {
    if s == "" then Scan([], false) else
    match p
    case Inside(token) =>
      if s[0] == c.start then Scan([], true)
      else if s[0] == c.end then
        if Stops(c, count + 1) then Scan([token], false)
        else Prepend([token], ScanFrom(c, s[1..], count + 1, Outside))
      else ScanFrom(c, s[1..], count, Inside(token + [s[0]]))
    case Outside =>
      if s[0] == c.end then Scan([], true)
      else ScanFrom(c, s[1..], count, if s[0] == c.start then Inside("") else Outside)
  }

  function Prepend(tokens: seq<string>, r: Scan): Scan {
    Scan(tokens + r.tokens, r.malformed)
  }

  function Extract(c: Config, s: string): Scan {
    ScanFrom(c, s, 0, Outside)
  }

  /** Tokens go to the target fields one by one; a later write to the same field wins. */
  function Store(fields: Fields, targets: seq<(string, string)>, tokens: seq<string>): Fields
    requires |tokens| <= |targets|
  {
    if tokens == [] then fields
    else
      var n := |tokens| - 1;
      Set(Store(fields, targets, tokens[..n]), targets[n].0, targets[n].1, Str(tokens[n]))
  }

  predicate SameField(a: Fields, b: Fields, f: (string, string)) {
    var x, y := Get(a, f.0, f.1), Get(b, f.0, f.1);
    x == y || (!x.Found? && !y.Found?)
  }

  ghost predicate OthersKept(before: Fields, after: Fields, written: seq<(string, string)>) {
    forall f :: f !in written ==> SameField(before, after, f)
  }

  ghost predicate LastTokens(after: Fields, targets: seq<(string, string)>, tokens: seq<string>)
    requires |tokens| <= |targets|
  {
    forall i :: 0 <= i < |tokens| && (forall j :: i < j < |tokens| ==> targets[j] != targets[i]) ==>
      Get(after, targets[i].0, targets[i].1) == Found(Str(tokens[i]))
  }

  /** The first fields of the target list hold the tokens, the last one for a field that is listed more
      than once, and all other fields are as before. */
  ghost predicate HoldsTokens(before: Fields, after: Fields, targets: seq<(string, string)>, tokens: seq<string>)
    requires |tokens| <= |targets|
  {
    LastTokens(after, targets, tokens) && OthersKept(before, after, targets[..|tokens|])
  }

  lemma SetOthers(fields: Fields, group: string, name: string, value: Value, f: (string, string))
    requires f != (group, name)
    ensures SameField(fields, Set(fields, group, name, value), f)
  {
    assert (f.0, f.1) != (group, name);
  }

  lemma OthersKeptOnce(before: Fields, now: Fields, written: seq<(string, string)>, t: (string, string), value: Value)
    requires OthersKept(before, now, written)
    ensures OthersKept(before, Set(now, t.0, t.1, value), written + [t])
  {
    forall f | f !in written + [t]
      ensures SameField(before, Set(now, t.0, t.1, value), f)
    {
      SetOthers(now, t.0, t.1, value, f);
      assert SameField(before, now, f);
    }
  }

  lemma LastTokensOnce(now: Fields, targets: seq<(string, string)>, tokens: seq<string>, token: string)
    requires |tokens| < |targets| && LastTokens(now, targets, tokens)
    ensures var t := targets[|tokens|]; LastTokens(Set(now, t.0, t.1, Str(token)), targets, tokens + [token])
  {
    var n := |tokens|;
    var t, all := targets[n], tokens + [token];
    forall i | 0 <= i < |all| && (forall j :: i < j < |all| ==> targets[j] != targets[i])
      ensures Get(Set(now, t.0, t.1, Str(token)), targets[i].0, targets[i].1) == Found(Str(all[i]))
    {
      if i < n {
        SetOthers(now, t.0, t.1, Str(token), targets[i]);
      }
    }
  }

  lemma {:induction false} StoreHoldsTokens(fields: Fields, targets: seq<(string, string)>, tokens: seq<string>)
    requires |tokens| <= |targets|
    ensures HoldsTokens(fields, Store(fields, targets, tokens), targets, tokens)
  {
    if tokens != [] {
      var n := |tokens| - 1;
      StoreHoldsTokens(fields, targets, tokens[..n]);
      HoldsOnce(fields, Store(fields, targets, tokens[..n]), targets, tokens[..n], tokens[n]);
      assert tokens == tokens[..n] + [tokens[n]];
    }
  }

  lemma HoldsOnce(before: Fields, now: Fields, targets: seq<(string, string)>, tokens: seq<string>, token: string)
    requires |tokens| < |targets| && HoldsTokens(before, now, targets, tokens)
    ensures var t := targets[|tokens|];
      HoldsTokens(before, Set(now, t.0, t.1, Str(token)), targets, tokens + [token])
  {
    var n := |tokens|;
    LastTokensOnce(now, targets, tokens, token);
    OthersKeptOnce(before, now, targets[..n], targets[n], Str(token));
    assert targets[..n + 1] == targets[..n] + [targets[n]];
  }

  /** An end marker inside a token: the token is stored, and the 8-bit counter compared. */
  method CloseToken(c: Config, message: Message, ite: nat, token: string, extracted: nat,
                    ghost all: Scan, ghost done: seq<string>, ghost rest: string, ghost before: Fields)
    returns (extracted': nat, stop: bool)
    requires Continues(c, all, done, rest, Inside(token)) && rest != "" && rest[0] == c.end != c.start
    requires |all.tokens| <= |c.targets| && message.fields == Store(before, c.targets, done)
    requires ite == |done| && extracted == ite % 256
    modifies message
    ensures |done| < |all.tokens| && extracted' == (ite + 1) % 256
    ensures message.fields == Store(before, c.targets, done + [token])
    ensures if stop then all == Scan(done + [token], false) else Continues(c, all, done + [token], rest[1..], Outside)
  {
    CloseStep(c, all, done, rest, token);
    StoreOneMore(message.fields, before, c.targets, done, token);
    message.SetField(c.targets[ite].0, c.targets[ite].1, Str(token));
    NextCount(ite);
    extracted' := (extracted + 1) % 256;
    stop := extracted' == c.nTokens;
  }

  lemma NextCount(count: nat)
    ensures (count % 256 + 1) % 256 == (count + 1) % 256
  {}

  /** A malformed value throws, after the tokens closed before have been stored. */
  method Augment(c: Config, message: Message) returns (malformed: bool)
    requires HasString(message.fields, c.field.0, c.field.1)
    requires |Extract(c, String(message.fields, c.field.0, c.field.1)).tokens| <= |c.targets|
    modifies message
    ensures var r := Extract(c, String(old(message.fields), c.field.0, c.field.1));
      && malformed == r.malformed && message.fields == Store(old(message.fields), c.targets, r.tokens)
      && HoldsTokens(old(message.fields), message.fields, c.targets, r.tokens)
  {
    var value := String(message.fields, c.field.0, c.field.1);
    StoreHoldsTokens(message.fields, c.targets, Extract(c, value).tokens);
    malformed := ScanValue(c, message, value);
  }

  method ScanValue(c: Config, message: Message, value: string) returns (malformed: bool)
    requires |Extract(c, value).tokens| <= |c.targets|
    modifies message
    ensures var r := Extract(c, value);
      malformed == r.malformed && message.fields == Store(old(message.fields), c.targets, r.tokens)
  {
    ghost var all, done := Extract(c, value), [];
    var ite := 0;
    var tokenInProgress := false;
    var currentToken := "";
    var extracted: nat := 0;  // uint8_t
    ghost var progress: Progress := Outside;
    assert value[0..] == value;
    for i := 0 to |value|
      invariant |done| == ite <= |all.tokens| && extracted == ite % 256
      invariant message.fields == Store(old(message.fields), c.targets, done)
      invariant progress == if tokenInProgress then Inside(currentToken) else Outside
      invariant Continues(c, all, done, value[i..], progress)
      invariant !tokenInProgress ==> currentToken == ""
    {
      var ch := value[i];
      ghost var rest := value[i..];
      assert rest[1..] == value[i + 1..] && rest[0] == ch;
      ContinuesStep(c, all, done, rest, progress);
      if tokenInProgress {
        if ch == c.start {
          return true;
        } else if ch == c.end {
          var stop;
          extracted, stop := CloseToken(c, message, ite, currentToken, extracted, all, done, rest, old(message.fields));
          tokenInProgress, progress := false, Outside;
          done := done + [currentToken];
          currentToken := "";
          if stop {
            return false;
          }
          ite := ite + 1;
        } else {
          currentToken := currentToken + [ch];
          progress := Inside(currentToken);
        }
      } else {
        if ch == c.end {
          return true;
        } else if ch == c.start {
          tokenInProgress, progress := true, Inside("");
        }
      }
    }
    ContinuesStep(c, all, done, value[|value|..], progress);
    return false;
  }

  /** The whole extraction is what was done already, followed by what the rest of the value gives. */
  ghost predicate Continues(c: Config, all: Scan, done: seq<string>, rest: string, p: Progress) {
    all == Prepend(done, ScanFrom(c, rest, |done|, p)) && |done| <= |all.tokens|
  }

  lemma ContinuesStep(c: Config, all: Scan, done: seq<string>, rest: string, p: Progress)
    requires Continues(c, all, done, rest, p)
    ensures rest == "" ==> all == Scan(done, false)
    ensures rest != "" && p.Outside? ==>
      if rest[0] == c.end then all == Scan(done, true)
      else Continues(c, all, done, rest[1..], if rest[0] == c.start then Inside("") else Outside)
    ensures rest != "" && p.Inside? ==>
      if rest[0] == c.start then all == Scan(done, true)
      else if rest[0] == c.end then
        && |done| < |all.tokens|
        && (if Stops(c, |done| + 1) then all == Scan(done + [p.token], false)
            else Continues(c, all, done + [p.token], rest[1..], Outside))
      else Continues(c, all, done, rest[1..], Inside(p.token + [rest[0]]))
  {
    assert done + [] == done;
    if rest != "" && p.Inside? && rest[0] != c.start && rest[0] == c.end && !Stops(c, |done| + 1) {
      var next := ScanFrom(c, rest[1..], |done| + 1, Outside);
      assert done + ([p.token] + next.tokens) == done + [p.token] + next.tokens;
    }
  }

  lemma CloseStep(c: Config, all: Scan, done: seq<string>, rest: string, token: string)
    requires Continues(c, all, done, rest, Inside(token)) && rest != "" && rest[0] == c.end != c.start
    ensures |done| < |all.tokens|
    ensures if Stops(c, |done| + 1) then all == Scan(done + [token], false)
            else Continues(c, all, done + [token], rest[1..], Outside)
  {
    ContinuesStep(c, all, done, rest, Inside(token));
  }

  lemma StoreOneMore(now: Fields, before: Fields, targets: seq<(string, string)>, done: seq<string>, token: string)
    requires |done| < |targets| && now == Store(before, targets, done)
    ensures Store(before, targets, done + [token]) == Set(now, targets[|done|].0, targets[|done|].1, Str(token))
  {
    assert (done + [token])[..|done|] == done;
  }

  // ---------------------------------------------------------------------------------------------
  // Printed values
  // ---------------------------------------------------------------------------------------------

  /** A token with the literal text before it. */
  datatype Part = Part(literal: string, token: string)

  predicate Clean(c: Config, s: string) {
    c.start !in s && c.end !in s
  }

  predicate CleanParts(c: Config, ps: seq<Part>) {
    forall p :: p in ps ==> Clean(c, p.literal) && Clean(c, p.token)
  }

  function Print(c: Config, ps: seq<Part>): string {
    if ps == [] then "" else ps[0].literal + [c.start] + ps[0].token + [c.end] + Print(c, ps[1..])
  }

  function Tokens(ps: seq<Part>): (ts: seq<string>)
    ensures |ts| == |ps| && forall i :: 0 <= i < |ps| ==> ts[i] == ps[i].token
  {
    seq(|ps|, i requires 0 <= i < |ps| => ps[i].token)
  }

  /** The counter does not stop the scan before `count` tokens have been passed. */
  predicate RunsOn(c: Config, from: nat, count: nat) {
    forall j: nat :: from < j <= count ==> !Stops(c, j)
  }

  lemma {:induction false} CleanOutside(c: Config, a: string, b: string, count: nat)
    requires Clean(c, a)
    ensures ScanFrom(c, a + b, count, Outside) == ScanFrom(c, b, count, Outside)
  {
    if a == "" {
      assert a + b == b;
    } else {
      CleanOutside(c, a[1..], b, count);
      assert (a + b)[1..] == a[1..] + b;
    }
  }

  lemma {:induction false} CleanInside(c: Config, token: string, a: string, b: string, count: nat)
    requires Clean(c, a)
    ensures ScanFrom(c, a + b, count, Inside(token)) == ScanFrom(c, b, count, Inside(token + a))
    decreases |a|
  {
    if a == "" {
      assert a + b == b && token + a == token;
    } else {
      CleanInside(c, token + [a[0]], a[1..], b, count);
      assert (a + b)[1..] == a[1..] + b && token + [a[0]] + a[1..] == token + a;
    }
  }

  /** One printed part, then the rest of the value. */
  lemma OnePart(c: Config, p: Part, b: string, count: nat)
    requires c.start != c.end && Clean(c, p.literal) && Clean(c, p.token)
    ensures ScanFrom(c, p.literal + [c.start] + p.token + [c.end] + b, count, Outside) ==
            if Stops(c, count + 1) then Scan([p.token], false)
            else Prepend([p.token], ScanFrom(c, b, count + 1, Outside))
  {
    var closing := [c.end] + b;
    var opening := [c.start] + (p.token + closing);
    assert p.literal + [c.start] + p.token + [c.end] + b == p.literal + opening;
    CleanOutside(c, p.literal, opening, count);
    assert opening[1..] == p.token + closing;
    CleanInside(c, "", p.token, closing, count);
    assert "" + p.token == p.token && closing[1..] == b;
  }

  lemma {:induction false} PartsThen(c: Config, ps: seq<Part>, b: string, count: nat)
    requires c.start != c.end && CleanParts(c, ps) && RunsOn(c, count, count + |ps|)
    ensures ScanFrom(c, Print(c, ps) + b, count, Outside) == Prepend(Tokens(ps), ScanFrom(c, b, count + |ps|, Outside))
    decreases |ps|
  {
    if ps == [] {
      assert "" + b == b;
    } else {
      PartsThen(c, ps[1..], b, count + 1);
      assert !Stops(c, count + 1);
      PartThenParts(c, ps, b, count, ScanFrom(c, b, count + |ps|, Outside));
    }
  }

  lemma PartThenParts(c: Config, ps: seq<Part>, b: string, count: nat, last: Scan)
    requires c.start != c.end && ps != [] && Clean(c, ps[0].literal) && Clean(c, ps[0].token) && !Stops(c, count + 1)
    requires ScanFrom(c, Print(c, ps[1..]) + b, count + 1, Outside) == Prepend(Tokens(ps[1..]), last)
    ensures ScanFrom(c, Print(c, ps) + b, count, Outside) == Prepend(Tokens(ps), last)
  {
    PrintCons(c, ps, b);
    OnePart(c, ps[0], Print(c, ps[1..]) + b, count);
    PrependTwice([ps[0].token], Tokens(ps[1..]), last);
    assert Tokens(ps) == [ps[0].token] + Tokens(ps[1..]);
  }

  lemma PrintCons(c: Config, ps: seq<Part>, b: string)
    requires ps != []
    ensures Print(c, ps) + b == ps[0].literal + [c.start] + ps[0].token + [c.end] + (Print(c, ps[1..]) + b)
  {}

  lemma PrependTwice(a: seq<string>, b: seq<string>, r: Scan)
    ensures Prepend(a, Prepend(b, r)) == Prepend(a + b, r)
  {
    assert a + (b + r.tokens) == a + b + r.tokens;
  }

  lemma {:induction false} PrintConcat(c: Config, a: seq<Part>, b: seq<Part>)
    ensures Print(c, a + b) == Print(c, a) + Print(c, b)
  {
    if a == [] {
      assert a + b == b;
    } else {
      var first := a[0].literal + [c.start] + a[0].token + [c.end];
      PrintConcat(c, a[1..], b);
      assert (a + b)[1..] == a[1..] + b;
      Associate(first, Print(c, a[1..]), Print(c, b));
    }
  }

  lemma StopsAtLast(c: Config, before: seq<Part>, last: Part, b: string)
    requires c.start != c.end && CleanParts(c, before) && Clean(c, last.literal) && Clean(c, last.token)
    requires RunsOn(c, 0, |before|) && Stops(c, |before| + 1)
    ensures Extract(c, Print(c, before) + (last.literal + [c.start] + last.token + [c.end] + b)) ==
            Scan(Tokens(before) + [last.token], false)
  {
    PartsThen(c, before, last.literal + [c.start] + last.token + [c.end] + b, 0);
    OnePart(c, last, b, |before|);
  }

  /** The number of the token after which the scan stops, or 0 if it never does. */
  function Last(c: Config): nat {
    if 1 <= c.nTokens <= 255 then c.nTokens else if c.nTokens == 0 then 256 else 0
  }

  /** The tokens that are taken from a printed value. */
  function Taken(c: Config, ps: seq<Part>): seq<Part> {
    if Last(c) == 0 || |ps| <= Last(c) then ps else ps[..Last(c)]
  }

  /** From a printed value exactly the tokens up to the last wanted one come back, or all of them if
      there are fewer; for 1 <= n <= 255 these are the first n. */
  lemma RoundTrip(c: Config, ps: seq<Part>, tail: string)
    requires c.start != c.end && CleanParts(c, ps) && EndsQuietly(c, tail)
    ensures Extract(c, Print(c, ps) + tail) == Scan(Tokens(Taken(c, ps)), false)
  {
    WhenItStops(c, |ps|);
    if Last(c) == 0 || |ps| < Last(c) {
      FewerTokens(c, ps, tail);
    } else {
      EnoughTokens(c, ps, tail);
      assert |ps| == Last(c) ==> ps[..Last(c)] == ps;
    }
  }

  /** So the message ends up with exactly these tokens in its first target fields, and nothing else
      changes. */
  lemma RoundTripFields(c: Config, ps: seq<Part>, tail: string, fields: Fields)
    requires c.start != c.end && CleanParts(c, ps) && EndsQuietly(c, tail)
    requires |Taken(c, ps)| <= |c.targets|
    ensures var r := Extract(c, Print(c, ps) + tail);
      && !r.malformed && |r.tokens| <= |c.targets|
      && HoldsTokens(fields, Store(fields, c.targets, r.tokens), c.targets, Tokens(Taken(c, ps)))
  {
    RoundTrip(c, ps, tail);
    StoreHoldsTokens(fields, c.targets, Extract(c, Print(c, ps) + tail).tokens);
  }

  /** A value may end in a text without markers, or in a token that is never closed. */
  ghost predicate EndsQuietly(c: Config, tail: string) {
    Clean(c, tail)
    || exists literal, token :: Clean(c, literal) && Clean(c, token) && tail == literal + [c.start] + token
  }

  lemma QuietEnd(c: Config, tail: string, count: nat)
    requires c.start != c.end && EndsQuietly(c, tail)
    ensures ScanFrom(c, tail, count, Outside) == Scan([], false)
  {
    if Clean(c, tail) {
      assert tail + "" == tail;
      CleanOutside(c, tail, "", count);
    } else {
      var literal, token :| Clean(c, literal) && Clean(c, token) && tail == literal + [c.start] + token;
      assert literal + [c.start] + token + "" == tail;
      Opened(c, literal, token, "", count);
    }
  }

  lemma FewerTokens(c: Config, ps: seq<Part>, tail: string)
    requires c.start != c.end && CleanParts(c, ps) && EndsQuietly(c, tail) && RunsOn(c, 0, |ps|)
    ensures Extract(c, Print(c, ps) + tail) == Scan(Tokens(ps), false)
  {
    PartsThen(c, ps, tail, 0);
    QuietEnd(c, tail, |ps|);
    assert Tokens(ps) + [] == Tokens(ps);
  }

  lemma EnoughTokens(c: Config, ps: seq<Part>, tail: string)
    requires c.start != c.end && CleanParts(c, ps) && 0 < Last(c) <= |ps|
    ensures Extract(c, Print(c, ps) + tail) == Scan(Tokens(ps[..Last(c)]), false)
  {
    var n := Last(c) - 1;
    WhenItStops(c, n);
    PrintSplit(c, ps, n, tail);
    StopsAtLast(c, ps[..n], ps[n], Print(c, ps[n + 1..]) + tail);
    TokensOneMore(ps, n);
  }

  lemma TokensOneMore(ps: seq<Part>, n: nat)
    requires n < |ps|
    ensures Tokens(ps[..n + 1]) == Tokens(ps[..n]) + [ps[n].token]
  {}

  lemma PrintSplit(c: Config, ps: seq<Part>, n: nat, tail: string)
    requires n < |ps|
    ensures Print(c, ps) + tail == Print(c, ps[..n]) +
              (ps[n].literal + [c.start] + ps[n].token + [c.end] + (Print(c, ps[n + 1..]) + tail))
  {
    var a, b := ps[..n], ps[n..];
    assert ps == a + b;
    PrintConcat(c, a, b);
    PrintCons(c, b, tail);
    assert b[1..] == ps[n + 1..];
    Associate(Print(c, a), Print(c, b), tail);
  }

  lemma Associate(a: string, b: string, d: string)
    ensures a + b + d == a + (b + d)
  {}

  /** A value with a misplaced marker: an end marker outside a token, or a start marker inside one. */
  ghost predicate Misplaced(c: Config, ps: seq<Part>, literal: string, token: string, tail: string, s: string) {
    && CleanParts(c, ps) && Clean(c, literal) && Clean(c, token)
    && (s == Print(c, ps) + (literal + [c.end] + tail)
        || s == Print(c, ps) + (literal + [c.start] + token + [c.start] + tail))
  }

  /** Then extraction fails, after the tokens before the marker. */
  lemma MisplacedFails(c: Config, ps: seq<Part>, literal: string, token: string, tail: string, s: string)
    requires c.start != c.end && Misplaced(c, ps, literal, token, tail, s) && RunsOn(c, 0, |ps|)
    ensures Extract(c, s) == Scan(Tokens(ps), true)
  {
    var n := |ps|;
    assert Tokens(ps) + [] == Tokens(ps);
    if s == Print(c, ps) + (literal + [c.end] + tail) {
      PartsThen(c, ps, literal + [c.end] + tail, 0);
      assert literal + [c.end] + tail == literal + ([c.end] + tail);
      CleanOutside(c, literal, [c.end] + tail, n);
    } else {
      PartsThen(c, ps, literal + [c.start] + token + [c.start] + tail, 0);
      assert literal + [c.start] + token + [c.start] + tail == literal + [c.start] + token + ([c.start] + tail);
      Opened(c, literal, token, [c.start] + tail, n);
    }
  }

  /** A literal, a start marker, and what has been read of the token. */
  lemma Opened(c: Config, literal: string, token: string, b: string, count: nat)
    requires c.start != c.end && Clean(c, literal) && Clean(c, token)
    ensures ScanFrom(c, literal + [c.start] + token + b, count, Outside) == ScanFrom(c, b, count, Inside(token))
  {
    var d := [c.start] + (token + b);
    assert literal + [c.start] + token + b == literal + d && d[1..] == token + b;
    CleanOutside(c, literal, d, count);
    CleanInside(c, "", token, b, count);
    assert "" + token == token;
  }

  /** The length of the longest prefix without markers. */
  function CleanLength(c: Config, s: string): (n: nat)
    ensures n <= |s| && Clean(c, s[..n]) && (n < |s| ==> s[n] == c.start || s[n] == c.end)
  {
    if s == "" || s[0] == c.start || s[0] == c.end then 0
    else
      var n := CleanLength(c, s[1..]);
      assert s[..n + 1] == [s[0]] + s[1..][..n];
      n + 1
  }

  lemma FirstMarker(c: Config, s: string, count: nat, p: Progress) returns (text: string, marker: char, tail: string)
    requires ScanFrom(c, s, count, p).malformed && (p.Inside? ==> p.token == "")
    ensures s == text + ([marker] + tail) && Clean(c, text) && (marker == c.start || marker == c.end)
    ensures p.Outside? ==> ScanFrom(c, [marker] + tail, count, p).malformed
    ensures |tail| < |s|
  {
    var i := CleanLength(c, s);
    text := s[..i];
    assert s == text + s[i..];
    if p.Outside? {
      CleanOutside(c, text, s[i..], count);
    } else {
      CleanInside(c, "", text, s[i..], count);
    }
    HeadAndTail(s[i..]);
    marker, tail := s[i], s[i..][1..];
  }

  lemma HeadAndTail(s: string)
    requires s != ""
    ensures s == [s[0]] + s[1..]
  {}

  /** Finds the misplaced marker of a malformed value. */
  lemma {:induction false} Diagnose(c: Config, s: string, count: nat)
    returns (ps: seq<Part>, literal: string, token: string, tail: string)
    requires ScanFrom(c, s, count, Outside).malformed
    ensures Misplaced(c, ps, literal, token, tail, s) && RunsOn(c, count, count + |ps|)
    decreases |s|
  {
    var marker, inner;
    literal, marker, inner := FirstMarker(c, s, count, Outside);
    ps, token, tail := [], "", inner;
    if marker == c.end {
      assert s == Print(c, []) + (literal + [c.end] + inner);
    } else {
      assert ([marker] + inner)[1..] == inner;
      token, marker, tail := FirstMarker(c, inner, count, Inside(""));
      if marker == c.start {
        assert s == Print(c, []) + (literal + [c.start] + token + [c.start] + tail);
      } else {
        ps, literal, token, tail := DiagnoseRest(c, s, literal, token, tail, count);
      }
    }
  }

  lemma {:induction false} DiagnoseRest(c: Config, s: string, before: string, closed: string, rest: string, count: nat)
    returns (ps: seq<Part>, literal: string, token: string, tail: string)
    requires c.start != c.end && Clean(c, before) && Clean(c, closed)
    requires s == before + ([c.start] + (closed + ([c.end] + rest)))
    requires ScanFrom(c, s, count, Outside).malformed
    ensures Misplaced(c, ps, literal, token, tail, s) && RunsOn(c, count, count + |ps|)
    decreases |s|, 0
  {
    var first := Part(before, closed);
    assert s == before + [c.start] + closed + [c.end] + rest;
    OnePart(c, first, rest, count);
    ps, literal, token, tail := Diagnose(c, rest, count + 1);
    AddPart(c, first, ps, literal, token, tail, rest);
    ps := [first] + ps;
  }

  lemma AddPart(c: Config, p: Part, ps: seq<Part>, literal: string, token: string, tail: string, rest: string)
    requires Misplaced(c, ps, literal, token, tail, rest) && Clean(c, p.literal) && Clean(c, p.token)
    ensures Misplaced(c, [p] + ps, literal, token, tail, p.literal + [c.start] + p.token + [c.end] + rest)
  {
    assert ([p] + ps)[1..] == ps;
    PrintCons(c, [p] + ps, literal + [c.end] + tail);
    PrintCons(c, [p] + ps, literal + [c.start] + token + [c.start] + tail);
  }

  /** Extraction fails exactly on the values with a misplaced marker before the token at which it
      would have stopped, and then after exactly the tokens before that marker. */
  lemma FailsExactlyWhen(c: Config, s: string)
    requires c.start != c.end
    ensures Extract(c, s).malformed <==>
      exists ps, literal, token, tail :: Misplaced(c, ps, literal, token, tail, s) && RunsOn(c, 0, |ps|)
    ensures forall ps, literal, token, tail :: Misplaced(c, ps, literal, token, tail, s) && RunsOn(c, 0, |ps|) ==>
              Extract(c, s) == Scan(Tokens(ps), true)
  {
    if Extract(c, s).malformed {
      var ps, literal, token, tail := Diagnose(c, s, 0);
    }
    forall ps, literal, token, tail | Misplaced(c, ps, literal, token, tail, s) && RunsOn(c, 0, |ps|)
      ensures Extract(c, s) == Scan(Tokens(ps), true)
    {
      MisplacedFails(c, ps, literal, token, tail, s);
    }
  }

  /** The scan stops at token n for 1 <= n <= 255, at token 256 for n = 0, and never otherwise. */
  lemma WhenItStops(c: Config, count: nat)
    ensures Last(c) > 0 ==> (RunsOn(c, 0, count) <==> count < Last(c)) && Stops(c, Last(c))
    ensures Last(c) == 0 ==> RunsOn(c, 0, count)
  {
    if Last(c) > 0 {
      assert Stops(c, Last(c));
    }
  }
}
