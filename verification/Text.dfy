/** Strings as the parsers of the program take them apart: `find`, `substr`, splitting and joining. */
module Text {

  /** `npos` is the largest unsigned number, so `npos + 1` is 0; here it is -1. */
  const NPOS := -1

  function Find(s: string, c: char): (i: int)
    ensures NPOS <= i < |s|
    ensures i == NPOS <==> c !in s
    ensures i != NPOS ==> s[i] == c && c !in s[..i]
  {
    if s == "" then NPOS
    else if s[0] == c then 0
    else
      var i := Find(s[1..], c);
      assert s == [s[0]] + s[1..];
      assert i != NPOS ==> s[..i + 1] == [s[0]] + s[1..][..i];
      if i == NPOS then NPOS else i + 1
  }

  /** A count of `npos`, or one beyond the end, takes the rest. */
  function Substr(s: string, pos: nat, count: int): string
    requires pos <= |s|
  {
    if count < 0 || pos + count > |s| then s[pos..] else s[pos..pos + count]
  }

  lemma SubstrRest(s: string, pos: nat, count: int)
    requires pos <= |s|
    ensures pos == 0 && 0 <= count <= |s| ==> Substr(s, pos, count) == s[..count]
    ensures count < 0 || pos + count >= |s| ==> Substr(s, pos, count) == s[pos..]
    ensures pos == 0 && (count < 0 || count >= |s|) ==> Substr(s, pos, count) == s
  {}

  function SplitOn(s: string, c: char): (ps: seq<string>)
    ensures ps != []
    decreases |s|
  {
    var i := Find(s, c);
    if i == NPOS then [s] else [s[..i]] + SplitOn(s[i + 1..], c)
  }

  function Join(ps: seq<string>, c: char): string
    requires ps != []
  {
    if |ps| == 1 then ps[0] else ps[0] + [c] + Join(ps[1..], c)
  }

  predicate Free(ps: seq<string>, c: char) {
    forall p :: p in ps ==> c !in p
  }

  lemma FindFirst(a: string, c: char, b: string)
    requires c !in a
    ensures Find(a + [c] + b, c) == |a|
  {
    var s, i := a + [c] + b, Find(a + [c] + b, c);
    assert s[|a|] == c;
    forall k | 0 <= k < i
      ensures s[k] != c
    {
      assert s[..i][k] == s[k];
    }
    forall k | 0 <= k < |a|
      ensures s[k] != c
    {
      assert s[k] == a[k];
    }
  }

  /** Splitting undoes joining. */
  lemma {:induction false} SplitJoin(ps: seq<string>, c: char)
    requires ps != [] && Free(ps, c)
    ensures SplitOn(Join(ps, c), c) == ps
  {
    if |ps| > 1 {
      var rest := Join(ps[1..], c);
      var s := ps[0] + [c] + rest;
      FindFirst(ps[0], c, rest);
      assert s[..|ps[0]|] == ps[0] && s[|ps[0]| + 1..] == rest;
      SplitJoin(ps[1..], c);
    }
  }

  /** Joining undoes splitting, and no piece holds the separator. */
  lemma {:induction false} JoinSplit(s: string, c: char)
    ensures Free(SplitOn(s, c), c) && Join(SplitOn(s, c), c) == s
    decreases |s|
  {
    var i := Find(s, c);
    if i != NPOS {
      JoinSplit(s[i + 1..], c);
      assert s == s[..i] + [c] + s[i + 1..];
      assert ([s[..i]] + SplitOn(s[i + 1..], c))[1..] == SplitOn(s[i + 1..], c);
    }
  }

  lemma {:induction false} JoinAppend(ps: seq<string>, c: char)
    requires ps != []
    ensures Join(ps + [""], c) == Join(ps, c) + [c]
  {
    if |ps| == 1 {
      assert (ps + [""])[1..] == [""];
    } else {
      JoinAppend(ps[1..], c);
      assert (ps + [""])[1..] == ps[1..] + [""];
    }
  }

  /** A trailing separator only adds an empty piece. */
  lemma SplitTrailing(s: string, c: char)
    ensures SplitOn(s + [c], c) == SplitOn(s, c) + [""]
  {
    JoinSplit(s, c);
    JoinAppend(SplitOn(s, c), c);
    SplitJoin(SplitOn(s, c) + [""], c);
  }
}
