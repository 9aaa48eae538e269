/** The validators of request headers, query and path parameters. The three sections of a request run
    the same loop over their own validators. */
module RequestValidation {
  import opened Text

  datatype Kind = Compulsory | Integral | Floating

  predicate Digit(c: char) { '0' <= c <= '9' }

  predicate Digits(s: string) {
    forall i :: 0 <= i < |s| ==> Digit(s[i])
  }

  /** Digits around exactly one point; either side may be empty. */
  ghost predicate Decimal(s: string) {
    exists d :: 0 <= d < |s| && s[d] == '.' && Digits(s[..d]) && Digits(s[d + 1..])
  }

  ghost predicate WellTyped(kind: Kind, value: string) {
    match kind
    case Compulsory => true
    case Integral => Digits(value)
    case Floating => Decimal(value)
  }

  type Pair = (string, string)
  type Rule = (string, Kind)

  /** What a rule asks of a section: a compulsory key occurs; the last value of a typed key, if there
      is one, is well typed. */
  ghost predicate Satisfied(rule: Rule, pairs: seq<Pair>) {
    if rule.1.Compulsory? then exists i :: 0 <= i < |pairs| && pairs[i].0 == rule.0
    else forall i ::
           0 <= i < |pairs| && pairs[i].0 == rule.0 && (forall j :: i < j < |pairs| ==> pairs[j].0 != rule.0) ==>
             WellTyped(rule.1, pairs[i].1)
  }

  /** The decimal numeral of a number. */
  function Numeral(n: nat): string {
    if n < 10 then ["0123456789"[n]] else Numeral(n / 10) + ["0123456789"[n % 10]]
  }

  lemma {:induction false} NumeralsAreDigits(n: nat)
    ensures Numeral(n) != "" && Digits(Numeral(n))
  {
    if n >= 10 {
      NumeralsAreDigits(n / 10);
    }
  }

  lemma DigitsAreTen(c: char)
    ensures Digit(c) <==> c in "0123456789"
  {
    forall k: nat | k < 10
      ensures "0123456789"[k] == '0' + k as char
    {}
    if Digit(c) {
      assert "0123456789"[(c - '0') as int] == c;
    }
  }

  /** Every numeral is an integer value and no decimal one; two numerals around a point are a decimal
      value and no integer one. */
  lemma NumeralsAreWellTyped(a: nat, b: nat)
    ensures WellTyped(Integral, Numeral(a)) && !WellTyped(Floating, Numeral(a))
    ensures WellTyped(Floating, Numeral(a) + "." + Numeral(b)) && !WellTyped(Integral, Numeral(a) + "." + Numeral(b))
  {
    NumeralsAreDigits(a);
    NumeralsAreDigits(b);
    var s, d := Numeral(a) + "." + Numeral(b), |Numeral(a)|;
    assert s[d] == '.' && s[..d] == Numeral(a) && s[d + 1..] == Numeral(b);
    assert !Digit('.');
  }

  function Dots(s: string): nat {
    if s == "" then 0 else Dots(s[..|s| - 1]) + if s[|s| - 1] == '.' then 1 else 0
  }

  lemma {:induction false} DigitsHaveNoDots(s: string)
    ensures Digits(s) ==> Dots(s) == 0
    ensures Dots(s) == 0 ==> '.' !in s
  {
    if s != "" {
      DigitsHaveNoDots(s[..|s| - 1]);
    }
  }

  lemma {:induction false} NoDots(s: string)
    requires '.' !in s
    ensures Dots(s) == 0
  {
    if s != "" {
      NoDots(s[..|s| - 1]);
    }
  }

  lemma {:induction false} DotsConcat(a: string, b: string)
    ensures Dots(a + b) == Dots(a) + Dots(b)
  {
    if b == "" {
      assert a + b == a;
    } else {
      DotsConcat(a, b[..|b| - 1]);
      assert (a + b)[..|a + b| - 1] == a + b[..|b| - 1];
    }
  }

  lemma DotsAround(s: string, d: nat)
    requires d < |s| && s[d] == '.'
    ensures Dots(s) == Dots(s[..d]) + 1 + Dots(s[d + 1..])
  {
    assert s == s[..d + 1] + s[d + 1..] && s[..d + 1][..d] == s[..d];
    DotsConcat(s[..d + 1], s[d + 1..]);
  }

  /** Counting the points and looking only around the first is enough. */
  lemma DecimalIsOneDot(s: string)
    ensures var d := Find(s, '.');
      Decimal(s) <==> Dots(s) == 1 && d != NPOS && Digits(s[..d]) && Digits(s[d + 1..])
  {
    if Decimal(s) {
      DecimalHasOneDot(s);
    }
  }

  lemma DecimalHasOneDot(s: string)
    requires Decimal(s)
    ensures var d := Find(s, '.'); Dots(s) == 1 && d != NPOS && Digits(s[..d]) && Digits(s[d + 1..])
  {
    var d :| 0 <= d < |s| && s[d] == '.' && Digits(s[..d]) && Digits(s[d + 1..]);
    OneDotAt(s, d);
  }

  lemma OneDotAt(s: string, d: nat)
    requires d < |s| && s[d] == '.' && Digits(s[..d]) && Digits(s[d + 1..])
    ensures Dots(s) == 1 && Find(s, '.') == d
  {
    DotsAround(s, d);
    DigitsHaveNoDots(s[..d]);
    DigitsHaveNoDots(s[d + 1..]);
    assert Dots(s[..d]) == 0 && '.' !in s[..d];
    FindAt(s, d, '.');
  }

  lemma FindAt(s: string, d: nat, c: char)
    requires d < |s| && s[d] == c && c !in s[..d]
    ensures Find(s, c) == d
  {
    assert s == s[..d] + [c] + s[d + 1..];
    FindFirst(s[..d], c, s[d + 1..]);
  }

  class Validator {
    const kind: Kind
    var valid: bool

    constructor (kind: Kind)
      ensures this.kind == kind && valid == !kind.Compulsory?
    {
      this.kind := kind;
      valid := !kind.Compulsory?;
    }

    method Reset()
      modifies this
      ensures valid == !kind.Compulsory?
    {
      valid := kind != Compulsory;
    }

    method Visit(value: string)
      modifies this
      ensures valid == WellTyped(kind, value)
    {
      match kind
      case Compulsory => valid := true;
      case Integral => valid := Digits(value);
      case Floating =>
        DecimalIsOneDot(value);
        if Dots(value) == 1 {
          var position := Find(value, '.');
          DigitsHaveNoDots(value);
          if '.' !in value {
            NoDots(value);
          }
          SubstrRest(value, 0, position);
          SubstrRest(value, position + 1, |value|);
          valid := Digits(Substr(value, 0, position)) && Digits(Substr(value, position + 1, |value|));
        } else {
          valid := false;
        }
    }
  }

  lemma VisitedOneMore(rule: Rule, pairs: seq<Pair>, p: Pair)
    ensures Satisfied(rule, pairs + [p]) <==>
              if p.0 != rule.0 then Satisfied(rule, pairs) else WellTyped(rule.1, p.1)
    ensures Satisfied(rule, []) <==> !rule.1.Compulsory?
  {
    var all, n := pairs + [p], |pairs|;
    assert all[n] == p && forall i :: 0 <= i < n ==> all[i] == pairs[i];
    if p.0 != rule.0 && !rule.1.Compulsory? && Satisfied(rule, all) {
      forall i | 0 <= i < n && pairs[i].0 == rule.0 && (forall j :: i < j < n ==> pairs[j].0 != rule.0)
        ensures WellTyped(rule.1, pairs[i].1)
      {
        assert all[i].0 == rule.0 && forall j :: i < j < |all| ==> all[j].0 != rule.0;
      }
    }
    if p.0 != rule.0 && !rule.1.Compulsory? && Satisfied(rule, pairs) {
      forall i | 0 <= i < |all| && all[i].0 == rule.0 && (forall j :: i < j < |all| ==> all[j].0 != rule.0)
        ensures WellTyped(rule.1, all[i].1)
      {
        assert forall j :: i < j < n ==> all[j] == pairs[j];
      }
    }
  }

  /** The validator says whether the pairs satisfy its rule. */
  ghost predicate Shows(v: (string, Validator), pairs: seq<Pair>)
    reads v.1
  {
    v.1.valid <==> Satisfied((v.0, v.1.kind), pairs)
  }

  class SectionValidator {
    /** A multimap: several validators may have the same key. */
    var validators: seq<(string, Validator)>

    ghost predicate Valid()
      reads this
    {
      forall i, j :: 0 <= i < j < |validators| ==> validators[i].1 != validators[j].1
    }

    ghost function Objects(): set<Validator>
      reads this
    {
      set i | 0 <= i < |validators| :: validators[i].1
    }

    function Rules(): (rules: seq<Rule>)
      reads this
      ensures |rules| == |validators|
      ensures forall i :: 0 <= i < |rules| ==> rules[i] == (validators[i].0, validators[i].1.kind)
    {
      seq(|validators|, i requires 0 <= i < |validators| reads this => (validators[i].0, validators[i].1.kind))
    }

    constructor ()
      ensures Valid() && Rules() == []
    {
      validators := [];
    }

    method AddValidator(key: string, kind: Kind)
      requires Valid()
      modifies this
      ensures Valid() && Rules() == old(Rules()) + [(key, kind)]
    {
      var validator := new Validator(kind);
      assert forall i :: 0 <= i < |validators| ==> validators[i].1 != validator;
      validators := validators + [(key, validator)];
    }

    method ResetAll()
      requires Valid()
      modifies Objects()
      ensures forall i :: 0 <= i < |validators| ==> Shows(validators[i], [])
    {
      for i := 0 to |validators|
        invariant forall j :: 0 <= j < i ==> validators[j].1.valid == !validators[j].1.kind.Compulsory?
      {
        validators[i].1.Reset();
      }
    }

    /** Visits the validators of one header, query or path parameter. */
    method VisitAll(ghost before: seq<Pair>, p: Pair)
      requires Valid()
      requires forall i :: 0 <= i < |validators| ==> Shows(validators[i], before)
      modifies Objects()
      ensures forall i :: 0 <= i < |validators| ==> Shows(validators[i], before + [p])
    {
      for i := 0 to |validators|
        invariant forall j :: 0 <= j < i ==> Shows(validators[j], before + [p])
        invariant forall j :: i <= j < |validators| ==> Shows(validators[j], before)
      {
        VisitOne(validators[i], before, p);
      }
    }

    method VisitOne(v: (string, Validator), ghost before: seq<Pair>, p: Pair)
      requires Shows(v, before)
      modifies v.1
      ensures Shows(v, before + [p])
    {
      VisitedOneMore((v.0, v.1.kind), before, p);
      if v.0 == p.0 {
        v.1.Visit(p.1);
      }
    }

    /** Valid exactly when every rule is satisfied, whatever the validators went through before. */
    method Validate(pairs: seq<Pair>) returns (ok: bool)
      requires Valid()
      modifies Objects()
      ensures ok <==> forall rule :: rule in Rules() ==> Satisfied(rule, pairs)
    {
      ResetAll();
      assert pairs[..0] == [];
      for n := 0 to |pairs|
        invariant forall i :: 0 <= i < |validators| ==> Shows(validators[i], pairs[..n])
      {
        VisitAll(pairs[..n], pairs[n]);
        assert pairs[..n + 1] == pairs[..n] + [pairs[n]];
      }
      assert pairs[..|pairs|] == pairs;
      ok := true;
      for i := 0 to |validators|
        invariant ok <==> forall j :: 0 <= j < i ==> Satisfied(Rules()[j], pairs)
        invariant forall j :: 0 <= j < |validators| ==> Shows(validators[j], pairs)
      {
        assert Rules()[i] == (validators[i].0, validators[i].1.kind);
        ok := ok && validators[i].1.valid;
      }
    }
  }

  predicate DistinctKeys(pairs: seq<Pair>) {
    forall i, j :: 0 <= i < j < |pairs| ==> pairs[i].0 != pairs[j].0
  }

  /** With distinct keys a rule is a statement about the set of pairs. */
  lemma SatisfiedBySet(rule: Rule, pairs: seq<Pair>)
    requires DistinctKeys(pairs)
    ensures Satisfied(rule, pairs) <==>
      if rule.1.Compulsory? then exists p :: p in pairs && p.0 == rule.0
      else forall p :: p in pairs && p.0 == rule.0 ==> WellTyped(rule.1, p.1)
  {
    if rule.1.Compulsory? {
      if Satisfied(rule, pairs) {
        var i :| 0 <= i < |pairs| && pairs[i].0 == rule.0;
        assert pairs[i] in pairs;
      }
    } else {
      if Satisfied(rule, pairs) {
        forall p | p in pairs && p.0 == rule.0
          ensures WellTyped(rule.1, p.1)
        {
          var i :| 0 <= i < |pairs| && pairs[i] == p;
          assert forall j :: i < j < |pairs| ==> pairs[j].0 != pairs[i].0;
        }
      }
    }
  }

  /** So for a section with distinct keys, such as a hash map, the verdict does not depend on the
      order in which it is visited. */
  lemma OrderDoesNotMatter(rules: seq<Rule>, a: seq<Pair>, b: seq<Pair>)
    requires DistinctKeys(a) && DistinctKeys(b) && forall p :: p in a <==> p in b
    ensures (forall rule :: rule in rules ==> Satisfied(rule, a)) <==>
            (forall rule :: rule in rules ==> Satisfied(rule, b))
  {
    forall rule | rule in rules
      ensures Satisfied(rule, a) <==> Satisfied(rule, b)
    {
      SatisfiedBySet(rule, a);
      SatisfiedBySet(rule, b);
    }
  }

  /** When a key repeats, the last value decides, whatever the others are and wherever they stand. */
  lemma {:induction false} LastValueDecides(rule: Rule, before: seq<Pair>, value: string, after: seq<Pair>)
    requires !rule.1.Compulsory? && forall p :: p in after ==> p.0 != rule.0
    ensures Satisfied(rule, before + [(rule.0, value)] + after) <==> WellTyped(rule.1, value)
  {
    if after == [] {
      VisitedOneMore(rule, before, (rule.0, value));
      assert before + [(rule.0, value)] + after == before + [(rule.0, value)];
    } else {
      var n := |after| - 1;
      assert after[n] in after;
      LastValueDecides(rule, before, value, after[..n]);
      VisitedOneMore(rule, before + [(rule.0, value)] + after[..n], after[n]);
      assert before + [(rule.0, value)] + after == before + [(rule.0, value)] + after[..n] + [after[n]];
    }
  }

  /** So exchanging two values of a key changes the verdict if and only if exactly one is well typed and
      the key does not occur again. */
  lemma RepeatedKeyOrderMatters(rule: Rule, a: seq<Pair>, v: string, b: seq<Pair>, w: string, c: seq<Pair>)
    requires !rule.1.Compulsory?
    ensures var one := a + [(rule.0, v)] + b + [(rule.0, w)] + c;
            var other := a + [(rule.0, w)] + b + [(rule.0, v)] + c;
      (Satisfied(rule, one) <==> Satisfied(rule, other)) <==>
        (WellTyped(rule.1, v) <==> WellTyped(rule.1, w)) || exists p :: p in c && p.0 == rule.0
  {
    if exists p :: p in c && p.0 == rule.0 {
      var i := LastOccurrence(rule.0, c);
      var x, y := a + [(rule.0, v)] + b + [(rule.0, w)] + c[..i], a + [(rule.0, w)] + b + [(rule.0, v)] + c[..i];
      assert c == c[..i] + [(rule.0, c[i].1)] + c[i + 1..];
      assert x + [(rule.0, c[i].1)] + c[i + 1..] == a + [(rule.0, v)] + b + [(rule.0, w)] + c;
      assert y + [(rule.0, c[i].1)] + c[i + 1..] == a + [(rule.0, w)] + b + [(rule.0, v)] + c;
      LastValueDecides(rule, x, c[i].1, c[i + 1..]);
      LastValueDecides(rule, y, c[i].1, c[i + 1..]);
    } else {
      LastValueDecides(rule, a + [(rule.0, v)] + b, w, c);
      LastValueDecides(rule, a + [(rule.0, w)] + b, v, c);
    }
  }

  lemma LastOccurrence(key: string, c: seq<Pair>) returns (i: nat)
    requires exists p :: p in c && p.0 == key
    ensures i < |c| && c[i].0 == key && forall p :: p in c[i + 1..] ==> p.0 != key
  {
    i := |c| - 1;
    while c[i].0 != key
      invariant i < |c| && forall j :: i < j < |c| ==> c[j].0 != key
      invariant exists p :: p in c[..i + 1] && p.0 == key
      decreases i
    {
      assert c[..i + 1] == c[..i] + [c[i]];
      i := i - 1;
    }
  }
}
