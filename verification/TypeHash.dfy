/** The hash by which message types are told apart, on 64-bit unsigned words. Every character is
    combined with the hash of the characters after it, down to the terminating NUL. */
module TypeHash {
  import opened Word64

  function Xor(a: nat, b: nat): nat {
    if a == 0 && b == 0 then 0 else 2 * Xor(a / 2, b / 2) + (a + b) % 2
  }

  function Pow2(k: nat): nat {
    if k == 0 then 1 else 2 * Pow2(k - 1)
  }

  /** The eight bits of a character. */
  type Char = n: nat | n < 256

  /** A character is signed, so promoting it to 64 bits extends its sign. */
  function Wide(c: Char): nat {
    if c < 128 then c else U64 - 256 + c
  }

  function Mix(h: nat, c: Char): nat {
    (Xor(h, Wide(c)) * 16777619) % U64
  }

  /** The hash of the characters from some position on. */
  function HashFrom(s: seq<Char>): nat {
    if s == [] then 2166136261 else Mix(HashFrom(s[1..]), s[0])
  }

  function Hash(name: seq<Char>): nat {
    HashFrom(name + [0])
  }

  lemma {:induction false} XorBounded(a: nat, b: nat, k: nat)
    requires a < Pow2(k) && b < Pow2(k)
    ensures Xor(a, b) < Pow2(k)
  {
    if k > 0 && !(a == 0 && b == 0) {
      XorBounded(a / 2, b / 2, k - 1);
    }
  }

  lemma {:induction false} XorCommutes(a: nat, b: nat)
    ensures Xor(a, b) == Xor(b, a)
  {
    if !(a == 0 && b == 0) {
      XorCommutes(a / 2, b / 2);
    }
  }

  lemma {:induction false} XorInjective(a: nat, b: nat, u: nat)
    requires Xor(a, u) == Xor(b, u)
    ensures a == b
    decreases a + b + u
  {
    if a + b + u > 0 {
      XorParts(a, u);
      XorParts(b, u);
      XorInjective(a / 2, b / 2, u / 2);
      Halves(a, b, u);
    }
  }

  lemma XorParts(a: nat, u: nat)
    ensures Xor(a, u) / 2 == Xor(a / 2, u / 2) && Xor(a, u) % 2 == (a + u) % 2
  {}

  lemma Halves(a: nat, b: nat, u: nat)
    requires a / 2 == b / 2 && (a + u) % 2 == (b + u) % 2
    ensures a == b
  {}

  /** The multiplier is odd: it has an inverse modulo 2^64. */
  lemma MultiplyInjective(x: nat, y: nat)
    requires x < U64 && y < U64
    requires (x * 16777619) % U64 == (y * 16777619) % U64
    ensures x == y
  {
    Unmultiply(x);
    Unmultiply(y);
  }

  lemma Unmultiply(x: nat)
    requires x < U64
    ensures ((x * 16777619) % U64 * 0x87b5_8b5d_359c_449b) % U64 == x
  {
    var inverse, q := 0x87b5_8b5d_359c_449b, (x * 16777619) / U64;
    var k := (16777619 * inverse - 1) / U64;
    assert 16777619 * inverse == k * U64 + 1;
    assert (x * 16777619) % U64 * inverse == x + U64 * (k * x - q * inverse);
  }

  lemma WideBounded(c: Char)
    ensures Wide(c) < Pow2(64) == U64
  {
    Byte();
    Square(8, 0x100);
    Square(16, 0x1_0000);
    Square(32, 0x1_0000_0000);
  }

  lemma Byte()
    ensures Pow2(8) == 0x100
  {
    assert Pow2(4) == 16;
  }

  lemma Square(k: nat, v: nat)
    requires Pow2(k) == v
    ensures Pow2(2 * k) == v * v
  {
    Pow2Sum(k, k);
  }

  lemma {:induction false} Pow2Sum(a: nat, b: nat)
    ensures Pow2(a + b) == Pow2(a) * Pow2(b)
  {
    if a > 0 {
      Pow2Sum(a - 1, b);
    }
  }

  /** Mixing is injective in the hash and in the character. */
  lemma MixInjective(h: nat, g: nat, c: Char, d: Char)
    requires h < U64 && g < U64 && Mix(h, c) == Mix(g, d)
    ensures h == g <==> c == d
  {
    WideBounded(c);
    WideBounded(d);
    XorBounded(h, Wide(c), 64);
    XorBounded(g, Wide(d), 64);
    MultiplyInjective(Xor(h, Wide(c)), Xor(g, Wide(d)));
    if h == g {
      XorCommutes(h, Wide(c));
      XorCommutes(h, Wide(d));
      XorInjective(Wide(c), Wide(d), h);
    } else if c == d {
      XorInjective(h, g, Wide(c));
    }
  }

  /** A common prefix neither causes nor prevents a collision, whatever follows it. */
  lemma {:induction false} CommonPrefix(p: seq<Char>, a: seq<Char>, b: seq<Char>)
    ensures HashFrom(p + a) == HashFrom(p + b) <==> HashFrom(a) == HashFrom(b)
  {
    if p == [] {
      assert p + a == a && p + b == b;
    } else {
      CommonPrefix(p[1..], a, b);
      HashStep(p, a);
      HashStep(p, b);
      SameMix(HashFrom(p[1..] + a), HashFrom(p[1..] + b), p[0]);
    }
  }

  lemma HashStep(p: seq<Char>, a: seq<Char>)
    requires p != []
    ensures HashFrom(p + a) == Mix(HashFrom(p[1..] + a), p[0]) && HashFrom(p[1..] + a) < U64
  {
    assert (p + a)[1..] == p[1..] + a;
  }

  lemma SameMix(h: nat, g: nat, c: Char)
    requires h < U64 && g < U64
    ensures Mix(h, c) == Mix(g, c) <==> h == g
  {
    if Mix(h, c) == Mix(g, c) {
      MixInjective(h, g, c, c);
    }
  }

  lemma NamesWithCommonPrefix(p: seq<Char>, a: seq<Char>, b: seq<Char>)
    ensures Hash(p + a) == Hash(p + b) <==> Hash(a) == Hash(b)
  {
    assert (p + a) + [0] == p + (a + [0]) && (p + b) + [0] == p + (b + [0]);
    CommonPrefix(p, a + [0], b + [0]);
  }

  lemma {:induction false} XorZero(a: nat)
    ensures Xor(a, 0) == a
  {
    if a > 0 {
      XorZero(a / 2);
    }
  }

  /** The hash of the empty name, whose only character is the terminating NUL. */
  lemma EmptyName()
    ensures Hash([]) == 0x0081_1d69_050c_5d1f
  {
    XorZero(2166136261);
    assert [] + [0] == [0] && [0][1..] == [];
  }

  /** A character is widened to the 64-bit number that is nearest to zero, counting around, among those
      with its eight bits. */
  lemma WideKeepsBits(c: Char)
    ensures Wide(c) % 256 == c && (Wide(c) < 128 || U64 - 128 <= Wide(c) < U64)
  {}

  /** Names of equal length that differ in exactly one character never collide. */
  lemma OneCharacterSeparates(a: seq<Char>, b: seq<Char>, i: nat)
    requires |a| == |b| && i < |a| && a[i] != b[i]
    requires forall j :: 0 <= j < |a| && j != i ==> a[j] == b[j]
    ensures Hash(a) != Hash(b)
  {
    var p, t := a[..i], a[i + 1..] + [0];
    assert p == b[..i] && t == b[i + 1..] + [0];
    assert a + [0] == p + ([a[i]] + t) && b + [0] == p + ([b[i]] + t);
    CommonPrefix(p, [a[i]] + t, [b[i]] + t);
    assert ([a[i]] + t)[1..] == t && ([b[i]] + t)[1..] == t;
    if HashFrom([a[i]] + t) == HashFrom([b[i]] + t) {
      MixInjective(HashFrom(t), HashFrom(t), a[i], b[i]);
    }
  }
}
