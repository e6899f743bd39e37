/** Java language values the client relies on: references that may be null,
    32-bit `int` arithmetic, `byte`, string concatenation of a possibly-null
    `String`, `String.equalsIgnoreCase` and `String.compareTo`. */
module JavaLang {

  /** A Java reference that may be null. */
  datatype Option<+T> = None | Some(value: T)

  /** Java `byte`: signed 8-bit. */
  newtype Byte = b: int | -128 <= b < 128

  type Bytes = seq<Byte>

  const IntMin: int := -0x8000_0000
  const IntMax: int := 0x7FFF_FFFF

  predicate InIntRange(x: int) { IntMin <= x <= IntMax }

  /** Java `int`. */
  type Int32 = x: int | IntMin <= x <= IntMax

  /** Two's complement truncation of a mathematical integer to 32 bits,
      which is what Java's `int` multiplication produces. */
  function Wrap32(x: int): (r: Int32)
    ensures InIntRange(x) ==> r == x
    ensures (r - x) % 0x1_0000_0000 == 0
  {
    (x - IntMin) % 0x1_0000_0000 + IntMin
  }

  /** `x * 2` on Java `int`. */
  function Double32(x: Int32): (r: Int32)
    ensures InIntRange(2 * x) ==> r == 2 * x
    ensures !InIntRange(2 * x) ==> r != 2 * x
    ensures x >= 0 && !InIntRange(2 * x) ==> r < 0
  {
    Wrap32(2 * x)
  }

  function Pow2(k: nat): (r: nat)
    ensures r >= 1
  {
    if k == 0 then 1 else 2 * Pow2(k - 1)
  }

  /** `x` doubled `k` times with Java `int` wrap-around. */
  function Doubled(x: Int32, k: nat): Int32
    decreases k
  {
    if k == 0 then x else Doubled(Double32(x), k - 1)
  }

  lemma DoubleStaysInRange(x: int, p: nat)
    requires p >= 2
    requires InIntRange(x * p)
    ensures InIntRange(2 * x)
  {
    var q: nat := p - 2;
    assert x * p == x * 2 + x * q;
    if x >= 0 {
      assert x * q >= 0;
    } else {
      assert x * q <= 0;
    }
  }

  /** As long as `x * 2^k` fits in an `int`, doubling `k` times with
      wrap-around is exact multiplication by 2^k. */
  lemma {:induction false} DoubledExact(x: Int32, k: nat)
    requires InIntRange(x * Pow2(k))
    ensures Doubled(x, k) == x * Pow2(k)
    decreases k
  {
    if k > 0 {
      assert x * Pow2(k) == (2 * x) * Pow2(k - 1);
      DoubleStaysInRange(x, Pow2(k));
      DoubledExact(Double32(x), k - 1);
    }
  }

  /** Java's rendering of a possibly-null `String` in a `+` concatenation. */
  function Render(s: Option<string>): (r: string)
    ensures s.Some? ==> r == s.value
    ensures s.None? ==> r == "null"
  {
    match s
    case None => "null"
    case Some(v) => v
  }

  /** Lower-case folding of ASCII letters; every other character is kept. */
  function FoldCase(c: char): char
  {
    if 'A' <= c <= 'Z' then (c as int + 32) as char else c
  }

  /** `a.equalsIgnoreCase(b)`, with case folding restricted to ASCII letters. */
  predicate EqualsIgnoreCase(a: string, b: string)
  {
    |a| == |b| && forall i :: 0 <= i < |a| ==> FoldCase(a[i]) == FoldCase(b[i])
  }

  /** `a.compareTo(b) < 0`: lexicographic on characters, a proper prefix first. */
  predicate Less(a: string, b: string)
  {
    if |a| == 0 then |b| > 0
    else if |b| == 0 then false
    else if a[0] != b[0] then a[0] < b[0]
    else Less(a[1..], b[1..])
  }

  lemma {:induction false} LessIrreflexive(a: string)
    ensures !Less(a, a)
  {
    if |a| > 0 {
      LessIrreflexive(a[1..]);
    }
  }

  lemma {:induction false} LessTransitive(a: string, b: string, c: string)
    requires Less(a, b) && Less(b, c)
    ensures Less(a, c)
  {
    if |a| > 0 && |b| > 0 && |c| > 0 && a[0] == b[0] && b[0] == c[0] {
      LessTransitive(a[1..], b[1..], c[1..]);
    }
  }

  /** `compareTo` is a total order: two different strings are comparable. */
  lemma {:induction false} LessTotal(a: string, b: string)
    ensures a == b || Less(a, b) || Less(b, a)
  {
    if |a| > 0 && |b| > 0 && a[0] == b[0] {
      LessTotal(a[1..], b[1..]);
      if a[1..] == b[1..] {
        assert a == [a[0]] + a[1..] && b == [b[0]] + b[1..];
      }
    }
  }

  lemma LessAsymmetric(a: string, b: string)
    requires Less(a, b)
    ensures !Less(b, a)
  {
    if Less(b, a) {
      LessTransitive(a, b, a);
      LessIrreflexive(a);
    }
  }

  lemma LessImpliesDifferent(a: string, b: string)
    requires Less(a, b)
    ensures a != b
  {
    LessIrreflexive(a);
  }
}
