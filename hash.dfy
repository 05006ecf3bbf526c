/**
 * `hashString`, the bookmark id function of the content script: the 32-bit
 * hash `hash = (hash << 5) - hash + code`, truncated to a signed 32-bit
 * integer after every character. JavaScript's `<<` and `|= 0` convert to a
 * signed 32-bit integer; that wrap-around is written out here.
 */
module Hash {

  const TWO_31: int := 0x8000_0000
  const TWO_32: int := 0x1_0000_0000

  predicate IsInt32(x: int) {
    -TWO_31 <= x < TWO_31
  }

  /** ECMAScript's ToInt32: the signed 32-bit integer congruent to `x` modulo 2^32. */
  function ToInt32(x: int): (r: int)
    ensures IsInt32(r)
  {
    (x + TWO_31) % TWO_32 - TWO_31
  }

  /** ToInt32 only subtracts a multiple of 2^32. */
  lemma ToInt32Wraps(x: int)
    ensures (x - ToInt32(x)) % TWO_32 == 0
  {
    var r := (x + TWO_31) % TWO_32;
    assert x + TWO_31 == TWO_32 * ((x + TWO_31) / TWO_32) + r;
    assert x - ToInt32(x) == TWO_32 * ((x + TWO_31) / TWO_32);
    ModAddMultiple(0, (x + TWO_31) / TWO_32);
  }

  /** ToInt32 leaves a signed 32-bit integer unchanged. */
  lemma ToInt32Small(x: int)
    requires IsInt32(x)
    ensures ToInt32(x) == x
  {
  }

  /** Numbers congruent modulo 2^32 have the same ToInt32. */
  lemma ToInt32Congruent(x: int, y: int)
    requires (x - y) % TWO_32 == 0
    ensures ToInt32(x) == ToInt32(y)
  {
    var q := (x - y) / TWO_32;
    assert x + TWO_31 == (y + TWO_31) + TWO_32 * q;
    ModAddMultiple(y + TWO_31, q);
  }

  lemma ModAddMultiple(a: int, q: int)
    ensures (a + TWO_32 * q) % TWO_32 == a % TWO_32
  {
    var r := a % TWO_32;
    var d := a / TWO_32;
    assert a + TWO_32 * q == TWO_32 * (d + q) + r;
  }

  /** `h << 5` for a signed 32-bit `h`. */
  function ShiftLeft5(h: int): int {
    ToInt32(h * 32)
  }

  /** One iteration of the loop: `hash = (hash << 5) - hash + code; hash |= 0`. */
  function HashStep(h: int, c: char): int {
    ToInt32(ShiftLeft5(h) - h + c as int)
  }

  /** The hash of a string: the loop's steps applied from the first character to the last. */
  function HashOf(s: string): (r: int)
    ensures IsInt32(r)
  {
    if s == [] then 0 else HashStep(HashOf(s[..|s| - 1]), s[|s| - 1])
  }

  /** The polynomial `s[0]*31^(n-1) + ... + s[n-1]` over the unbounded integers. */
  function Poly(s: string): int {
    if s == [] then 0 else 31 * Poly(s[..|s| - 1]) + s[|s| - 1] as int
  }

  /** The shift-and-subtract step is multiplication by 31, modulo 2^32. */
  lemma StepIsTimes31(h: int, c: char)
    ensures HashStep(h, c) == ToInt32(31 * h + c as int)
  {
    var s := ToInt32(h * 32);
    ToInt32Wraps(h * 32);
    assert (s - h + c as int) - (31 * h + c as int) == -(h * 32 - s);
    ToInt32Congruent(s - h + c as int, 31 * h + c as int);
  }

  /** The hash is the 31-polynomial of the character codes, wrapped to 32 bits once at the end. */
  lemma {:induction false} HashIsPolynomial(s: string)
    ensures HashOf(s) == ToInt32(Poly(s))
  {
    if s != [] {
      var init, c := s[..|s| - 1], s[|s| - 1];
      HashIsPolynomial(init);
      var h, p := HashOf(init), Poly(init);
      assert HashOf(s) == HashStep(h, c);
      assert Poly(s) == 31 * p + c as int;
      StepIsTimes31(h, c);
      Times31Congruent(h, p, c as int);
    }
  }

  /** Multiplying by 31 and adding a code keeps numbers congruent modulo 2^32. */
  lemma Times31Congruent(a: int, b: int, c: int)
    requires ToInt32(a) == ToInt32(b)
    ensures ToInt32(31 * a + c) == ToInt32(31 * b + c)
  {
    var q := (a - b) / TWO_32;
    assert (a - b) % TWO_32 == 0 by {
      ToInt32Wraps(a);
      ToInt32Wraps(b);
      var qa, qb := (a - ToInt32(a)) / TWO_32, (b - ToInt32(b)) / TWO_32;
      assert a - b == TWO_32 * (qa - qb);
      ModAddMultiple(0, qa - qb);
    }
    assert a - b == TWO_32 * q;
    assert (31 * a + c) - (31 * b + c) == TWO_32 * (31 * q);
    ModAddMultiple(0, 31 * q);
    ToInt32Congruent(31 * a + c, 31 * b + c);
  }

  /** Worked values: the empty string hashes to 0, one character to its code, and "ab" to 97*31 + 98. */
  lemma HashExamples()
    ensures HashOf("") == 0
    ensures HashOf("a") == 97
    ensures HashOf("ab") == 3105
  {
    assert "ab"[..1] == "a";
    assert "a"[..0] == "";
    StepIsTimes31(0, 'a');
    StepIsTimes31(97, 'b');
  }

  /** `hashString(value)`, with the loop of the source; the result is the number before its decimal rendering. */
  method HashString(value: string) returns (hash: int)
    ensures hash == HashOf(value)
    ensures hash == ToInt32(Poly(value))
  {
    hash := 0;
    for i := 0 to |value|
      invariant hash == HashOf(value[..i])
    {
      assert value[..i + 1][..i] == value[..i];
      hash := ToInt32(ToInt32(hash * 32) - hash + value[i] as int);
    }
    assert value[..|value|] == value;
    HashIsPolynomial(value);
  }
}
