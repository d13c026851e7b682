/**
 The calculator tool's evaluator (packages/core/agent/tools.py). Integers are
 exact; a float or complex value is only named, by a code, and what Python
 computes with one is a parameter.
 */
module Calculator {
  import opened Wrappers

  const MAX_POW_EXP: nat := 1000
  const MAX_RESULT_BITS: nat := 1_000_000

  datatype Number = Int(n: int) | Inexact(code: nat)

  datatype Op = Add | Sub | Mult | Div | FloorDiv | Mod | Pow

  /** `Other` is any node outside the allowlist. */
  datatype Expr = Const(value: Number) | Plus(operand: Expr) | Minus(operand: Expr)
                | Bin(op: Op, left: Expr, right: Expr) | Other

  datatype Error = ExponentTooLarge | ResultTooLarge | ZeroDivision | Unsupported | InexactError

  /**
   What Python does where a value is not an integer: is it larger than the
   exponent cap, which whole number does it truncate to (a NaN has none), what
   is its negation, and what is an operation's inexact result.
   */
  datatype Inexactness = Inexactness(
    tooBig: nat -> bool,
    whole: nat -> Option<int>,
    negate: nat -> nat,
    apply: (Op, Number, Number) -> Result<nat, Error>)

  function Abs(n: int): nat {
    if n < 0 then -n else n
  }

  // ------------------------------------------------------------------ bit lengths

  function Pow2(k: nat): nat {
    if k == 0 then 1 else 2 * Pow2(k - 1)
  }

  function NatBits(n: nat): nat {
    if n == 0 then 0 else 1 + NatBits(n / 2)
  }

  /** int.bit_length */
  function Bits(n: int): nat {
    NatBits(Abs(n))
  }

  /** The bit length is the least power of two above the number. */
  lemma {:induction false} BitsBracket(n: nat)
    ensures n < Pow2(NatBits(n))
    ensures 0 < n ==> 0 < NatBits(n) && Pow2(NatBits(n) - 1) <= n
  {
    if n > 1 {
      BitsBracket(n / 2);
    } else if n == 1 {
      assert NatBits(0) == 0;
    }
  }

  lemma {:induction false} Pow2Monotone(j: nat, k: nat)
    requires j <= k
    ensures 0 < Pow2(j) <= Pow2(k)
  {
    if j < k {
      Pow2Monotone(j, k - 1);
    } else if j > 0 {
      Pow2Monotone(j - 1, j - 1);
    }
  }

  lemma DoubledFactor(a: int, b: int)
    ensures 2 * a * b == 2 * (a * b)
  {
  }

  lemma {:induction false} Pow2Adds(j: nat, k: nat)
    ensures Pow2(j + k) == Pow2(j) * Pow2(k)
  {
    if j > 0 {
      Pow2Adds(j - 1, k);
      assert Pow2(j + k) == 2 * Pow2((j - 1) + k);
      DoubledFactor(Pow2(j - 1), Pow2(k));
    }
  }

  lemma {:induction false} BitsAtMost(n: nat, k: nat)
    requires n < Pow2(k)
    ensures NatBits(n) <= k
  {
    if n > 0 {
      BitsAtMost(n / 2, k - 1);
    }
  }

  lemma {:induction false} BitsAtLeast(n: nat, k: nat)
    requires Pow2(k) <= n
    ensures k + 1 <= NatBits(n)
  {
    if k > 0 {
      BitsAtLeast(n / 2, k - 1);
    }
  }

  lemma BitsMonotone(m: nat, n: nat)
    requires m <= n
    ensures NatBits(m) <= NatBits(n)
  {
    BitsBracket(n);
    BitsAtMost(m, NatBits(n));
  }

  lemma LessTimesLess(a: nat, b: nat, c: nat, d: nat)
    requires a < c && b < d
    ensures a * b < c * d
  {
    assert a * b <= a * d;
    assert a * d < c * d;
  }

  lemma MostTimesMost(a: nat, b: nat, c: nat, d: nat)
    requires a <= c && b <= d
    ensures a * b <= c * d
  {
    assert a * b <= a * d;
    assert a * d <= c * d;
  }

  lemma BelowBoth(a: nat, b: nat, j: nat, k: nat)
    requires a < Pow2(j) && b < Pow2(k)
    ensures a * b < Pow2(j + k)
  {
    Pow2Adds(j, k);
    LessTimesLess(a, b, Pow2(j), Pow2(k));
  }

  lemma ProductBelow(a: nat, b: nat, n: nat, j: nat, k: nat)
    requires n == a * b && j == NatBits(a) && k == NatBits(b)
    ensures n < Pow2(j + k)
  {
    BitsBracket(a);
    BitsBracket(b);
    BelowBoth(a, b, j, k);
  }

  lemma ProductBitsAbove(a: nat, b: nat, n: nat, j: nat, k: nat)
    requires n == a * b && j == NatBits(a) && k == NatBits(b)
    ensures NatBits(n) <= j + k
  {
    ProductBelow(a, b, n, j, k);
    BitsAtMost(n, j + k);
  }

  lemma ProductBitsBelow(a: nat, b: nat)
    requires 0 < a && 0 < b
    ensures NatBits(a) + NatBits(b) <= NatBits(a * b) + 1
  {
    BitsBracket(a);
    BitsBracket(b);
    var j, k := NatBits(a) - 1, NatBits(b) - 1;
    Pow2Adds(j, k);
    MostTimesMost(Pow2(j), Pow2(k), a, b);
    BitsAtLeast(a * b, j + k);
  }

  /** A product has as many bits as its factors together, or one fewer. */
  lemma ProductBits(a: nat, b: nat)
    ensures NatBits(a * b) <= NatBits(a) + NatBits(b)
    ensures 0 < a && 0 < b ==> NatBits(a) + NatBits(b) <= NatBits(a * b) + 1
  {
    ProductBitsAbove(a, b, a * b, NatBits(a), NatBits(b));
    if 0 < a && 0 < b { ProductBitsBelow(a, b); }
  }

  function Power(base: int, exponent: nat): int {
    if exponent == 0 then 1 else base * Power(base, exponent - 1)
  }

  lemma AbsTimes(a: int, b: int)
    ensures Abs(a * b) == Abs(a) * Abs(b)
  {
  }

  lemma OneMore(e: nat, b: int)
    ensures (e + 1) * b == e * b + b
  {
  }

  /** The bits of a signed product. */
  lemma TimesBits(a: int, b: int, n: int)
    requires n == a * b
    ensures Bits(n) <= Bits(a) + Bits(b)
    ensures a != 0 && b != 0 ==> n != 0 && Bits(a) + Bits(b) <= Bits(n) + 1
  {
    AbsTimes(a, b);
    ProductBits(Abs(a), Abs(b));
  }

  lemma {:induction false} PowerBitsAbove(base: int, exponent: nat)
    requires exponent > 0
    ensures Bits(Power(base, exponent)) <= exponent * Bits(base)
  {
    if exponent == 1 {
      assert Power(base, 0) == 1;
    } else {
      PowerBitsAbove(base, exponent - 1);
      TimesBits(base, Power(base, exponent - 1), Power(base, exponent));
      OneMore(exponent - 1, Bits(base));
    }
  }

  lemma {:induction false} PowerBitsBelow(base: int, exponent: nat)
    requires base != 0
    ensures Power(base, exponent) != 0 && exponent * (Bits(base) - 1) < Bits(Power(base, exponent))
  {
    if exponent == 0 {
      assert NatBits(1) == 1 + NatBits(0);
    } else {
      PowerBitsBelow(base, exponent - 1);
      TimesBits(base, Power(base, exponent - 1), Power(base, exponent));
      OneMore(exponent - 1, Bits(base) - 1);
    }
  }

  /** A power has at most exponent times the base's bits, and hardly fewer. */
  lemma PowerBits(base: int, exponent: nat)
    ensures Bits(Power(base, exponent)) <= if exponent == 0 then 1 else exponent * Bits(base)
    ensures base != 0 ==> Power(base, exponent) != 0 && exponent * (Bits(base) - 1) < Bits(Power(base, exponent))
  {
    if exponent == 0 {
      assert NatBits(1) == 1 + NatBits(0);
    } else {
      PowerBitsAbove(base, exponent);
    }
    if base != 0 { PowerBitsBelow(base, exponent); }
  }

  lemma SumFits(a: int, b: int, k: nat)
    requires Abs(a) < Pow2(k) && Abs(b) < Pow2(k)
    ensures Bits(a + b) <= k + 1
  {
    assert Abs(a + b) < 2 * Pow2(k);
    assert Pow2(k + 1) == 2 * Pow2(k);
    BitsAtMost(Abs(a + b), k + 1);
  }

  lemma SumBits(a: int, b: int)
    ensures Bits(a + b) <= 1 + if Bits(a) < Bits(b) then Bits(b) else Bits(a)
  {
    var k := if Bits(a) < Bits(b) then Bits(b) else Bits(a);
    BitsBracket(Abs(a));
    BitsBracket(Abs(b));
    Pow2Monotone(Bits(a), k);
    Pow2Monotone(Bits(b), k);
    SumFits(a, b, k);
  }

  // ------------------------------------------------------------------ Python's // and %

  function FloorDivide(a: int, b: int): int
    requires b != 0
  {
    if b > 0 then a / b else (-a) / (-b)
  }

  function Modulo(a: int, b: int): int
    requires b != 0
  {
    a - b * FloorDivide(a, b)
  }

  /** The remainder takes the divisor's sign; quotient and remainder are the only such pair. */
  lemma FloorDivision(a: int, b: int)
    requires b != 0
    ensures a == b * FloorDivide(a, b) + Modulo(a, b)
    ensures if b > 0 then 0 <= Modulo(a, b) < b else b < Modulo(a, b) <= 0
    ensures Abs(FloorDivide(a, b)) <= Abs(a)
  {
    if b > 0 {
      assert Modulo(a, b) == a % b;
      SmallQuotient(a, b, a / b, a % b);
    } else {
      var q := (-a) / (-b);
      assert -a == (-b) * q + (-a) % (-b);
      assert b * q == -((-b) * q);
      SmallQuotient(-a, -b, q, (-a) % (-b));
    }
  }

  lemma TimesAtLeast(b: int, q: int)
    requires b > 0 && q >= 0
    ensures b * q >= q
  {
  }

  lemma SmallQuotient(a: int, b: int, q: int, r: int)
    requires b > 0 && a == b * q + r && 0 <= r < b
    ensures Abs(q) <= Abs(a)
  {
    if q >= 0 {
      TimesAtLeast(b, q);
    } else {
      TimesAtLeast(b, -q - 1);
      assert b * (-q - 1) == -(b * q) - b;
    }
  }

  // ------------------------------------------------------------------ evaluation

  /** The guards that run before an operation is computed. */
  function Guard(x: Inexactness, op: Op, l: Number, r: Number): Option<Error> {
    match op
    case Pow =>
      if (match r case Int(n) => Abs(n) > MAX_POW_EXP case Inexact(c) => x.tooBig(c)) then Some(ExponentTooLarge)
      else if l.Int? then
        var whole := match r case Int(n) => Some(n) case Inexact(c) => x.whole(c);
        if whole.None? then Some(InexactError)
        else if Bits(l.n) * Abs(whole.value) > MAX_RESULT_BITS then Some(ResultTooLarge)
        else None
      else None
    case Mult =>
      if l.Int? && r.Int? && Bits(l.n) + Bits(r.n) > MAX_RESULT_BITS then Some(ResultTooLarge) else None
    case _ => None
  }

  function Named(r: Result<nat, Error>): Result<Number, Error> {
    match r case Success(c) => Success(Inexact(c)) case Failure(e) => Failure(e)
  }

  /** The operator itself, as Python computes it. */
  function Apply(x: Inexactness, op: Op, l: Number, r: Number): Result<Number, Error> {
    if l.Int? && r.Int? then
      match op
      case Add => Success(Int(l.n + r.n))
      case Sub => Success(Int(l.n - r.n))
      case Mult => Success(Int(l.n * r.n))
      case Div => if r.n == 0 then Failure(ZeroDivision) else Named(x.apply(op, l, r))
      case FloorDiv => if r.n == 0 then Failure(ZeroDivision) else Success(Int(FloorDivide(l.n, r.n)))
      case Mod => if r.n == 0 then Failure(ZeroDivision) else Success(Int(Modulo(l.n, r.n)))
      case Pow =>
        if r.n >= 0 then Success(Int(Power(l.n, r.n)))
        else if l.n == 0 then Failure(ZeroDivision)
        else Named(x.apply(op, l, r))
    else Named(x.apply(op, l, r))
  }

  function Negate(x: Inexactness, v: Number): Number {
    match v case Int(n) => Int(-n) case Inexact(c) => Inexact(x.negate(c))
  }

  function Eval(x: Inexactness, e: Expr): Result<Number, Error> {
    match e
    case Const(v) => Success(v)
    case Plus(a) => Eval(x, a)
    case Minus(a) => (match Eval(x, a) case Success(v) => Success(Negate(x, v)) case Failure(er) => Failure(er))
    case Bin(op, a, b) =>
      var l := Eval(x, a);
      if l.Failure? then l
      else
        var r := Eval(x, b);
        if r.Failure? then r
        else if Guard(x, op, l.value, r.value).Some? then Failure(Guard(x, op, l.value, r.value).value)
        else Apply(x, op, l.value, r.value)
    case Other => Failure(Unsupported)
  }

  // ------------------------------------------------------------------ the bound

  function MaxOf(a: nat, b: nat): nat {
    if a < b then b else a
  }

  function LongestLiteral(e: Expr): nat {
    match e
    case Const(v) => if v.Int? then Bits(v.n) else 0
    case Plus(a) => LongestLiteral(a)
    case Minus(a) => LongestLiteral(a)
    case Bin(_, a, b) => MaxOf(LongestLiteral(a), LongestLiteral(b))
    case Other => 0
  }

  /** The longest chain of additions and subtractions from the root to a leaf. */
  function SumDepth(e: Expr): nat {
    match e
    case Plus(a) => SumDepth(a)
    case Minus(a) => SumDepth(a)
    case Bin(op, a, b) => MaxOf(SumDepth(a), SumDepth(b)) + if op.Add? || op.Sub? then 1 else 0
    case _ => 0
  }

  function Sums(e: Expr): nat {
    match e
    case Plus(a) => Sums(a)
    case Minus(a) => Sums(a)
    case Bin(op, a, b) => Sums(a) + Sums(b) + if op.Add? || op.Sub? then 1 else 0
    case _ => 0
  }

  function Bound(e: Expr): nat {
    MaxOf(LongestLiteral(e), MAX_RESULT_BITS) + SumDepth(e)
  }

  predicate Fits(v: Number, bits: nat) {
    v.Int? ==> Bits(v.n) <= bits
  }

  /** One operation let through by its guard stays within the bound. */
  lemma OperationFits(x: Inexactness, op: Op, l: Number, r: Number, bits: nat)
    requires MAX_RESULT_BITS <= bits && Fits(l, bits) && Fits(r, bits)
    requires Guard(x, op, l, r).None? && Apply(x, op, l, r).Success?
    ensures Fits(Apply(x, op, l, r).value, if op.Add? || op.Sub? then bits + 1 else bits)
  {
    if l.Int? && r.Int? {
      match op
      case Add => SumBits(l.n, r.n);
      case Sub => SumBits(l.n, -r.n);
      case Mult =>
        AbsTimes(l.n, r.n);
        ProductBits(Abs(l.n), Abs(r.n));
      case FloorDiv =>
        FloorDivision(l.n, r.n);
        BitsMonotone(Abs(FloorDivide(l.n, r.n)), Abs(l.n));
      case Mod =>
        FloorDivision(l.n, r.n);
        BitsMonotone(Abs(Modulo(l.n, r.n)), Abs(r.n));
      case Pow => if r.n >= 0 { PowerBits(l.n, r.n); }
      case Div =>
    }
  }

  /** Every integer an evaluation yields is at most as long as the bound of its expression. */
  lemma {:induction false} ResultFits(x: Inexactness, e: Expr)
    requires Eval(x, e).Success?
    ensures Fits(Eval(x, e).value, Bound(e))
  {
    match e
    case Const(_) =>
    case Plus(a) => ResultFits(x, a);
    case Minus(a) => ResultFits(x, a);
    case Bin(op, a, b) =>
      ResultFits(x, a);
      ResultFits(x, b);
      OperationFits(x, op, Eval(x, a).value, Eval(x, b).value, MaxOf(Bound(a), Bound(b)));
    case Other =>
  }

  predicate Within(s: Expr, e: Expr) {
    s == e ||
    match e
    case Plus(a) => Within(s, a)
    case Minus(a) => Within(s, a)
    case Bin(_, a, b) => Within(s, a) || Within(s, b)
    case _ => false
  }

  lemma {:induction false} DepthAtMostSums(e: Expr)
    ensures SumDepth(e) <= Sums(e)
  {
    match e
    case Plus(a) => DepthAtMostSums(a);
    case Minus(a) => DepthAtMostSums(a);
    case Bin(_, a, b) =>
      DepthAtMostSums(a);
      DepthAtMostSums(b);
    case _ =>
  }

  lemma {:induction false} BoundGrows(s: Expr, e: Expr)
    requires Within(s, e)
    ensures LongestLiteral(s) <= LongestLiteral(e) && SumDepth(s) <= SumDepth(e)
  {
    if s != e {
      match e
      case Plus(a) => BoundGrows(s, a);
      case Minus(a) => BoundGrows(s, a);
      case Bin(_, a, b) => if Within(s, a) { BoundGrows(s, a); } else { BoundGrows(s, b); }
      case _ =>
    }
  }

  /** Every integer produced anywhere inside an evaluation is bounded by the whole expression. */
  lemma EveryIntegerIsBounded(x: Inexactness, e: Expr, s: Expr)
    requires Within(s, e) && Eval(x, s).Success? && Eval(x, s).value.Int?
    ensures Bits(Eval(x, s).value.n) <= MaxOf(LongestLiteral(e), MAX_RESULT_BITS) + SumDepth(e)
    ensures Bits(Eval(x, s).value.n) <= MaxOf(LongestLiteral(e), MAX_RESULT_BITS) + Sums(e)
  {
    ResultFits(x, s);
    BoundGrows(s, e);
    DepthAtMostSums(e);
  }

  // ------------------------------------------------------------------ the guards change no value

  /** Plain Python arithmetic over the same tree, with no guard. */
  function Exact(x: Inexactness, e: Expr): Result<Number, Error> {
    match e
    case Const(v) => Success(v)
    case Plus(a) => Exact(x, a)
    case Minus(a) => (match Exact(x, a) case Success(v) => Success(Negate(x, v)) case Failure(er) => Failure(er))
    case Bin(op, a, b) =>
      var l := Exact(x, a);
      if l.Failure? then l
      else
        var r := Exact(x, b);
        if r.Failure? then r else Apply(x, op, l.value, r.value)
    case Other => Failure(Unsupported)
  }

  /** No operation of the plain evaluation would be refused. */
  predicate Unguarded(x: Inexactness, e: Expr) {
    match e
    case Plus(a) => Unguarded(x, a)
    case Minus(a) => Unguarded(x, a)
    case Bin(op, a, b) =>
      && Unguarded(x, a) && Unguarded(x, b)
      && (Exact(x, a).Success? && Exact(x, b).Success? ==> Guard(x, op, Exact(x, a).value, Exact(x, b).value).None?)
    case _ => true
  }

  /** A guarded result is the plain one; the guards only ever refuse. */
  lemma {:induction false} GuardsOnlyRefuse(x: Inexactness, e: Expr)
    ensures Unguarded(x, e) ==> Eval(x, e) == Exact(x, e)
    ensures Eval(x, e).Success? ==> Eval(x, e) == Exact(x, e) && Unguarded(x, e)
  {
    match e
    case Const(_) =>
    case Plus(a) => GuardsOnlyRefuse(x, a);
    case Minus(a) => GuardsOnlyRefuse(x, a);
    case Bin(_, a, b) =>
      GuardsOnlyRefuse(x, a);
      GuardsOnlyRefuse(x, b);
    case Other =>
  }

  /** A nonzero product refused as too large has at least as many bits as the cap. */
  lemma RefusedProductsAreLong(x: Inexactness, a: int, b: int)
    requires Guard(x, Mult, Int(a), Int(b)).Some? && a != 0 && b != 0
    ensures Bits(a * b) >= MAX_RESULT_BITS
  {
    AbsTimes(a, b);
    ProductBits(Abs(a), Abs(b));
  }

  /** A power refused for its length has at least the cap's bits, less one for each step of the exponent. */
  lemma RefusedPowersAreLong(x: Inexactness, a: int, b: nat)
    requires Guard(x, Pow, Int(a), Int(b)) == Some(ResultTooLarge)
    ensures Bits(Power(a, b)) > MAX_RESULT_BITS - MAX_POW_EXP
  {
    assert Bits(a) * b > MAX_RESULT_BITS;
    if a != 0 {
      PowerBits(a, b);
      assert b * (Bits(a) - 1) == Bits(a) * b - b;
    }
  }

  // ------------------------------------------------------------------ what every node computes

  predicate Divides(m: int, n: int, q: int, r: int) {
    m == n * q + r && if n > 0 then 0 <= r < n else n < r <= 0
  }

  lemma SmallMultiple(n: int, k: int)
    requires n != 0 && Abs(n * k) < Abs(n)
    ensures k == 0
  {
    AbsTimes(n, k);
    if k != 0 { TimesAtLeast(Abs(k), Abs(n)); }
  }

  lemma MultiplesApart(n: int, q: int, r: int, q': int, r': int)
    requires n * q + r == n * q' + r'
    ensures n * (q - q') == r' - r
  {
  }

  lemma SmallApart(n: int, r: int, r': int)
    requires n != 0 && (if n > 0 then 0 <= r < n else n < r <= 0) && (if n > 0 then 0 <= r' < n else n < r' <= 0)
    ensures Abs(r' - r) < Abs(n)
  {
  }

  /** No other quotient and remainder satisfy the division identity with the divisor's sign. */
  lemma OneQuotient(m: int, n: int, q: int, r: int)
    requires n != 0 && Divides(m, n, q, r)
    ensures q == FloorDivide(m, n) && r == Modulo(m, n)
  {
    FloorDivision(m, n);
    var q', r' := FloorDivide(m, n), Modulo(m, n);
    MultiplesApart(n, q, r, q', r');
    SmallApart(n, r, r');
    SmallMultiple(n, q - q');
  }

  function Product(factors: seq<int>): int {
    if factors == [] then 1 else Product(factors[..|factors| - 1]) * factors[|factors| - 1]
  }

  lemma {:induction false} PowerIsProduct(base: int, exponent: nat)
    ensures Power(base, exponent) == Product(seq(exponent, _ => base))
  {
    if exponent > 0 {
      PowerIsProduct(base, exponent - 1);
      assert seq(exponent, _ => base)[..exponent - 1] == seq(exponent - 1, _ => base);
    }
  }

  /** `r` is the float or the error Python came to. */
  predicate Measured(inexact: Result<nat, Error>, r: Result<Number, Error>) {
    if inexact.Success? then r == Success(Inexact(inexact.value)) else r == Failure(inexact.error)
  }

  /** `r` is what the operation comes to when its operands are `m` and `n`. */
  ghost predicate Computes(x: Inexactness, op: Op, m: int, n: int, r: Result<Number, Error>) {
    match op
    case Add => r == Success(Int(m + n))
    case Sub => r == Success(Int(m - n))
    case Mult => r == if Bits(m) + Bits(n) > 1_000_000 then Failure(ResultTooLarge) else Success(Int(m * n))
    case Div =>
      if n == 0 then r == Failure(ZeroDivision)
      else Measured(x.apply(Div, Int(m), Int(n)), r)
    case FloorDiv =>
      if n == 0 then r == Failure(ZeroDivision) else exists q, rest :: Divides(m, n, q, rest) && r == Success(Int(q))
    case Mod =>
      if n == 0 then r == Failure(ZeroDivision) else exists q, rest :: Divides(m, n, q, rest) && r == Success(Int(rest))
    case Pow =>
      if n > 1000 || n < -1000 then r == Failure(ExponentTooLarge)
      else if Bits(m) * Abs(n) > 1_000_000 then r == Failure(ResultTooLarge)
      else if n >= 0 then r == Success(Int(Product(seq(n, _ => m))))
      else if m == 0 then r == Failure(ZeroDivision)
      else Measured(x.apply(Pow, Int(m), Int(n)), r)
  }

  /**
   What each node over integers evaluates to: the sum, difference and product;
   the one quotient and remainder; the exponent's count of equal factors; and
   each refusal. A failure of an operand is the node's, the left one first.
   */
  lemma NodesCompute(x: Inexactness, op: Op, a: Expr, b: Expr)
    ensures var l, r, v := Eval(x, a), Eval(x, b), Eval(x, Bin(op, a, b));
            if l.Failure? then v == l
            else if r.Failure? then v == r
            else l.value.Int? && r.value.Int? ==> Computes(x, op, l.value.n, r.value.n, v)
  {
    var l, r := Eval(x, a), Eval(x, b);
    if l.Success? && r.Success? && l.value.Int? && r.value.Int? {
      var m, n := l.value.n, r.value.n;
      match op
      case FloorDiv => if n != 0 { FloorDivision(m, n); assert Divides(m, n, FloorDivide(m, n), Modulo(m, n)); }
      case Mod => if n != 0 { FloorDivision(m, n); assert Divides(m, n, FloorDivide(m, n), Modulo(m, n)); }
      case Pow => if n >= 0 { PowerIsProduct(m, n); }
      case _ =>
    }
  }

  /** A sign in front negates an integer, or leaves it. */
  lemma SignsCompute(x: Inexactness, a: Expr, n: int)
    requires Eval(x, a) == Success(Int(n))
    ensures Eval(x, Minus(a)) == Success(Int(-n)) && Eval(x, Plus(a)) == Success(Int(n))
  {
  }

  /** An operation with an inexact operand is Python's, but for the caps on an exponent. */
  lemma InexactNodesCompute(x: Inexactness, op: Op, a: Expr, b: Expr)
    requires Eval(x, a).Success? && Eval(x, b).Success?
    requires Eval(x, a).value.Inexact? || Eval(x, b).value.Inexact?
    ensures var l, r, v := Eval(x, a).value, Eval(x, b).value, Eval(x, Bin(op, a, b));
            && (op.Pow? && (if r.Int? then Abs(r.n) > 1000 else x.tooBig(r.code)) ==> v == Failure(ExponentTooLarge))
            && (op.Pow? && l.Int? && r.Inexact? && !x.tooBig(r.code) ==>
                  match x.whole(r.code)
                  case None => v == Failure(InexactError)
                  case Some(n) => Bits(l.n) * Abs(n) > 1_000_000 ==> v == Failure(ResultTooLarge))
            && (v.Success? ==> v.value.Inexact? && x.apply(op, l, r) == Success(v.value.code))
            && (!op.Pow? ==> (v.Success? <==> x.apply(op, l, r).Success?))
  {
  }
}
