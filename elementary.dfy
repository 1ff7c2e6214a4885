/** The <cmath> functions the pricing code calls, as uninterpreted total
    functions over `real`. Only the laws a proof needs are stated, each as a
    predicate that a lemma may assume about the functions it is given. */
module Elementary {

  /** `exp`, `log` and `sqrt` as the code calls them; `Exp`, `Log` and `Sqrt`
      below apply them. */
  datatype CMath = CMath(exp: real -> real, log: real -> real, sqrt: real -> real)

  function Exp(m: CMath, x: real): real
  {
    m.exp(x)
  }

  function Log(m: CMath, x: real): real
  {
    m.log(x)
  }

  function Sqrt(m: CMath, x: real): real
  {
    m.sqrt(x)
  }

  /** `exp` only takes positive values. */
  ghost predicate ExpPositive(m: CMath)
  {
    forall x :: Exp(m, x) > 0.0
  }

  /** `sqrt` of a non-negative number is its non-negative square root. */
  ghost predicate SqrtLaw(m: CMath)
  {
    forall v :: v >= 0.0 ==> Sqrt(m, v) >= 0.0 && Sqrt(m, v) * Sqrt(m, v) == v
  }

  /** `exp(a + b)`, named so that the law below applies only where a proof
      asks for it. */
  function ExpOfSum(m: CMath, a: real, b: real): real
  {
    Exp(m, a + b)
  }

  /** `exp` turns sums into products. */
  ghost predicate ExpAdditive(m: CMath)
  {
    forall a, b {:trigger ExpOfSum(m, a, b)} :: ExpOfSum(m, a, b) == Exp(m, a) * Exp(m, b)
  }

  /** `exp` undoes `log` on positive numbers. */
  ghost predicate ExpLog(m: CMath)
  {
    forall x :: x > 0.0 ==> Exp(m, Log(m, x)) == x
  }

  /** The non-negative square root is unique. */
  lemma SqrtOfSquare(m: CMath, y: real)
    requires SqrtLaw(m)
    requires y >= 0.0
    ensures Sqrt(m, y * y) == y
  {
    var s := Sqrt(m, y * y);
    assert s >= 0.0 && s * s == y * y;
    assert (s - y) * (s + y) == 0.0;
    ZeroProduct(s - y, s + y);
  }

  /** `sqrt(a * b) == a * sqrt(b)` for a non-negative `a`. */
  lemma SqrtFactor(m: CMath, a: real, b: real)
    requires SqrtLaw(m)
    requires a >= 0.0 && b >= 0.0
    ensures Sqrt(m, a * a * b) == a * Sqrt(m, b)
  {
    var t := Sqrt(m, b);
    assert t >= 0.0 && t * t == b;
    calc {
      (a * t) * (a * t);
      a * a * (t * t);
      a * a * b;
    }
    var at := a * t;
    assert at >= 0.0;
    SqrtOfSquare(m, at);
    assert at * at == a * a * b;
    assert Sqrt(m, a * a * b) == Sqrt(m, at * at);
  }

  lemma ZeroProduct(a: real, b: real)
    requires a * b == 0.0
    ensures a == 0.0 || b == 0.0
  {
    if a != 0.0 {
      assert b == (a * b) / a;
    }
  }
}
