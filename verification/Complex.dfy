/** Exact complex numbers, standing in for `std::complex<float>`. */
module Complex {
  datatype C = C(re: real, im: real)

  const Zero := C(0.0, 0.0)
  const One := C(1.0, 0.0)
  const MinusOne := C(-1.0, 0.0)

  function Add(a: C, b: C): C { C(a.re + b.re, a.im + b.im) }

  function Sub(a: C, b: C): C { C(a.re - b.re, a.im - b.im) }

  function Mul(a: C, b: C): C { C(a.re * b.re - a.im * b.im, a.re * b.im + a.im * b.re) }

  function Pow(w: C, n: nat): C
    decreases n
  {
    if n == 0 then One else Mul(w, Pow(w, n - 1))
  }

  lemma MulAssoc(a: C, b: C, c: C)
    ensures Mul(a, Mul(b, c)) == Mul(Mul(a, b), c)
  {
  }

  lemma MulComm(a: C, b: C)
    ensures Mul(a, b) == Mul(b, a)
  {
  }

  lemma MulOne(a: C)
    ensures Mul(One, a) == a == Mul(a, One)
    ensures Mul(Zero, a) == Zero
    ensures Mul(MinusOne, a) == Sub(Zero, a)
  {
  }

  lemma MulAdd(a: C, b: C, c: C)
    ensures Mul(a, Add(b, c)) == Add(Mul(a, b), Mul(a, c))
  {
  }

  lemma {:induction false} PowAdd(w: C, m: nat, n: nat)
    ensures Pow(w, m + n) == Mul(Pow(w, m), Pow(w, n))
    decreases m
  {
    if m == 0 {
      MulOne(Pow(w, n));
    } else {
      PowAdd(w, m - 1, n);
      MulAssoc(w, Pow(w, m - 1), Pow(w, n));
    }
  }

  lemma {:induction false} PowMul(w: C, m: nat, n: nat)
    ensures Pow(w, m * n) == Pow(Pow(w, m), n)
    decreases n
  {
    if n == 0 {
    } else {
      assert m * n == m + m * (n - 1);
      PowAdd(w, m, m * (n - 1));
      PowMul(w, m, n - 1);
    }
  }
}
