/** The in-place transform behind the howl detector: a bit-reversal pass and the
    staged butterflies, proved to leave the discrete Fourier transform. */
module Fft {
  import opened Complex

  ghost predicate IsPow2(n: nat)
    decreases n
  {
    n == 1 || (n > 1 && n % 2 == 0 && IsPow2(n / 2))
  }

  /** What cos and sin give the step of every stage up to `n`:
      half way round is -1, and two small steps make the next larger one. */
  ghost predicate Twiddles(step: nat -> C, n: nat)
  {
    forall len: nat {:trigger step(len)} :: 2 <= len <= n && IsPow2(len) ==> Twiddle(step, len)
  }

  ghost predicate Twiddle(step: nat -> C, len: nat) {
    && Pow(step(len), len / 2) == MinusOne
    && (4 <= len ==> Mul(step(len), step(len)) == step(len / 2))
  }

  // ------------------------------------------------ the transform, as a definition

  /** x[0] w^0 + x[1] w^k + ... + x[m-1] w^((m-1)k). */
  function DftSum(x: seq<C>, w: C, k: nat, m: nat): C
    requires m <= |x|
    decreases m
  {
    if m == 0 then Zero else Add(DftSum(x, w, k, m - 1), Mul(x[m - 1], Pow(w, (m - 1) * k)))
  }

  /** Coefficient `k` of the transform of `x` with the root `w`. */
  function Dft(x: seq<C>, w: C, k: nat): C { DftSum(x, w, k, |x|) }

  /** The same as a polynomial in z, in Horner's form. */
  function Eval(x: seq<C>, z: C): C
    decreases |x|
  {
    if |x| == 0 then Zero else Add(x[0], Mul(z, Eval(x[1..], z)))
  }

  function Evens(x: seq<C>): (e: seq<C>)
    requires |x| % 2 == 0
    ensures |e| == |x| / 2
  {
    seq(|x| / 2, i requires 0 <= i < |x| / 2 => x[2 * i])
  }

  function Odds(x: seq<C>): (o: seq<C>)
    requires |x| % 2 == 0
    ensures |o| == |x| / 2
  {
    seq(|x| / 2, i requires 0 <= i < |x| / 2 => x[2 * i + 1])
  }

  lemma {:induction false} EvalSnoc(x: seq<C>, c: C, z: C)
    ensures Eval(x + [c], z) == Add(Eval(x, z), Mul(c, Pow(z, |x|)))
    decreases |x|
  {
    if |x| == 0 {
      assert (x + [c])[1..] == [];
    } else {
      assert (x + [c])[1..] == x[1..] + [c];
      EvalSnoc(x[1..], c, z);
      var p := Pow(z, |x| - 1);
      MulAdd(z, Eval(x[1..], z), Mul(c, p));
      MulAssoc(z, c, p);
      MulComm(z, c);
      MulAssoc(c, z, p);
    }
  }

  lemma {:induction false} SumIsEval(x: seq<C>, w: C, k: nat, m: nat)
    requires m <= |x|
    ensures DftSum(x, w, k, m) == Eval(x[..m], Pow(w, k))
    decreases m
  {
    if m > 0 {
      SumIsEval(x, w, k, m - 1);
      assert x[..m] == x[..m - 1] + [x[m - 1]];
      EvalSnoc(x[..m - 1], x[m - 1], Pow(w, k));
      PowMul(w, k, m - 1);
      assert (m - 1) * k == k * (m - 1);
    }
  }

  lemma DftIsEval(x: seq<C>, w: C, k: nat)
    ensures Dft(x, w, k) == Eval(x, Pow(w, k))
  {
    SumIsEval(x, w, k, |x|);
    assert x[..|x|] == x;
  }

  /** P(z) = E(z^2) + z O(z^2). */
  lemma {:induction false} EvalSplit(x: seq<C>, z: C)
    requires |x| % 2 == 0
    ensures Eval(x, z) == Add(Eval(Evens(x), Mul(z, z)), Mul(z, Eval(Odds(x), Mul(z, z))))
    decreases |x|
  {
    if |x| == 0 {
    } else {
      var y := x[2..];
      var zz := Mul(z, z);
      assert x[1..][1..] == y;
      assert Evens(x)[1..] == Evens(y);
      assert Odds(x)[1..] == Odds(y);
      EvalSplit(y, z);
      var e, o := Eval(Evens(y), zz), Eval(Odds(y), zz);
      assert Eval(x, z) == Add(x[0], Mul(z, Add(x[1], Mul(z, Add(e, Mul(z, o))))));
      SplitAlgebra(x[0], x[1], z, e, o);
    }
  }

  lemma SplitAlgebra(a: C, b: C, z: C, e: C, o: C)
    ensures Add(a, Mul(z, Add(b, Mul(z, Add(e, Mul(z, o))))))
         == Add(Add(a, Mul(Mul(z, z), e)), Mul(z, Add(b, Mul(Mul(z, z), o))))
  {
    var zo := Mul(z, o);
    MulAdd(z, e, zo);
    MulAssoc(z, z, e);
    MulAssoc(z, z, o);
    var ze, zzo := Mul(z, e), Mul(z, zo);
    MulAdd(z, b, Add(ze, zzo));
    MulAdd(z, ze, zzo);
    MulAdd(z, b, zzo);
  }

  /** One butterfly stage: a transform of length 2m from the two of length m. */
  lemma {:induction false} Merge(x: seq<C>, w: C, k: nat)
    requires |x| % 2 == 0 && k < |x| / 2
    requires Pow(w, |x| / 2) == MinusOne
    ensures var m := |x| / 2;
      var e, o := Dft(Evens(x), Mul(w, w), k), Mul(Dft(Odds(x), Mul(w, w), k), Pow(w, k));
      Dft(x, w, k) == Add(e, o) && Dft(x, w, k + m) == Sub(e, o)
  {
    hide Mul, Add, Sub;
    var m := |x| / 2;
    var z, ww := Pow(w, k), Mul(w, w);
    PowSquare(w, k);
    DftIsEval(x, w, k);
    DftIsEval(x, w, k + m);
    DftIsEval(Evens(x), ww, k);
    DftIsEval(Odds(x), ww, k);
    EvalSplit(x, z);
    PowAdd(w, m, k);
    var minus := Pow(w, k + m);
    Negated(z);
    EvalSplit(x, minus);
    var zz := Mul(z, z);
    MulComm(z, Eval(Odds(x), zz));
    AddNegated(Eval(Evens(x), zz), z, Eval(Odds(x), zz));
  }

  lemma Negated(z: C)
    ensures Mul(Mul(MinusOne, z), Mul(MinusOne, z)) == Mul(z, z)
  {
  }

  lemma AddNegated(e: C, z: C, o: C)
    ensures Add(e, Mul(Mul(MinusOne, z), o)) == Sub(e, Mul(z, o))
  {
  }

  lemma PowTwo(w: C)
    ensures Pow(w, 2) == Mul(w, w)
  {
    assert Pow(w, 1) == Mul(w, Pow(w, 0));
    MulOne(w);
  }

  lemma PowSquare(w: C, k: nat)
    ensures Pow(Mul(w, w), k) == Mul(Pow(w, k), Pow(w, k))
  {
    hide Mul;
    PowTwo(w);
    PowMul(w, 2, k);
    assert 2 * k == k + k;
    PowAdd(w, k, k);
  }

  // ------------------------------------------------ bit reversal

  /** The log2(n) bits of `i` read backwards. */
  function Rev(n: nat, i: nat): (r: nat)
    requires IsPow2(n) && i < n
    ensures r < n
    decreases n
  {
    if n == 1 then 0 else (if i % 2 == 1 then n / 2 else 0) + Rev(n / 2, i / 2)
  }

  /** `j & bit` for a power of two `bit`, and for the 0 it ends at. */
  predicate Has(j: nat, bit: nat) { bit != 0 && j / bit % 2 == 1 }

  /** `j ^ bit`. */
  function Flip(j: nat, bit: nat): nat { if Has(j, bit) then j - bit else j + bit }

  /** Backwards, the top bit comes last. */
  lemma {:induction false} RevTop(n: nat, i: nat)
    requires IsPow2(n) && n > 1 && i < n
    ensures Rev(n, i) == if i < n / 2 then 2 * Rev(n / 2, i) else 2 * Rev(n / 2, i - n / 2) + 1
    decreases n
  {
    if n > 2 {
      var m, h := n / 2, i / 2;
      RevUnfold(n, i);
      RevTop(m, h);
      RevUnfold(m, if i < m then i else i - m);
      assert n == 2 * m && m == 2 * (m / 2) && i == 2 * h + i % 2;
      hide Rev, IsPow2;
      if i >= m {
        assert (i - m) / 2 == h - m / 2 && (i - m) % 2 == i % 2;
      }
    }
  }

  lemma {:induction false} RevInvolution(n: nat, i: nat)
    requires IsPow2(n) && i < n
    ensures Rev(n, Rev(n, i)) == i
    decreases n
  {
    if n > 1 {
      RevInvolution(n / 2, i / 2);
      RevTop(n, Rev(n, i));
    }
  }

  /** Reversed counting, one step: `Rev(n, q)` is even-looking or carries. */
  lemma RevCount(n: nat, q: nat)
    requires IsPow2(n) && n > 1 && q + 1 < n
    ensures Has(Rev(n, q), n / 2) <==> q % 2 == 1
    ensures q % 2 == 0 ==> Flip(Rev(n, q), n / 2) == Rev(n, q + 1)
    ensures q % 2 == 1 ==> Flip(Rev(n, q), n / 2) == Rev(n / 2, q / 2) && Rev(n, q + 1) == Rev(n / 2, q / 2 + 1)
  {
    var m, h := n / 2, q / 2;
    RevUnfold(n, q);
    RevUnfold(n, q + 1);
    assert q == 2 * h + q % 2;
    hide Has, Rev, IsPow2;
    TopBit(Rev(n, q), m);
    if q % 2 == 0 {
      assert (q + 1) / 2 == h && (q + 1) % 2 == 1;
    } else {
      assert (q + 1) / 2 == h + 1 && (q + 1) % 2 == 0;
    }
  }

  lemma RevUnfold(n: nat, i: nat)
    requires IsPow2(n) && n > 1 && i < n
    ensures IsPow2(n / 2) && i / 2 < n / 2
    ensures Rev(n, i) == (if i % 2 == 1 then n / 2 else 0) + Rev(n / 2, i / 2)
  {
  }

  lemma TopBit(j: nat, bit: nat)
    requires 0 < bit && j < 2 * bit
    ensures Has(j, bit) <==> bit <= j
  {
    if bit <= j {
      assert j == bit * 1 + (j - bit);
      DivUnique(j, bit, 1);
    } else {
      DivUnique(j, bit, 0);
    }
  }

  lemma DivUnique(j: nat, bit: nat, d: nat)
    requires 0 < bit && d * bit <= j < d * bit + bit
    ensures j / bit == d
  {
    var e, r := j / bit, j % bit;
    assert j == e * bit + r;
    MulGap(e, d, bit);
    MulGap(d, e, bit);
  }

  lemma MulGap(x: nat, y: nat, b: nat)
    requires 0 < b
    ensures x < y ==> x * b + b <= y * b
  {
    if x < y {
      var d := y - x - 1;
      assert y == x + 1 + d;
      assert (x + 1 + d) * b == x * b + b + d * b;
    }
  }

  /** The inner loop: the reversed counter goes on by one. */
  method CountBackwards(n: nat, i: nat, was: nat) returns (j: nat)
    requires IsPow2(n) && 0 < i < n && was == Rev(n, i - 1)
    ensures j == Rev(n, i)
  {
    j := was;
    var bit := n / 2;
    ghost var q: nat, size: nat := i - 1, n;
    while Has(j, bit)
      invariant IsPow2(size) && size > 1 && bit == size / 2 && q + 1 < size
      invariant j == Rev(size, q) && Rev(size, q + 1) == Rev(n, i)
      decreases bit
    {
      RevCount(size, q);
      j := Flip(j, bit);
      q, size := q / 2, size / 2;
      bit := bit / 2;
    }
    RevCount(size, q);
    j := Flip(j, bit);
  }

  /** `x` after the swaps below `i`. */
  ghost predicate SwappedBelow(s: seq<C>, x: seq<C>, i: nat)
    requires IsPow2(|x|)
  {
    && |s| == |x|
    && forall k {:trigger s[k]} :: 0 <= k < |x| ==> s[k] == x[if k < i || Rev(|x|, k) < i then Rev(|x|, k) else k]
  }

  lemma SwapStep(s: seq<C>, x: seq<C>, i: nat)
    requires IsPow2(|x|) && i < |x| && SwappedBelow(s, x, i)
    ensures var j := Rev(|x|, i);
      SwappedBelow(if i < j then s[i := s[j]][j := s[i]] else s, x, i + 1)
  {
    hide *;
    var n := |x|;
    var j := Rev(n, i);
    SwappedAt(s, x, i, i);
    var t := if i < j then s[i := s[j]][j := s[i]] else s;
    RevInvolution(n, i);
    SwappedAt(s, x, i, j);
    forall k | 0 <= k < n
      ensures t[k] == x[if k < i + 1 || Rev(n, k) < i + 1 then Rev(n, k) else k]
    {
      RevInvolution(n, k);
      SwappedAt(s, x, i, k);
    }
    SwappedIntro(t, x, i + 1);
  }

  lemma SwappedAt(s: seq<C>, x: seq<C>, i: nat, k: nat)
    requires IsPow2(|x|) && SwappedBelow(s, x, i) && k < |x|
    ensures |s| == |x| && s[k] == x[if k < i || Rev(|x|, k) < i then Rev(|x|, k) else k]
  {
  }

  lemma SwappedIntro(s: seq<C>, x: seq<C>, i: nat)
    requires IsPow2(|x|) && |s| == |x|
    requires forall k :: 0 <= k < |x| ==> s[k] == x[if k < i || Rev(|x|, k) < i then Rev(|x|, k) else k]
    ensures SwappedBelow(s, x, i)
  {
  }

  method BitReverse(a: array<C>)
    requires IsPow2(a.Length)
    modifies a
    ensures forall k :: 0 <= k < a.Length ==> a[k] == old(a[Rev(a.Length, k)])
  {
    hide Rev, IsPow2;
    var n := a.Length;
    ghost var x := a[..];
    var i, j := 1, 0;
    RevZero(n);
    assert SwappedBelow(x, x, 0);
    SwapStep(x, x, 0);
    while i < n
      invariant 1 <= i <= n && 0 <= j < n && j == Rev(n, i - 1)
      invariant SwappedBelow(a[..], x, i)
    {
      j := CountBackwards(n, i, j);
      SwapStep(a[..], x, i);
      if i < j {
        a[i], a[j] := a[j], a[i];
      }
      i := i + 1;
    }
    assert forall k :: 0 <= k < n ==> a[..][k] == x[Rev(n, k)];
  }

  lemma {:induction false} RevZero(n: nat)
    requires IsPow2(n)
    ensures Rev(n, 0) == 0
    decreases n
  {
    if n > 1 {
      RevZero(n / 2);
    }
  }

  // ------------------------------------------------ the staged butterflies

  function BitRev(x: seq<C>): (r: seq<C>)
    requires IsPow2(|x|)
    ensures |r| == |x|
  {
    seq(|x|, k requires 0 <= k < |x| => x[Rev(|x|, k)])
  }

  /** `b` holds the transform of what `r` holds in bit-reversed order. */
  ghost predicate Block(b: seq<C>, r: seq<C>, w: C) {
    && |b| == |r| && IsPow2(|r|)
    && forall k {:trigger b[k]} :: 0 <= k < |b| ==> b[k] == Dft(BitRev(r), w, k)
  }

  /** `s` is cut into blocks of `len`, each one transformed. */
  ghost predicate Blocks(s: seq<C>, r: seq<C>, w: C, len: nat)
    decreases |s|
  {
    && |s| == |r|
    && (s == [] || (0 < len <= |s| && Block(s[..len], r[..len], w) && Blocks(s[len..], r[len..], w, len)))
  }

  lemma {:induction false} Singles(r: seq<C>, w: C)
    ensures Blocks(r, r, w, 1)
    decreases |r|
  {
    if r != [] {
      var b := r[..1];
      assert BitRev(b) == b;
      assert Dft(b, w, 0) == Add(Zero, Mul(b[0], Pow(w, 0)));
      MulOne(b[0]);
      Singles(r[1..], w);
    }
  }

  lemma {:induction false} BlocksSnoc(s: seq<C>, r: seq<C>, b: seq<C>, rb: seq<C>, w: C, len: nat)
    requires Blocks(s, r, w, len) && Block(b, rb, w) && |b| == len > 0
    ensures Blocks(s + b, r + rb, w, len)
    decreases |s|
  {
    if s == [] {
      assert s + b == b && r + rb == rb;
      assert b[..len] == b && rb[..len] == rb;
    } else {
      BlocksSnoc(s[len..], r[len..], b, rb, w, len);
      assert (s + b)[..len] == s[..len] && (r + rb)[..len] == r[..len];
      assert (s + b)[len..] == s[len..] + b && (r + rb)[len..] == r[len..] + rb;
    }
  }

  /** What one block becomes: sums in the lower half, differences in the upper. */
  ghost predicate Butterfly(b: seq<C>, lo: seq<C>, hi: seq<C>, w: C) {
    && |lo| == |hi| && |b| == 2 * |lo|
    && (forall k {:trigger b[k]} :: 0 <= k < |lo| ==> b[k] == Add(lo[k], Mul(hi[k], Pow(w, k))))
    && (forall k {:trigger hi[k]} :: 0 <= k < |lo| ==> b[k + |lo|] == Sub(lo[k], Mul(hi[k], Pow(w, k))))
  }

  lemma BitRevHalves(lo: seq<C>, hi: seq<C>)
    requires |lo| == |hi| && IsPow2(|lo|)
    ensures IsPow2(|lo + hi|)
    ensures Evens(BitRev(lo + hi)) == BitRev(lo) && Odds(BitRev(lo + hi)) == BitRev(hi)
  {
    var n := |lo + hi|;
    assert n / 2 == |lo|;
    forall k | 0 <= k < |lo|
      ensures Rev(n, 2 * k) == Rev(|lo|, k) && Rev(n, 2 * k + 1) == |lo| + Rev(|lo|, k)
    {
      assert 2 * k / 2 == k && (2 * k + 1) / 2 == k && (2 * k + 1) % 2 == 1;
      RevUnfold(n, 2 * k);
      RevUnfold(n, 2 * k + 1);
    }
    hide Rev, IsPow2;
  }

  lemma DftSingle(x: seq<C>, v: C, w: C)
    requires |x| == 1
    ensures Dft(x, v, 0) == Dft(x, w, 0)
  {
    assert Dft(x, v, 0) == Add(Zero, Mul(x[0], Pow(v, 0)));
  }

  /** `x` with the first `k` pairs of the block at `i` combined. */
  ghost function Mixed(x: seq<C>, i: nat, half: nat, step: C, k: nat): (y: seq<C>)
    requires i + 2 * half <= |x| && k <= half
    ensures |y| == |x|
  {
    seq(|x|, p requires 0 <= p < |x| =>
      if i <= p < i + k then Add(x[p], Mul(x[p + half], Pow(step, p - i)))
      else if i + half <= p < i + half + k then Sub(x[p - half], Mul(x[p], Pow(step, p - half - i)))
      else x[p])
  }

  lemma MixedWhole(x: seq<C>, i: nat, half: nat, step: C)
    requires i + 2 * half <= |x|
    ensures var y := Mixed(x, i, half, step, half);
      && Butterfly(y[i..i + 2 * half], x[i..i + half], x[i + half..i + 2 * half], step)
      && y[..i] == x[..i] && y[i + 2 * half..] == x[i + 2 * half..]
  {
    hide Mul, Add, Sub, Pow;
    var y := Mixed(x, i, half, step, half);
    var b, lo, hi := y[i..i + 2 * half], x[i..i + half], x[i + half..i + 2 * half];
    forall k | 0 <= k < half
      ensures b[k] == Add(lo[k], Mul(hi[k], Pow(step, k))) && b[k + half] == Sub(lo[k], Mul(hi[k], Pow(step, k)))
    {
      var p, q := i + k, i + half + k;
      assert b[k] == y[p] == Add(x[p], Mul(x[p + half], Pow(step, p - i)));
      assert b[k + half] == y[q] == Sub(x[q - half], Mul(x[q], Pow(step, q - half - i)));
    }
  }

  lemma MixedStep(x: seq<C>, i: nat, half: nat, step: C, k: nat)
    requires i + 2 * half <= |x| && k < half
    ensures var p, q := i + k, i + k + half;
      var u, v := x[p], Mul(x[q], Pow(step, k));
      && Mixed(x, i, half, step, k)[p] == x[p] && Mixed(x, i, half, step, k)[q] == x[q]
      && Mixed(x, i, half, step, k)[p := Add(u, v)][q := Sub(u, v)] == Mixed(x, i, half, step, k + 1)
  {
    hide Mul, Add, Sub;
  }

  /** The innermost loop, over one block at `i`. */
  method ButterflyBlock(a: array<C>, i: nat, len: nat, step: C)
    requires len % 2 == 0 && i + len <= a.Length
    modifies a
    ensures a[..] == Mixed(old(a[..]), i, len / 2, step, len / 2)
  {
    hide Mul, Add, Sub, Mixed;
    ghost var x := a[..];
    var w := One;
    var half := len / 2;
    var k := 0;
    MixedNone(x, i, half, step);
    while k < half
      invariant 0 <= k <= half && w == Pow(step, k)
      invariant a[..] == Mixed(x, i, half, step, k)
    {
      MixedStep(x, i, half, step, k);
      assert a[..][i + k] == x[i + k] && a[..][i + k + half] == x[i + k + half];
      var u := a[i + k];
      var v := Mul(a[i + k + half], w);
      a[i + k] := Add(u, v);
      a[i + k + half] := Sub(u, v);
      MulComm(w, step);
      w := Mul(w, step);
      k := k + 1;
    }
  }

  lemma MixedNone(x: seq<C>, i: nat, half: nat, step: C)
    requires i + 2 * half <= |x|
    ensures Mixed(x, i, half, step, 0) == x
  {
  }

  /** One stage: every block of `len` from two transformed halves. */
  method Stage(a: array<C>, len: nat, ghost blocks: nat, step: C, ghost half: C, ghost r: seq<C>)
    requires len >= 2 && len % 2 == 0 && blocks * len == a.Length == |r|
    requires Pow(step, len / 2) == MinusOne && (len >= 4 ==> half == Mul(step, step))
    requires Blocks(a[..], r, half, len / 2)
    modifies a
    ensures Blocks(a[..], r, step, len)
  {
    hide *;
    var n := a.Length;
    var i := 0;
    ghost var left, m := blocks, len / 2;
    assert a[..][0..] == a[..] && r[0..] == r && a[..][..0] == [] && r[..0] == [];
    NoBlocks(step, len);
    while i < n
      invariant 0 <= i <= n && left * len == n - i
      invariant Blocks(a[..][..i], r[..i], step, len)
      invariant Blocks(a[..][i..], r[i..], half, len / 2)
      decreases n - i
    {
      OneLess(left, len, n - i);
      NextBlock(a, i, len, step, half, r);
      BlocksSnoc(a[..][..i], r[..i], a[..][i..i + len], r[i..i + len], step, len);
      Cut(a[..], i, len);
      Cut(r, i, len);
      i := i + len;
      left := left - 1;
    }
    assert a[..][..n] == a[..] && r[..n] == r;
  }

  lemma OneLess(left: nat, len: nat, rest: nat)
    requires left * len == rest && rest > 0
    ensures left >= 1 && len <= rest && (left - 1) * len == rest - len
  {
    assert left * len == len + (left - 1) * len;
  }

  /** The next two blocks become one, and nothing else changes. */
  method NextBlock(a: array<C>, i: nat, len: nat, step: C, ghost half: C, ghost r: seq<C>)
    requires len >= 2 && len % 2 == 0 && i + len <= a.Length == |r|
    requires Pow(step, len / 2) == MinusOne && (len >= 4 ==> half == Mul(step, step))
    requires Blocks(a[..][i..], r[i..], half, len / 2)
    modifies a
    ensures Block(a[..][i..i + len], r[i..i + len], step) && a[..][..i] == old(a[..])[..i]
    ensures Blocks(a[..][i + len..], r[i + len..], half, len / 2)
  {
    hide *;
    ghost var s, rr, m := a[..], r[i..], len / 2;
    TwoBlocks(s[i..], rr, half, m);
    CombineBlock(a, i, len, step, half, rr[..m], rr[m..len]);
    assert r[i..i + len] == rr[..m] + rr[m..len] && r[i + len..] == rr[len..];
  }

  /** One block at `i`: the two transformed halves become one transform. */
  method CombineBlock(a: array<C>, i: nat, len: nat, step: C, ghost half: C, ghost rlo: seq<C>, ghost rhi: seq<C>)
    requires len >= 2 && len % 2 == 0 && i + len <= a.Length
    requires Pow(step, len / 2) == MinusOne && (len >= 4 ==> half == Mul(step, step))
    requires Block(a[..][i..][..len / 2], rlo, half) && Block(a[..][i..][len / 2..len], rhi, half)
    modifies a
    ensures Block(a[..][i..i + len], rlo + rhi, step)
    ensures a[..][..i] == old(a[..])[..i] && a[..][i + len..] == old(a[..])[i..][len..]
  {
    hide Mul, Add, Sub, Dft, Rev, Pow, Mixed;
    ghost var s, m := a[..], len / 2;
    ButterflyBlock(a, i, len, step);
    ghost var b := Combined(s, a[..], i, m, step);
    ghost var lo, hi := s[i..][..m], s[i..][m..len];
    BitRevHalves(rlo, rhi);
    ghost var x := BitRev(rlo + rhi);
    if m == 1 {
      DftSingle(Evens(x), half, Mul(step, step));
      DftSingle(Odds(x), half, Mul(step, step));
    }
    forall k | 0 <= k < 2 * m
      ensures b[k] == Dft(x, step, k)
    {
      var h := if k < m then k else k - m;
      Merge(x, step, h);
      assert lo[h] == Dft(BitRev(rlo), half, h) && hi[h] == Dft(BitRev(rhi), half, h);
      assert b[h + m] == Sub(lo[h], Mul(hi[h], Pow(step, h)));
    }
  }

  lemma NoBlocks(w: C, len: nat)
    ensures Blocks([], [], w, len)
  {
  }

  lemma Cut(y: seq<C>, i: nat, len: nat)
    requires i + len <= |y|
    ensures y[..i + len] == y[..i] + y[i..i + len]
  {
  }

  /** The block at `i` after its loop: combined, all else as it was. */
  lemma Combined(x: seq<C>, y: seq<C>, i: nat, half: nat, step: C) returns (b: seq<C>)
    requires i + 2 * half <= |x| && y == Mixed(x, i, half, step, half)
    ensures |y| == |x| && b == y[i..i + 2 * half] && Butterfly(b, x[i..][..half], x[i..][half..2 * half], step)
    ensures y[..i] == x[..i] && y[i + 2 * half..] == x[i..][2 * half..]
  {
    MixedWhole(x, i, half, step);
    b := y[i..i + 2 * half];
    hide Mixed;
    assert x[i..][..half] == x[i..i + half] && x[i..][half..2 * half] == x[i + half..i + 2 * half];
  }

  /** The first two blocks, and those after them. */
  lemma TwoBlocks(s: seq<C>, r: seq<C>, w: C, m: nat)
    requires m >= 1 && 2 * m <= |s| == |r| && Blocks(s, r, w, m)
    ensures Block(s[..m], r[..m], w) && Block(s[m..2 * m], r[m..2 * m], w) && Blocks(s[2 * m..], r[2 * m..], w, m)
  {
    hide Block;
    Halves(s, m);
    Halves(r, m);
  }

  lemma Halves(s: seq<C>, m: nat)
    requires 2 * m <= |s|
    ensures s[m..][..m] == s[m..2 * m] && s[m..][m..] == s[2 * m..] && s[..2 * m] == s[..m] + s[m..2 * m]
  {
  }

  /** The whole transform. */
  method Transform(a: array<C>, step: nat -> C)
    requires IsPow2(a.Length) && Twiddles(step, a.Length)
    modifies a
    ensures forall k :: 0 <= k < a.Length ==> a[k] == Dft(old(a[..]), step(a.Length), k)
  {
    hide *;
    var n := a.Length;
    ghost var x := a[..];
    BitReverse(a);
    ghost var r := a[..];
    BitRevTwice(x, r);
    Singles(r, step(1));
    var len := 2;
    ghost var blocks: nat := n;
    FirstStage(n);
    while len <= n
      invariant len >= 2 && len % 2 == 0 && IsPow2(len) && IsPow2(blocks) && blocks * (len / 2) == n
      invariant Blocks(a[..], r, step(len / 2), len / 2)
      decreases 2 * n - len
    {
      MulGap(blocks, 2, len / 2);
      Pow2Halves(blocks);
      Pow2Halves(len * 2);
      HalfTimes(blocks, len);
      TwiddleAt(step, n, len);
      Stage(a, len, blocks / 2, step(len), step(len / 2), r);
      blocks := blocks / 2;
      len := len * 2;
    }
    LastStage(a[..], r, step(len / 2), len / 2, blocks);
    assert forall k :: 0 <= k < n ==> a[..][k] == a[k];
  }

  lemma FirstStage(n: nat)
    requires IsPow2(n)
    ensures IsPow2(2) && n * (2 / 2) == n
  {
    assert IsPow2(1);
  }

  lemma TwiddleAt(step: nat -> C, n: nat, len: nat)
    requires 2 <= len <= n && IsPow2(len) && Twiddles(step, n)
    ensures Pow(step(len), len / 2) == MinusOne
    ensures len >= 4 ==> step(len / 2) == Mul(step(len), step(len))
  {
    hide Pow, Mul, IsPow2;
    assert Twiddle(step, len);
  }

  lemma Pow2Halves(n: nat)
    requires n > 1
    ensures IsPow2(n) <==> n % 2 == 0 && IsPow2(n / 2)
  {
  }

  lemma LastStage(s: seq<C>, r: seq<C>, w: C, h: nat, blocks: nat)
    requires h >= 1 && IsPow2(blocks) && |s| < 2 * h && blocks * h == |s|
    requires Blocks(s, r, w, h)
    ensures |s| == |r| == h && IsPow2(h) && forall k :: 0 <= k < h ==> s[k] == Dft(BitRev(r), w, k)
  {
    MulGap(1, blocks, h);
    assert blocks == 1;
    hide IsPow2, Dft, BitRev;
    assert s[..h] == s && r[..h] == r;
  }

  lemma HalfTimes(p: nat, q: nat)
    requires p % 2 == 0 && q % 2 == 0
    ensures p / 2 * q == p * (q / 2)
  {
    var x, y := p / 2, q / 2;
    assert p == 2 * x && q == 2 * y;
    assert x * (2 * y) == 2 * x * y;
  }

  lemma BitRevTwice(x: seq<C>, r: seq<C>)
    requires IsPow2(|x|) && |r| == |x|
    requires forall k :: 0 <= k < |x| ==> r[k] == x[Rev(|x|, k)]
    ensures BitRev(r) == x
  {
    hide Rev;
    forall k | 0 <= k < |x|
      ensures BitRev(r)[k] == x[k]
    {
      RevInvolution(|x|, k);
    }
  }

  /** The facts asked of the steps are those of e^(-2 pi i / len): for four points
      they are -1 and -i. */
  lemma FourPointSteps(step: nat -> C)
    requires step(2) == MinusOne && step(4) == C(0.0, -1.0)
    ensures Twiddles(step, 4)
  {
    assert Twiddle(step, 2) by { PowOne(step(2)); }
    assert Twiddle(step, 4) by { PowTwo(step(4)); MinusISquared(); }
    assert !IsPow2(3);
    hide *;
    forall len: nat | 2 <= len <= 4 && IsPow2(len)
      ensures Twiddle(step, len)
    {
      assert len == 2 || len == 4;
    }
    TwiddlesIntro(step, 4);
  }

  lemma TwiddlesIntro(step: nat -> C, n: nat)
    requires forall len: nat :: 2 <= len <= n && IsPow2(len) ==> Twiddle(step, len)
    ensures Twiddles(step, n)
  {
    hide Twiddle, IsPow2;
  }

  lemma MinusISquared()
    ensures Mul(C(0.0, -1.0), C(0.0, -1.0)) == MinusOne
  {
  }

  lemma PowOne(w: C)
    ensures Pow(w, 1) == w
  {
    assert Pow(w, 1) == Mul(w, Pow(w, 0));
    MulOne(w);
  }
}
