/**
 * Glicko-2 ratings (packages/shared/src/rating/glicko2.ts) over the reals. The step numbers are those of Glickman,
 * "Example of the Glicko-2 system" (2012). exp, log, sqrt and pi are given, with what is needed of them in Valid.
 */
module Glicko {
  import opened Common

  datatype Math = Math(exp: real -> real, log: real -> real, sqrt: real -> real, pi: real)

  ghost predicate Valid(m: Math) {
    && m.pi > 0.0
    && m.exp(0.0) == 1.0
    && (forall x :: m.exp(x) > 0.0)
    && (forall x, y :: x < y ==> m.exp(x) < m.exp(y))
    && (forall x :: x > 0.0 ==> m.exp(m.log(x)) == x)
    && (forall x :: x >= 0.0 ==> m.sqrt(x) >= 0.0 && m.sqrt(x) * m.sqrt(x) == x)
  }

  // ---------- Arithmetic ----------

  function Times(x: real, y: real): (r: real)
    ensures r > 0.0 <==> (x > 0.0 && y > 0.0) || (x < 0.0 && y < 0.0)
    ensures r == 0.0 <==> x == 0.0 || y == 0.0
  {
    x * y
  }

  function Sq(x: real): (r: real)
    ensures r >= 0.0 && (x != 0.0 ==> r > 0.0)
  {
    Times(x, x)
  }

  lemma Product(x: real, y: real)
    ensures x > 0.0 && y > 0.0 ==> x * y > 0.0
    ensures x > 0.0 && y < 0.0 ==> x * y < 0.0
    ensures x < 0.0 && y > 0.0 ==> x * y < 0.0
    ensures x < 0.0 && y < 0.0 ==> x * y > 0.0
  {
  }

  lemma TimesLess(x: real, y: real, z: real)
    requires x < y && z > 0.0
    ensures x * z < y * z
  {
    Product(y - x, z);
  }

  /** A quotient by a positive number compares like its numerator. */
  lemma Quotient(n: real, d: real, k: real)
    requires d > 0.0
    ensures n / d > k <==> n > k * d
    ensures n / d == k <==> n == k * d
  {
    var q := n / d;
    assert q * d == n;
    if q > k {
      TimesLess(k, q, d);
    } else if q < k {
      TimesLess(q, k, d);
    }
  }

  lemma SqrtPositive(m: Math, x: real)
    requires Valid(m) && x > 0.0
    ensures m.sqrt(x) > 0.0
  {
    assert m.sqrt(x) * m.sqrt(x) == x;
  }

  lemma SqrtLess(m: Math, x: real, y: real)
    requires Valid(m) && x >= 0.0 && y >= 0.0 && x * x < y
    ensures x < m.sqrt(y)
  {
    var s := m.sqrt(y);
    assert s * s == y;
    if 0.0 <= s < x {
      TimesLess(s, x, x);
      if s > 0.0 {
        TimesLess(s, x, s);
      }
    }
  }

  lemma LogMonotone(m: Math, x: real, y: real)
    requires Valid(m) && x > 0.0 && y > 0.0
    ensures x < y <==> m.log(x) < m.log(y)
    ensures x == y ==> m.log(x) == m.log(y)
  {
    assert m.exp(m.log(x)) == x && m.exp(m.log(y)) == y;
  }

  // ---------- Step 5: the volatility ----------

  /** What the iteration works on. */
  datatype Period = Period(sigma: real, phi: real, v: real, delta: real, tau: real, eps: real)

  predicate Proper(p: Period) {
    p.sigma != 0.0 && p.v > 0.0 && p.tau > 0.0 && p.eps >= 0.0
  }

  /** Variance of the player's rating and of the games together. */
  function Spread(p: Period): (r: real)
    ensures p.v > 0.0 ==> r > 0.0
  {
    Sq(p.phi) + p.v
  }

  /** What the squared improvement leaves over the spread. */
  function Surplus(p: Period): (r: real)
    ensures r >= -Spread(p)
  {
    Sq(p.delta) - Sq(p.phi) - p.v
  }

  function Start(m: Math, p: Period): real {
    m.log(Sq(p.sigma))
  }

  /** The first term of f, with e to the x given. */
  function Pull(p: Period, ex: real): (r: real)
    requires Proper(p) && ex > 0.0
    ensures r > 0.0 <==> Surplus(p) > ex
    ensures r == 0.0 <==> Surplus(p) == ex
    ensures r > -0.5
  {
    PullBounds(Spread(p), Surplus(p), ex);
    Times(ex, Surplus(p) - ex) / (2.0 * Sq(Spread(p) + ex))
  }

  /** The pull has the sign of surplus minus e to the x, and is above minus one half. */
  lemma PullBounds(spread: real, surplus: real, ex: real)
    requires spread > 0.0 && ex > 0.0 && surplus >= -spread
    ensures var r := Times(ex, surplus - ex) / (2.0 * Sq(spread + ex));
            && (r > 0.0 <==> surplus > ex)
            && (r == 0.0 <==> surplus == ex)
            && r > -0.5
  {
    var num, den := Times(ex, surplus - ex), 2.0 * Sq(spread + ex);
    NumAboveHalf(ex, surplus - ex, spread + ex);
    hide Sq, Times;
    Quotient(num, den, 0.0);
    Quotient(num, den, -0.5);
  }

  lemma NumAboveHalf(ex: real, rest: real, t: real)
    requires 0.0 < ex < t && rest >= -t
    ensures Times(ex, rest) > -Sq(t)
  {
    TimesDiff(ex, rest, -t);
    TimesDiff(t, t, ex);
    assert Times(ex, -t) == -Times(t, ex);
    assert Sq(t) == Times(t, t);
    hide Times;
  }

  lemma TimesDiff(z: real, x: real, y: real)
    requires z > 0.0
    ensures Times(z, x) - Times(z, y) == Times(z, x - y)
    ensures x > y ==> Times(z, x) > Times(z, y)
    ensures x == y ==> Times(z, x) == Times(z, y)
  {
    assert Times(z, x) - Times(z, y) == Times(z, x - y);
    hide Times;
  }

  function F(m: Math, p: Period, x: real): real
    requires Valid(m) && Proper(p)
  {
    Pull(p, m.exp(x)) - (x - Start(m, p)) / Sq(p.tau)
  }

  /** At the start f is the pull alone. */
  lemma AtStart(m: Math, p: Period)
    requires Valid(m) && Proper(p)
    ensures m.exp(Start(m, p)) == Sq(p.sigma)
    ensures F(m, p, Start(m, p)) == Pull(p, Sq(p.sigma))
  {
    hide Sq, Pull;
    assert m.exp(m.log(Sq(p.sigma))) == Sq(p.sigma);
    Quotient(0.0, Sq(p.tau), 0.0);
  }

  lemma SlopeBelow(tau: real, k: real)
    requires tau > 0.0
    ensures -(k * tau) / Sq(tau) == -(k / tau)
    ensures k >= tau / 2.0 <==> k / tau >= 0.5
  {
    var q := k / tau;
    assert q * tau == k;
    assert -(k * tau) == -q * (tau * tau);
    Quotient(-(k * tau), Sq(tau), -q);
    Quotient(k, tau, 0.5);
  }

  /** The point k steps of tau below the start. */
  function Rung(m: Math, p: Period, k: nat): real {
    Start(m, p) - k as real * p.tau
  }

  /** k steps of tau below the start f is above k / tau - 1/2, so it is positive from k = tau / 2 on. */
  lemma BelowStart(m: Math, p: Period, k: nat)
    requires Valid(m) && Proper(p)
    ensures F(m, p, Rung(m, p, k)) > k as real / p.tau - 0.5
    ensures k as real >= p.tau / 2.0 ==> F(m, p, Rung(m, p, k)) > 0.0
  {
    SlopeBelow(p.tau, k as real);
    var x := Rung(m, p, k);
    hide Sq, Pull, Start;
    assert x - Start(m, p) == -(k as real * p.tau);
    assert Pull(p, m.exp(x)) > -0.5;
  }

  // ---------- The two loops of Step 5 ----------

  /** x and y are on the two sides of zero, x not on zero. */
  predicate Opposite(x: real, y: real) {
    (x > 0.0 && y <= 0.0) || (x < 0.0 && y >= 0.0)
  }

  /** f has a root at the one point, or changes sign between the two, with the first on no root. */
  ghost predicate SignChange(m: Math, p: Period, x: real, y: real)
    requires Valid(m) && Proper(p)
  {
    (x == y && F(m, p, x) == 0.0) || Opposite(F(m, p, x), F(m, p, y))
  }

  /** The first step of tau below the start, from one step on, where f is not negative. */
  ghost predicate FirstRung(m: Math, p: Period, k: nat)
    requires Valid(m) && Proper(p)
  {
    && k >= 1 && F(m, p, Rung(m, p, k)) >= 0.0
    && forall j: nat | 1 <= j < k :: F(m, p, Rung(m, p, j)) < 0.0
  }

  /** The other end of the bracket: the logarithm of the surplus when there is one, that rung otherwise. */
  ghost predicate OtherEnd(m: Math, p: Period, b: real)
    requires Valid(m) && Proper(p)
  {
    if Surplus(p) > 0.0 then b == m.log(Surplus(p)) else exists k: nat :: FirstRung(m, p, k) && b == Rung(m, p, k)
  }

  /** The widening loop stops at the latest one step past tau / 2. */
  method Bracket(m: Math, p: Period) returns (b: real)
    requires Valid(m) && Proper(p)
    ensures OtherEnd(m, p, b) && SignChange(m, p, Start(m, p), b)
    ensures Surplus(p) <= 0.0 ==> Start(m, p) - Sq(p.tau) / 2.0 - p.tau < b < Start(m, p) && F(m, p, b) >= 0.0
  {
    hide Sq, Pull, F, Start;
    if Sq(p.delta) > Sq(p.phi) + p.v {
      b := m.log(Sq(p.delta) - Sq(p.phi) - p.v);
      LogSide(m, p);
      return;
    }
    var k := 1;
    while F(m, p, Rung(m, p, k)) < 0.0
      invariant k >= 1
      invariant forall j: nat | 1 <= j < k :: F(m, p, Rung(m, p, j)) < 0.0
      invariant k == 1 || k as real < p.tau / 2.0 + 1.0
      decreases (p.tau / 2.0).Floor + 1 - k
    {
      BelowStart(m, p, k);
      k := k + 1;
    }
    b := Rung(m, p, k);
    AtStart(m, p);
    RungWidth(m, p, k);
    assert FirstRung(m, p, k);
  }

  lemma LogSide(m: Math, p: Period)
    requires Valid(m) && Proper(p) && Surplus(p) > 0.0
    ensures var a, b := Start(m, p), m.log(Surplus(p));
            SignChange(m, p, a, b)
  {
    var a, b := Start(m, p), m.log(Surplus(p));
    AtStart(m, p);
    LogMonotone(m, Sq(p.sigma), Surplus(p));
    LogMonotone(m, Surplus(p), Sq(p.sigma));
    hide Sq, Surplus, Spread;
    assert m.exp(b) == Surplus(p);
    assert Pull(p, m.exp(b)) == 0.0;
    Quotient(b - a, Sq(p.tau), 0.0);
  }

  /** The point where the line through two points on opposite sides crosses zero lies between them. */
  function Secant(a: real, b: real, fa: real, fb: real): real
    requires Opposite(fa, fb)
  {
    a + ((a - b) * fa) / (fb - fa)
  }

  lemma SecantBetween(a: real, b: real, fa: real, fb: real)
    requires Opposite(fa, fb)
    ensures var c := Secant(a, b, fa, fb);
            && (a <= c <= b || b <= c <= a)
            && (c == b <==> a == b || fb == 0.0)
  {
    var d := fb - fa;
    var t := -fa / d;
    ShareOf(fa, fb);
    assert t * d == -fa;
    assert ((a - b) * fa) / d == (b - a) * t by {
      assert (a - b) * fa == ((b - a) * t) * d;
    }
    if a < b {
      Share(b - a, t);
    } else if b < a {
      Share(a - b, t);
      assert (b - a) * t == -((a - b) * t);
    }
  }

  lemma ShareOf(fa: real, fb: real)
    requires Opposite(fa, fb)
    ensures 0.0 < -fa / (fb - fa) <= 1.0 && (fb == 0.0 <==> -fa / (fb - fa) == 1.0)
  {
    var d := fb - fa;
    if d > 0.0 {
      Quotient(-fa, d, 0.0);
      Quotient(-fa, d, 1.0);
    } else {
      Quotient(fa, -d, 0.0);
      Quotient(fa, -d, 1.0);
      assert -fa / d == fa / -d;
    }
  }

  lemma Share(w: real, t: real)
    requires w > 0.0 && 0.0 < t <= 1.0
    ensures 0.0 < w * t <= w
    ensures t == 1.0 <==> w * t == w
  {
    if t < 1.0 {
      TimesLess(t, 1.0, w);
    }
    Product(w, t);
  }

  function Abs(x: real): real {
    if x < 0.0 then -x else x
  }

  ghost predicate Inside(a: real, b: real, x: real) {
    a <= x <= b || b <= x <= a
  }

  /** The variables of the iteration: two points and the values f is taken to have there. */
  datatype Search = Search(a: real, b: real, fa: real, fb: real)

  /** One round. The first point moves up when the new one is across zero, otherwise its value is halved. */
  function Next(m: Math, p: Period, s: Search): Search
    requires Valid(m) && Proper(p)
  {
    if !Opposite(s.fa, s.fb) then s
    else
      var c := Secant(s.a, s.b, s.fa, s.fb);
      var fc := F(m, p, c);
      if Times(fc, s.fb) <= 0.0 then Search(s.b, c, s.fb, fc) else Search(s.a, c, s.fa / 2.0, fc)
  }

  /** The variables after n rounds. */
  function Rounds(m: Math, p: Period, b0: real, n: nat): Search
    requires Valid(m) && Proper(p)
  {
    if n == 0 then Search(Start(m, p), b0, F(m, p, Start(m, p)), F(m, p, b0)) else Next(m, p, Rounds(m, p, b0, n - 1))
  }

  /** Both points in the first bracket, f exact at the second, of the right sign at the first, and a sign change. */
  ghost predicate Bracketed(m: Math, p: Period, b0: real, s: Search)
    requires Valid(m) && Proper(p)
  {
    && Inside(Start(m, p), b0, s.a) && Inside(Start(m, p), b0, s.b)
    && s.fb == F(m, p, s.b)
    && (s.fa > 0.0 <==> F(m, p, s.a) > 0.0) && (s.fa < 0.0 <==> F(m, p, s.a) < 0.0)
    && ((s.a == s.b && s.fb == 0.0) || Opposite(s.fa, s.fb))
  }

  lemma NextBracketed(m: Math, p: Period, b0: real, s: Search)
    requires Valid(m) && Proper(p) && Bracketed(m, p, b0, s)
    ensures Bracketed(m, p, b0, Next(m, p, s))
  {
    hide F, Start, Secant, Times, Valid;
    if Opposite(s.fa, s.fb) {
      SecantBetween(s.a, s.b, s.fa, s.fb);
    }
  }

  /** From a bracket with a sign change every round keeps one, inside the one before. */
  lemma {:induction false} RoundsBracketed(m: Math, p: Period, b0: real, n: nat)
    requires Valid(m) && Proper(p) && SignChange(m, p, Start(m, p), b0)
    ensures Bracketed(m, p, b0, Rounds(m, p, b0, n))
    ensures SignChange(m, p, Rounds(m, p, b0, n).a, Rounds(m, p, b0, n).b)
  {
    hide F, Start, Valid, Next;
    if n > 0 {
      RoundsBracketed(m, p, b0, n - 1);
      NextBracketed(m, p, b0, Rounds(m, p, b0, n - 1));
    }
  }

  function Gap(s: Search): real {
    Abs(s.b - s.a)
  }

  /** n is where the loop stops: the first round with the points within eps, or the thousandth. */
  ghost predicate Stops(m: Math, p: Period, b0: real, n: nat)
    requires Valid(m) && Proper(p)
  {
    && n <= 1000
    && (forall k: nat | k < n :: Gap(Rounds(m, p, b0, k)) > p.eps)
    && (n < 1000 ==> Gap(Rounds(m, p, b0, n)) <= p.eps)
  }

  /** s is what Step 5 gives: e to half the first point where the iteration stops, on a bracket it really has. */
  ghost predicate Solves(m: Math, p: Period, s: real, b0: real, n: nat)
    requires Valid(m) && Proper(p)
  {
    && OtherEnd(m, p, b0) && SignChange(m, p, Start(m, p), b0)
    && Stops(m, p, b0, n)
    && s == m.exp(Rounds(m, p, b0, n).a / 2.0)
  }

  lemma OneEnd(m: Math, p: Period, b: real, c: real)
    requires Valid(m) && Proper(p) && OtherEnd(m, p, b) && OtherEnd(m, p, c)
    ensures b == c
  {
    hide F, Surplus, Rung, Valid;
    if Surplus(p) <= 0.0 {
      var j: nat :| FirstRung(m, p, j) && b == Rung(m, p, j);
      var k: nat :| FirstRung(m, p, k) && c == Rung(m, p, k);
      assert j == k;
    }
  }

  /** Only one number solves Step 5. */
  lemma OneSolution(m: Math, p: Period, s: real, b: real, n: nat, t: real, c: real, k: nat)
    requires Valid(m) && Proper(p) && Solves(m, p, s, b, n) && Solves(m, p, t, c, k)
    ensures s == t
  {
    OneEnd(m, p, b, c);
    hide OtherEnd, SignChange, Rounds, Gap, Valid;
    assert n == k;
  }

  /**
   * Step 5. No division by zero. The result is the one solution: it comes from the first of two points of the first
   * bracket with a sign change between them, closer than eps unless a thousand rounds did not do.
   */
  method NewVolatility(m: Math, p: Period) returns (s: real, ghost b0: real, ghost n: nat)
    requires Valid(m) && Proper(p)
    ensures s > 0.0 && s == m.exp(Rounds(m, p, b0, n).a / 2.0)
    ensures Solves(m, p, s, b0, n)
    ensures var last := Rounds(m, p, b0, n);
            && Inside(Start(m, p), b0, last.a) && Inside(Start(m, p), b0, last.b)
            && SignChange(m, p, last.a, last.b)
            && (n < 1000 ==> Abs(last.b - last.a) <= p.eps)
    ensures Surplus(p) <= 0.0 ==> Start(m, p) - Sq(p.tau) / 2.0 - p.tau < b0 < Start(m, p) && F(m, p, b0) >= 0.0
  {
    hide Sq, Pull, F, Start, Surplus, Valid, Rounds, OtherEnd, SignChange;
    var b := Bracket(m, p);
    b0 := b;
    var a;
    a, n := Illinois(m, p, b);
    RoundsBracketed(m, p, b0, n);
    s := m.exp(a / 2.0);
    ExpPositive(m, a / 2.0);
  }

  /** The second loop, from a bracket with a sign change. */
  method Illinois(m: Math, p: Period, b0: real) returns (r: real, ghost n: nat)
    requires Valid(m) && Proper(p)
    requires SignChange(m, p, Start(m, p), b0)
    ensures Stops(m, p, b0, n) && r == Rounds(m, p, b0, n).a
    ensures Inside(Start(m, p), b0, r)
    ensures var last := Rounds(m, p, b0, n);
            Inside(Start(m, p), b0, last.b) && SignChange(m, p, r, last.b)
  {
    hide Sq, Pull, F, Start, Surplus, Secant, Valid, SignChange;
    var a, b := Start(m, p), b0;
    var fa, fb := F(m, p, a), F(m, p, b);
    var iter := 0;
    while Abs(b - a) > p.eps && iter < 1000
      invariant 0 <= iter <= 1000
      invariant Search(a, b, fa, fb) == Rounds(m, p, b0, iter)
      invariant forall k: nat | k < iter :: Gap(Rounds(m, p, b0, k)) > p.eps
      decreases 1000 - iter
    {
      RoundsBracketed(m, p, b0, iter);
      iter := iter + 1;
      var c := Secant(a, b, fa, fb);
      var fc := F(m, p, c);
      if Times(fc, fb) <= 0.0 {
        a, fa := b, fb;
      } else {
        fa := fa / 2.0;
      }
      b, fb := c, fc;
    }
    RoundsBracketed(m, p, b0, iter);
    r, n := a, iter;
  }

  lemma ExpPositive(m: Math, x: real)
    requires Valid(m)
    ensures m.exp(x) > 0.0
  {
  }

  lemma RungWidth(m: Math, p: Period, k: nat)
    requires p.tau > 0.0 && k >= 1 && (k == 1 || k as real < p.tau / 2.0 + 1.0)
    ensures Start(m, p) - Sq(p.tau) / 2.0 - p.tau < Rung(m, p, k) < Start(m, p)
  {
    hide Start;
    var x := k as real;
    Product(x, p.tau);
    if k != 1 {
      TimesLess(x, p.tau / 2.0 + 1.0, p.tau);
      assert (p.tau / 2.0 + 1.0) * p.tau == Sq(p.tau) / 2.0 + p.tau;
    }
  }

  // ---------- Ratings ----------

  const SCALE := 173.7178
  const DEFAULT_RATING := 1500.0
  const DEFAULT_RD := 350.0
  const DEFAULT_TAU := 0.5
  const DEFAULT_EPSILON := 0.000001

  datatype Rating = Rating(rating: real, rd: real, volatility: real)

  datatype Options = Options(tau: Option<real>, maxRd: Option<real>, minRd: Option<real>, epsilon: Option<real>)

  /** One game: the opponent's rating and deviation, and 1, 0.5 or 0. */
  datatype Game = Game(rating: real, rd: real, score: real)

  function Or(x: Option<real>, other: real): real {
    if x.Some? then x.value else other
  }

  predicate Usable(o: Options) {
    Or(o.tau, DEFAULT_TAU) > 0.0 && Or(o.epsilon, DEFAULT_EPSILON) >= 0.0
  }

  function ToMu(r: real): real {
    (r - DEFAULT_RATING) / SCALE
  }

  function ToPhi(rd: real): real {
    rd / SCALE
  }

  function Max(x: real, y: real): real {
    if x >= y then x else y
  }

  function Min(x: real, y: real): real {
    if x <= y then x else y
  }

  function ClampRd(rd: real, o: Options): real {
    Min(Or(o.maxRd, DEFAULT_RD), Max(Or(o.minRd, 0.0), rd))
  }

  /** How much a game counts against an opponent of this deviation, Step 3. */
  function G(m: Math, phi: real): (r: real)
    requires Valid(m)
    ensures 0.0 < r <= 1.0
  {
    var under := 1.0 + 3.0 * Sq(phi) / Sq(m.pi);
    Quotient(3.0 * Sq(phi), Sq(m.pi), -0.5);
    Damping(m, phi);
    1.0 / m.sqrt(under)
  }

  lemma Damping(m: Math, phi: real)
    requires Valid(m)
    ensures m.sqrt(1.0 + 3.0 * Sq(phi) / Sq(m.pi)) >= 1.0
    ensures var s := m.sqrt(1.0 + 3.0 * Sq(phi) / Sq(m.pi)); 0.0 < 1.0 / s <= 1.0
  {
    var q := 3.0 * Sq(phi) / Sq(m.pi);
    assert q >= 0.0 by {
      Quotient(3.0 * Sq(phi), Sq(m.pi), 0.0);
    }
    var s := m.sqrt(1.0 + q);
    hide Sq;
    assert s * s == 1.0 + q && s >= 0.0;
    if s < 1.0 && s > 0.0 {
      TimesLess(s, 1.0, s);
    }
    Quotient(1.0, s, 0.0);
    Quotient(1.0, s, 1.0);
  }

  /** Expected score, Step 3. */
  function E(m: Math, mu: real, muJ: real, phiJ: real): (r: real)
    requires Valid(m)
    ensures 0.0 < r < 1.0
    ensures r > 0.5 <==> mu > muJ
    ensures r == 0.5 <==> mu == muJ
  {
    var x := m.exp(-Times(G(m, phiJ), mu - muJ));
    OddsSide(m, Times(G(m, phiJ), mu - muJ));
    1.0 / (1.0 + x)
  }

  /** Odds of e to the minus y to one: at most even exactly when y is not negative. */
  lemma OddsSide(m: Math, y: real)
    requires Valid(m)
    ensures var x := m.exp(-y);
            && x > 0.0 && 0.0 < 1.0 / (1.0 + x) < 1.0
            && (1.0 / (1.0 + x) > 0.5 <==> y > 0.0) && (1.0 / (1.0 + x) == 0.5 <==> y == 0.0)
  {
    var x := m.exp(-y);
    assert m.exp(0.0) == 1.0 && x > 0.0;
    assert x < 1.0 <==> y > 0.0;
    assert x == 1.0 <==> y == 0.0;
    hide Valid;
    Quotient(1.0, 1.0 + x, 0.0);
    Quotient(1.0, 1.0 + x, 0.5);
    Quotient(1.0, 1.0 + x, 1.0);
  }

  /** Expected score of a player in a game. */
  function Expected(m: Math, player: Rating, game: Game): real
    requires Valid(m)
  {
    E(m, ToMu(player.rating), ToMu(game.rating), ToPhi(game.rd))
  }

  function Weight(m: Math, player: Rating, game: Game): (r: real)
    requires Valid(m)
    ensures r > 0.0
  {
    var g, e := G(m, ToPhi(game.rd)), Expected(m, player, game);
    Times(Sq(g), Times(e, 1.0 - e))
  }

  function Gain(m: Math, player: Rating, game: Game): (r: real)
    requires Valid(m)
    ensures r > 0.0 <==> game.score > Expected(m, player, game)
    ensures r == 0.0 <==> game.score == Expected(m, player, game)
  {
    Times(G(m, ToPhi(game.rd)), game.score - Expected(m, player, game))
  }

  /** One over the variance v of Step 3. */
  function Information(m: Math, player: Rating, games: seq<Game>): (r: real)
    requires Valid(m)
    ensures r >= 0.0 && (games != [] ==> r > 0.0)
  {
    if games == [] then 0.0
    else Information(m, player, games[..|games| - 1]) + Weight(m, player, games[|games| - 1])
  }

  /** The sum of Step 4. */
  function Gains(m: Math, player: Rating, games: seq<Game>): real
    requires Valid(m)
  {
    if games == [] then 0.0
    else Gains(m, player, games[..|games| - 1]) + Gain(m, player, games[|games| - 1])
  }

  /** The new deviation of Step 7 from the inflated one and v: below both. */
  function Tighter(m: Math, inflated: real, v: real): (r: real)
    requires Valid(m) && inflated > 0.0 && v > 0.0
    ensures 0.0 < r < inflated && r < m.sqrt(v)
    ensures Sq(r) == 1.0 / (1.0 / Sq(inflated) + 1.0 / v)
  {
    TighterBounds(m, inflated, v);
    1.0 / m.sqrt(1.0 / Sq(inflated) + 1.0 / v)
  }

  lemma InverseSquare(m: Math, x: real)
    requires Valid(m) && x > 0.0
    ensures m.sqrt(x) > 0.0 && 1.0 / m.sqrt(x) > 0.0
    ensures Sq(1.0 / m.sqrt(x)) == 1.0 / x
  {
    SqrtPositive(m, x);
    var s := m.sqrt(x);
    assert s * s == x;
    var r := 1.0 / s;
    Quotient(1.0, s, 0.0);
    assert r * s == 1.0;
    assert (r * r) * x == (r * s) * (r * s);
    assert Sq(r) == r * r;
    Quotient(1.0, x, r * r);
  }

  lemma InverseLess(x: real, y: real)
    requires 0.0 < x < y
    ensures 0.0 < 1.0 / y < 1.0 / x
  {
    Quotient(1.0, y, 0.0);
    var q := 1.0 / y;
    assert q * y == 1.0;
    TimesLess(x, y, q);
    Quotient(1.0, x, q);
  }

  lemma TighterBounds(m: Math, inflated: real, v: real)
    requires Valid(m) && inflated > 0.0 && v > 0.0
    ensures 1.0 / Sq(inflated) + 1.0 / v > 0.0
    ensures m.sqrt(1.0 / Sq(inflated) + 1.0 / v) > 0.0
    ensures var r := 1.0 / m.sqrt(1.0 / Sq(inflated) + 1.0 / v);
            0.0 < r < inflated && r < m.sqrt(v) && Sq(r) == 1.0 / (1.0 / Sq(inflated) + 1.0 / v)
  {
    var i, j := 1.0 / Sq(inflated), 1.0 / v;
    Quotient(1.0, Sq(inflated), 0.0);
    Quotient(1.0, v, 0.0);
    InverseSquare(m, i + j);
    var r := 1.0 / m.sqrt(i + j);
    hide Sq;
    InverseLess(i, i + j);
    InverseLess(j, i + j);
    Twice(Sq(inflated));
    Twice(v);
    assert Sq(r) < Sq(inflated) && Sq(r) < v;
    SquareLess(r, inflated);
    SquareIs(r);
    hide Valid;
    assert r < m.sqrt(v) by {
      RootAbove(m, r, v);
    }
  }

  lemma Twice(x: real)
    requires x > 0.0
    ensures 1.0 / (1.0 / x) == x
  {
    Quotient(1.0, x, 0.0);
    assert (1.0 / x) * x == 1.0;
    Quotient(1.0, 1.0 / x, x);
  }

  lemma SquareIs(x: real)
    ensures Sq(x) == x * x
  {
  }

  lemma SquareLess(x: real, y: real)
    requires Sq(x) < Sq(y) && y > 0.0
    ensures x < y
  {
    assert Times(x, y) == Times(y, x);
    hide Times;
    if x >= y {
      TimesDiff(x, x, y);
      TimesDiff(y, x, y);
    }
  }

  lemma RootAbove(m: Math, r: real, v: real)
    requires Valid(m) && r > 0.0 && v > 0.0 && Sq(r) < v
    ensures r < m.sqrt(v)
  {
    SqrtLess(m, r, v);
  }

  /** The deviation a player enters the period with, Step 6. */
  function Inflated(m: Math, rd: real, volatility: real): (r: real)
    requires Valid(m)
    ensures volatility > 0.0 ==> r > 0.0
  {
    var under := Sq(ToPhi(rd)) + Sq(volatility);
    if under > 0.0 then SqrtPositive(m, under); m.sqrt(under) else m.sqrt(under)
  }

  /** What Step 5 is given for a player and games: v and delta of Steps 3 and 4. */
  function PeriodOf(m: Math, player: Rating, games: seq<Game>, o: Options): (p: Period)
    requires Valid(m) && games != [] && Usable(o) && player.volatility != 0.0
    ensures Proper(p)
  {
    var v := 1.0 / Information(m, player, games);
    Quotient(1.0, Information(m, player, games), 0.0);
    Period(player.volatility, ToPhi(player.rd), v, Times(v, Gains(m, player, games)),
           Or(o.tau, DEFAULT_TAU), Or(o.epsilon, DEFAULT_EPSILON))
  }

  /**
   * now is player after the games. phi is the new deviation before it is scaled and clamped: below the inflated one
   * and below the root of v. The rating moves by its square times the gains. The volatility is the solution of Step 5.
   */
  ghost predicate Rated(m: Math, player: Rating, games: seq<Game>, o: Options, now: Rating, phi: real, b0: real, n: nat)
    requires Valid(m) && games != [] && Usable(o) && player.volatility != 0.0
  {
    && now.volatility > 0.0
    && Solves(m, PeriodOf(m, player, games, o), now.volatility, b0, n)
    && 0.0 < phi < Inflated(m, player.rd, now.volatility)
    && phi < m.sqrt(1.0 / Information(m, player, games))
    && Sq(phi) == 1.0 / (1.0 / Sq(Inflated(m, player.rd, now.volatility)) + Information(m, player, games))
    && now.rd == ClampRd(phi * SCALE, o)
    && now.rating == player.rating + SCALE * Times(Sq(phi), Gains(m, player, games))
  }

  lemma SameRoot(x: real, y: real)
    requires x > 0.0 && y > 0.0 && Sq(x) == Sq(y)
    ensures x == y
  {
    assert Times(x, y) == Times(y, x);
    TimesDiff(x, x, y);
    TimesDiff(x, y, x);
    TimesDiff(y, x, y);
    TimesDiff(y, y, x);
  }

  /** A player and games have one new rating. */
  lemma OneRating(m: Math, player: Rating, games: seq<Game>, o: Options, now: Rating, phi: real, b0: real, n: nat,
                  also: Rating, phi2: real, b2: real, n2: nat)
    requires Valid(m) && games != [] && Usable(o) && player.volatility != 0.0
    requires Rated(m, player, games, o, now, phi, b0, n) && Rated(m, player, games, o, also, phi2, b2, n2)
    ensures now == also
  {
    hide Valid, Solves, Sq, Times, ClampRd, Inflated, Information, Gains;
    OneSolution(m, PeriodOf(m, player, games, o), now.volatility, b0, n, also.volatility, b2, n2);
    SameRoot(phi, phi2);
  }

  /** Steps 3 to 8 for one player. */
  method UpdateRating(m: Math, player: Rating, games: seq<Game>, o: Options)
    returns (r: Rating, ghost phi: real, ghost b0: real, ghost n: nat)
    requires Valid(m) && Usable(o) && player.volatility != 0.0
    ensures games == [] ==> r.rating == player.rating && r.volatility == player.volatility
    ensures games == [] ==> r.rd == ClampRd(Inflated(m, player.rd, player.volatility) * SCALE, o)
    ensures games != [] ==> Rated(m, player, games, o, r, phi, b0, n)
  {
    hide Sq, Times, Weight, Gain, Valid, Proper, Tighter, Solves, Inside, SignChange, Rounds, Surplus, Start, F;
    phi, b0, n := 0.0, 0.0, 0;
    var tau, eps := Or(o.tau, DEFAULT_TAU), Or(o.epsilon, DEFAULT_EPSILON);
    var mu, phi0, sigma := ToMu(player.rating), ToPhi(player.rd), player.volatility;
    if games == [] {
      r := Rating(player.rating, ClampRd(Inflated(m, player.rd, sigma) * SCALE, o), sigma);
      return;
    }
    var vInv, sum := 0.0, 0.0;
    var i := 0;
    while i < |games|
      invariant 0 <= i <= |games|
      invariant vInv == Information(m, player, games[..i])
      invariant sum == Gains(m, player, games[..i])
    {
      assert games[..i + 1][..i] == games[..i];
      vInv := vInv + Weight(m, player, games[i]);
      sum := sum + Gain(m, player, games[i]);
      i := i + 1;
    }
    assert games[..i] == games;
    var v := 1.0 / vInv;
    Quotient(1.0, vInv, 0.0);
    Twice(vInv);
    var period := Period(sigma, phi0, v, Times(v, sum), tau, eps);
    assert period == PeriodOf(m, player, games, o);
    var sigmaNew;
    sigmaNew, b0, n := NewVolatility(m, period);
    var star := Inflated(m, player.rd, sigmaNew);
    var phiNew := Tighter(m, star, v);
    var muNew := mu + Times(Sq(phiNew), sum);
    BackToRating(player.rating, Times(Sq(phiNew), sum));
    phi := phiNew;
    r := Rating(muNew * SCALE + DEFAULT_RATING, ClampRd(phiNew * SCALE, o), sigmaNew);
  }

  lemma BackToRating(rating: real, step: real)
    ensures (ToMu(rating) + step) * SCALE + DEFAULT_RATING == rating + SCALE * step
  {
  }

  // ---------- Teams ----------

  function Sum(team: seq<real>): real {
    if team == [] then 0.0 else Sum(team[..|team| - 1]) + team[|team| - 1]
  }

  function Mean(xs: seq<real>): real
    requires xs != []
  {
    Sum(xs) / |xs| as real
  }

  function RatingsOf(team: seq<Rating>): seq<real> {
    seq(|team|, i requires 0 <= i < |team| => team[i].rating)
  }

  function RdsOf(team: seq<Rating>): seq<real> {
    seq(|team|, i requires 0 <= i < |team| => team[i].rd)
  }

  /** What a player plays against: the other team's mean rating and deviation. */
  function Against(team: seq<Rating>, score: real): Game
    requires team != []
  {
    Game(Mean(RatingsOf(team)), Mean(RdsOf(team)), score)
  }

  /** now is before after one game, so the rating moved toward the score. */
  ghost predicate Moved(m: Math, before: Rating, now: Rating, game: Game, o: Options)
    requires Valid(m) && Usable(o) && before.volatility != 0.0
  {
    && (now.rating > before.rating <==> game.score > Expected(m, before, game))
    && (now.rating < before.rating <==> game.score < Expected(m, before, game))
    && exists phi, b0, n :: Rated(m, before, [game], o, now, phi, b0, n)
  }

  method UpdateTeam(m: Math, team: seq<Rating>, game: Game, o: Options) returns (now: seq<Rating>)
    requires Valid(m) && Usable(o) && forall p | p in team :: p.volatility != 0.0
    ensures |now| == |team| && forall i | 0 <= i < |team| :: Moved(m, team[i], now[i], game, o)
  {
    hide Moved, Valid;
    now := [];
    for i := 0 to |team|
      invariant |now| == i && forall j | 0 <= j < i :: Moved(m, team[j], now[j], game, o)
    {
      var r, phi, b0, n := UpdateRating(m, team[i], [game], o);
      OneGame(m, team[i], r, game, o, phi, b0, n);
      now := now + [r];
    }
  }

  lemma OneGame(m: Math, before: Rating, now: Rating, game: Game, o: Options, phi: real, b0: real, n: nat)
    requires Valid(m) && Usable(o) && before.volatility != 0.0
    requires Rated(m, before, [game], o, now, phi, b0, n)
    ensures Moved(m, before, now, game, o)
  {
    assert [game][..0] == [];
    assert Gains(m, before, [game]) == Gain(m, before, game);
    hide Valid, Solves, Sq, Times, Gain, Gains, Information, Inflated, ClampRd, PeriodOf;
    assert now.rating == before.rating + SCALE * Times(Sq(phi), Gain(m, before, game));
    hide Rated;
  }

  /**
   * Every player of both teams against the mean of the other team. It fails exactly on an empty team or a score
   * outside 0 to 1. A player's rating rises exactly when the score beats what was expected of that player.
   */
  method UpdateTeamMatch(m: Math, teamA: seq<Rating>, teamB: seq<Rating>, scoreA: real, o: Options)
    returns (r: Result<(seq<Rating>, seq<Rating>)>)
    requires Valid(m) && Usable(o)
    requires forall p | p in teamA + teamB :: p.volatility != 0.0
    ensures r.Ok? <==> 0.0 <= scoreA <= 1.0 && teamA != [] && teamB != []
    ensures r.Ok? ==> |r.value.0| == |teamA| && |r.value.1| == |teamB|
    ensures r.Ok? ==> forall i | 0 <= i < |teamA| :: Moved(m, teamA[i], r.value.0[i], Against(teamB, scoreA), o)
    ensures r.Ok? ==> forall i | 0 <= i < |teamB| :: Moved(m, teamB[i], r.value.1[i], Against(teamA, 1.0 - scoreA), o)
  {
    hide Moved, Valid;
    if scoreA < 0.0 || scoreA > 1.0 {
      return Err("scoreA must be between 0 and 1");
    }
    if teamA == [] || teamB == [] {
      return Err("team is empty");
    }
    assert forall p | p in teamA :: p in teamA + teamB;
    assert forall p | p in teamB :: p in teamA + teamB;
    var nowA := UpdateTeam(m, teamA, Against(teamB, scoreA), o);
    var nowB := UpdateTeam(m, teamB, Against(teamA, 1.0 - scoreA), o);
    return Ok((nowA, nowB));
  }

  /** After a win every winner's rating is strictly higher and every loser's strictly lower. */
  lemma WinnersRiseLosersFall(m: Math, before: Rating, now: Rating, opponents: seq<Rating>, score: real, o: Options)
    requires Valid(m) && Usable(o) && before.volatility != 0.0
    requires opponents != [] && Moved(m, before, now, Against(opponents, score), o)
    ensures score == 1.0 ==> now.rating > before.rating
    ensures score == 0.0 ==> now.rating < before.rating
  {
    var e := Expected(m, before, Against(opponents, score));
    hide Valid, Rated, Against;
  }
}
