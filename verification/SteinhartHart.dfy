/** Steinhart-Hart coefficients: fitting three points, the curve, and its inverse. */
module SteinhartHart {
  import opened Wrappers

  function Cube(x: real): real { x * x * x }

  // The real functions the program takes from its mathematics library, and the
  // laws that define them.
  datatype Library = Library(ln: real -> real, exp: real -> real, sqrt: real -> real, cbrt: real -> real) {
    ghost predicate Lawful() {
      && (forall x {:trigger exp(x)} :: exp(x) > 0.0 && ln(exp(x)) == x)
      && (forall x {:trigger ln(x)} | x > 0.0 :: exp(ln(x)) == x)
      && (forall x {:trigger sqrt(x)} | x >= 0.0 :: sqrt(x) >= 0.0 && Times(sqrt(x), sqrt(x)) == x)
      && (forall x {:trigger cbrt(x)} | x >= 0.0 :: cbrt(x) >= 0.0 && Cube(cbrt(x)) == x)
    }
  }

  datatype Units = Fahrenheit | Celsius

  function ToKelvin(temp: real, units: Units): real {
    if units.Fahrenheit? then (temp - 32.0) * 5.0 / 9.0 + 273.15 else temp + 273.15
  }

  function FromKelvin(k: real, units: Units): real {
    var celsius := k - 273.15;
    if units.Fahrenheit? then celsius * 9.0 / 5.0 + 32.0 else celsius
  }

  // The reciprocal temperature the coefficients give at log-resistance l.
  function Curve(a: real, b: real, c: real, l: real): real {
    a + b * l + c * Cube(l)
  }

  datatype Fit = Coefficients(a: real, b: real, c: real) | ValueError | ZeroDivisionError

  function Linear(g2: real, c: real, l1: real, l2: real): real { g2 - c * (l1 * l1 + l1 * l2 + l2 * l2) }

  function Constant(y1: real, b: real, c: real, l1: real): real { y1 - (b + l1 * l1 * c) * l1 }

  function Solve(y1: real, y2: real, y3: real, l1: real, l2: real, l3: real): Fit {
    if l2 == l1 || l3 == l1 || l3 == l2 then ValueError
    else if l1 + l2 + l3 == 0.0 then ZeroDivisionError
    else
      var g2 := Over(y2 - y1, l2 - l1);
      var g3 := Over(y3 - y1, l3 - l1);
      var c := Times(Over(g3 - g2, l3 - l2), Over(1.0, l1 + l2 + l3));
      var b := Linear(g2, c, l1, l2);
      Coefficients(Constant(y1, b, c, l1), b, c)
  }

  // Fits three temperatures t against three resistances r.
  function ShhCoefficients(lib: Library, t1: real, t2: real, t3: real, r1: real, r2: real, r3: real,
                           units: Units): Fit
  {
    var k1, k2, k3 := ToKelvin(t1, units), ToKelvin(t2, units), ToKelvin(t3, units);
    if r1 <= 0.0 || r2 <= 0.0 || r3 <= 0.0 then ValueError
    else
      var l1, l2, l3 := lib.ln(r1), lib.ln(r2), lib.ln(r3);
      if k1 == 0.0 || k2 == 0.0 || k3 == 0.0 then ZeroDivisionError
      else Solve(1.0 / k1, 1.0 / k2, 1.0 / k3, l1, l2, l3)
  }

  function Mixed(x: real, y: real): real { x * x + x * y + y * y }

  // The slope of a curve between two logarithms.
  function Chord(b: real, c: real, l: real, l': real): real { b + c * Mixed(l, l') }

  function TrToTemp(lib: Library, tr: real, a: real, b: real, c: real, units: Units): Option<real> {
    if tr <= 0.0 then None
    else
      var denom := Curve(a, b, c, lib.ln(tr));
      if denom == 0.0 then None else Some(FromKelvin(1.0 / denom, units))
  }

  // A negative number to the power 1/3 is complex, and exp refuses it with an
  // exception that the function does not catch.
  datatype Inverse = Resistance(tr: real) | NoResult | TypeError

  function Radicand(p: real, x: real): real { Cube(p) + x * x / 4.0 }

  function TempToTr(lib: Library, temp: real, a: real, b: real, c: real, units: Units): Inverse {
    var k := ToKelvin(temp, units);
    if k == 0.0 || c == 0.0 then NoResult
    else
      var x := Over(a - 1.0 / k, c);
      var radicand := Radicand(Over(b, 3.0 * c), x);
      if radicand < 0.0 then NoResult
      else
        var y := lib.sqrt(radicand);
        if y - x / 2.0 < 0.0 || y + x / 2.0 < 0.0 then TypeError
        else Resistance(lib.exp(lib.cbrt(y - x / 2.0) - lib.cbrt(y + x / 2.0)))
  }

  // ----- The fit -----

  ghost predicate Interpolates(a: real, b: real, c: real, y1: real, y2: real, y3: real, l1: real, l2: real, l3: real) {
    Curve(a, b, c, l1) == y1 && Curve(a, b, c, l2) == y2 && Curve(a, b, c, l3) == y3
  }

  lemma CurveDifference(a: real, b: real, c: real, l: real, l': real)
    ensures Curve(a, b, c, l') - Curve(a, b, c, l) == Times(Chord(b, c, l, l'), l' - l)
  {
  }

  lemma FirstPoint(y: real, b: real, c: real, l: real)
    ensures Curve(Constant(y, b, c, l), b, c, l) == y
  {
    assert (l * l * c) * l == c * Cube(l);
  }

  lemma SecondDifference(g2: real, g3: real, c: real, l1: real, l2: real, l3: real)
    requires l3 != l2 && l1 + l2 + l3 != 0.0
    requires c == Times(Over(g3 - g2, l3 - l2), Over(1.0, l1 + l2 + l3))
    ensures Chord(Linear(g2, c, l1, l2), c, l1, l3) == g3
  {
    var s := l1 + l2 + l3;
    var h := Over(g3 - g2, l3 - l2);
    assert c * s == h by {
      var inverse := Over(1.0, s);
      assert inverse * s == 1.0;
      assert c * s == h * (inverse * s);
    }
    assert h * (l3 - l2) == g3 - g2;
    assert c * Mixed(l1, l3) - c * Mixed(l1, l2) == (c * s) * (l3 - l2);
  }

  lemma SolveInterpolates(y1: real, y2: real, y3: real, l1: real, l2: real, l3: real)
    requires Solve(y1, y2, y3, l1, l2, l3).Coefficients?
    ensures var Coefficients(a, b, c) := Solve(y1, y2, y3, l1, l2, l3);
            Interpolates(a, b, c, y1, y2, y3, l1, l2, l3)
  {
    var Coefficients(a, b, c) := Solve(y1, y2, y3, l1, l2, l3);
    var g2 := Over(y2 - y1, l2 - l1);
    var g3 := Over(y3 - y1, l3 - l1);
    FirstPoint(y1, b, c, l1);
    CurveDifference(a, b, c, l1, l2);
    assert Chord(b, c, l1, l2) == g2;
    OverTimes(y2 - y1, l2 - l1);
    CurveDifference(a, b, c, l1, l3);
    SecondDifference(g2, g3, c, l1, l2, l3);
    OverTimes(y3 - y1, l3 - l1);
  }

  lemma SlopesVanish(a: real, b: real, c: real, a': real, b': real, c': real, l: real, l': real)
    requires l != l'
    requires Curve(a, b, c, l) == Curve(a', b', c', l) && Curve(a, b, c, l') == Curve(a', b', c', l')
    ensures Chord(b - b', c - c', l, l') == 0.0
  {
    CurveDifference(a - a', b - b', c - c', l, l');
    ZeroFactor(Chord(b - b', c - c', l, l'), l' - l);
  }

  lemma ChordsVanish(p: real, q: real, l1: real, l2: real, l3: real)
    requires Chord(p, q, l1, l2) == 0.0 && Chord(p, q, l1, l3) == 0.0 && l2 != l3 && l1 + l2 + l3 != 0.0
    ensures p == 0.0 && q == 0.0
  {
    assert Times(Times(q, l3 - l2), l1 + l2 + l3) == 0.0;
    ZeroFactor(Times(q, l3 - l2), l1 + l2 + l3);
    ZeroFactor(q, l3 - l2);
    assert p == 0.0;
  }

  // Two curves through the same three points agree, when the logarithms are
  // distinct and do not sum to zero.
  lemma SolutionIsUnique(a: real, b: real, c: real, a': real, b': real, c': real, l1: real, l2: real, l3: real)
    requires l1 != l2 && l1 != l3 && l2 != l3 && l1 + l2 + l3 != 0.0
    requires Curve(a, b, c, l1) == Curve(a', b', c', l1)
    requires Curve(a, b, c, l2) == Curve(a', b', c', l2)
    requires Curve(a, b, c, l3) == Curve(a', b', c', l3)
    ensures a == a' && b == b' && c == c'
  {
    SlopesVanish(a, b, c, a', b', c', l1, l2);
    SlopesVanish(a, b, c, a', b', c', l1, l3);
    ChordsVanish(b - b', c - c', l1, l2, l3);
  }

  // When the logarithms sum to zero every solution comes with a second one, so
  // the division by zero reports a system with no unique answer.
  lemma SingularSystem(a: real, b: real, c: real, l1: real, l2: real, l3: real)
    requires l1 + l2 + l3 == 0.0
    ensures var a', b', c' := a - l1 * l2 * l3, b + l1 * l2 + l1 * l3 + l2 * l3, c + 1.0;
            && Curve(a', b', c', l1) == Curve(a, b, c, l1)
            && Curve(a', b', c', l2) == Curve(a, b, c, l2)
            && Curve(a', b', c', l3) == Curve(a, b, c, l3)
  {
    assert l3 == -l1 - l2;
  }

  // The system of three equations in a, b and c has exactly one solution.
  ghost predicate Determined(y1: real, y2: real, y3: real, l1: real, l2: real, l3: real) {
    exists a, b, c :: Interpolates(a, b, c, y1, y2, y3, l1, l2, l3)
      && forall a', b', c' | Interpolates(a', b', c', y1, y2, y3, l1, l2, l3) :: a' == a && b' == b && c' == c
  }

  // For distinct logarithms the fit succeeds exactly when there is one answer.
  lemma SolveExactlyWhenDetermined(y1: real, y2: real, y3: real, l1: real, l2: real, l3: real)
    requires l1 != l2 && l1 != l3 && l2 != l3
    ensures Solve(y1, y2, y3, l1, l2, l3).Coefficients? <==> Determined(y1, y2, y3, l1, l2, l3)
  {
    var fit := Solve(y1, y2, y3, l1, l2, l3);
    if fit.Coefficients? {
      SolveInterpolates(y1, y2, y3, l1, l2, l3);
      forall a', b', c' | Interpolates(a', b', c', y1, y2, y3, l1, l2, l3)
        ensures a' == fit.a && b' == fit.b && c' == fit.c
      {
        SolutionIsUnique(a', b', c', fit.a, fit.b, fit.c, l1, l2, l3);
      }
    } else if Determined(y1, y2, y3, l1, l2, l3) {
      var a, b, c :| Interpolates(a, b, c, y1, y2, y3, l1, l2, l3)
        && forall a', b', c' | Interpolates(a', b', c', y1, y2, y3, l1, l2, l3) :: a' == a && b' == b && c' == c;
      SingularSystem(a, b, c, l1, l2, l3);
      var a', b', c' := a - l1 * l2 * l3, b + l1 * l2 + l1 * l3 + l2 * l3, c + 1.0;
      assert Interpolates(a', b', c', y1, y2, y3, l1, l2, l3);
      assert false;
    }
  }

  lemma KelvinRoundTrip(temp: real, units: Units)
    ensures FromKelvin(ToKelvin(temp, units), units) == temp
  {
  }

  // Both scales put the freezing and the boiling point of water where they are, and
  // rise evenly.
  lemma KelvinScale(temp: real, step: real, units: Units)
    ensures ToKelvin(if units.Fahrenheit? then 32.0 else 0.0, units) == 273.15
    ensures ToKelvin(if units.Fahrenheit? then 212.0 else 100.0, units) == 373.15
    ensures ToKelvin(temp + step, units) - ToKelvin(temp, units) == ToKelvin(step, units) - ToKelvin(0.0, units)
  {
  }

  lemma ReciprocalTwice(k: real)
    requires k != 0.0
    ensures 1.0 / k != 0.0 && 1.0 / (1.0 / k) == k
  {
    assert (1.0 / k) * k == 1.0;
  }

  // A resistance has a temperature unless it is not positive or the equation has no
  // finite one; its absolute temperature T then solves  1/T = a + b ln R + c (ln R)^3.
  lemma TemperatureSolvesEquation(lib: Library, tr: real, a: real, b: real, c: real, units: Units)
    ensures var temp, l := TrToTemp(lib, tr, a, b, c, units), lib.ln(tr);
            && (temp.None? <==> tr <= 0.0 || a + b * l + c * (l * l * l) == 0.0)
            && (temp.Some? ==>
                  && ToKelvin(temp.value, units) != 0.0
                  && 1.0 / ToKelvin(temp.value, units) == a + b * l + c * (l * l * l))
  {
    var y := Curve(a, b, c, lib.ln(tr));
    if tr > 0.0 && y != 0.0 {
      ReciprocalTwice(y);
      assert ToKelvin(FromKelvin(1.0 / y, units), units) == 1.0 / y;
    }
  }

  // A successful fit returns the three given temperatures at the three given
  // resistances.
  lemma FitReturnsThePoints(lib: Library, t1: real, t2: real, t3: real, r1: real, r2: real, r3: real, units: Units)
    requires ShhCoefficients(lib, t1, t2, t3, r1, r2, r3, units).Coefficients?
    ensures var Coefficients(a, b, c) := ShhCoefficients(lib, t1, t2, t3, r1, r2, r3, units);
            && TrToTemp(lib, r1, a, b, c, units) == Some(t1)
            && TrToTemp(lib, r2, a, b, c, units) == Some(t2)
            && TrToTemp(lib, r3, a, b, c, units) == Some(t3)
  {
    var k1, k2, k3 := ToKelvin(t1, units), ToKelvin(t2, units), ToKelvin(t3, units);
    SolveInterpolates(1.0 / k1, 1.0 / k2, 1.0 / k3, lib.ln(r1), lib.ln(r2), lib.ln(r3));
    ReciprocalTwice(k1);
    ReciprocalTwice(k2);
    ReciprocalTwice(k3);
    KelvinRoundTrip(t1, units);
    KelvinRoundTrip(t2, units);
    KelvinRoundTrip(t3, units);
  }

  // Positive resistances fit, at temperatures off absolute zero, exactly when
  // they are distinct and the coefficients are determined.
  lemma FitSucceedsExactly(lib: Library, t1: real, t2: real, t3: real, r1: real, r2: real, r3: real, units: Units)
    requires lib.Lawful() && r1 > 0.0 && r2 > 0.0 && r3 > 0.0
    requires ToKelvin(t1, units) != 0.0 && ToKelvin(t2, units) != 0.0 && ToKelvin(t3, units) != 0.0
    ensures ShhCoefficients(lib, t1, t2, t3, r1, r2, r3, units).Coefficients?
            <==> r1 != r2 && r1 != r3 && r2 != r3
                 && Determined(1.0 / ToKelvin(t1, units), 1.0 / ToKelvin(t2, units), 1.0 / ToKelvin(t3, units),
                               lib.ln(r1), lib.ln(r2), lib.ln(r3))
  {
    var l1, l2, l3 := lib.ln(r1), lib.ln(r2), lib.ln(r3);
    assert lib.exp(l1) == r1 && lib.exp(l2) == r2 && lib.exp(l3) == r3;
    if r1 != r2 && r1 != r3 && r2 != r3 {
      SolveExactlyWhenDetermined(1.0 / ToKelvin(t1, units), 1.0 / ToKelvin(t2, units), 1.0 / ToKelvin(t3, units),
                                 l1, l2, l3);
    }
  }

  // ----- The inverse -----

  lemma SquareSign(x: real)
    ensures Times(x, x) >= 0.0 && (x != 0.0 ==> Times(x, x) > 0.0)
  {
    if x > 0.0 { TimesStrict(0.0, x, x); } else if x < 0.0 { TimesStrict(0.0, -x, -x); }
  }

  lemma MixedPositive(x: real, y: real)
    requires x != y
    ensures Mixed(x, y) > 0.0
  {
    var q := x + y / 2.0;
    assert y == 0.0 ==> q != 0.0;
    SquareSign(q);
    SquareSign(y);
    assert Times(q, q) + 0.75 * Times(y, y) > 0.0;
    assert Mixed(x, y) == Times(q, q) + 0.75 * Times(y, y);
  }

  lemma CubeMonotone(x: real, y: real)
    requires x < y
    ensures Cube(x) < Cube(y)
  {
    assert Cube(y) - Cube(x) == Times(y - x, Mixed(x, y));
    MixedPositive(x, y);
    TimesStrict(0.0, y - x, Mixed(x, y));
  }

  // The radical formula solves the depressed cubic z^3 + 3pz + x == 0.
  lemma RadicalSolvesCubic(u: real, v: real, p: real, x: real, y: real)
    requires p >= 0.0 && u >= 0.0 && v >= 0.0
    requires Times(y, y) == Radicand(p, x)
    requires Cube(u) == y - x / 2.0 && Cube(v) == y + x / 2.0
    ensures Cube(u - v) + 3.0 * Times(p, u - v) + x == 0.0
  {
    var w := u * v;
    assert w >= 0.0;
    assert Cube(w) == Cube(p) by {
      assert Cube(w) == Cube(u) * Cube(v);
      assert (y - x / 2.0) * (y + x / 2.0) == y * y - x * x / 4.0;
    }
    if w < p { CubeMonotone(w, p); } else if p < w { CubeMonotone(p, w); }
    assert w == p;
    assert Cube(u - v) == Cube(u) - Cube(v) - 3.0 * w * (u - v);
  }

  lemma CubeSign(x: real)
    ensures x >= 0.0 <==> Cube(x) >= 0.0
  {
    if x < 0.0 { CubeMonotone(x, 0.0); } else if x > 0.0 { CubeMonotone(0.0, x); }
  }

  lemma RatioSign(b: real, c: real)
    requires c != 0.0
    ensures Over(b, 3.0 * c) >= 0.0 <==> Times(b, c) >= 0.0
  {
    var p := Over(b, 3.0 * c);
    OverTimes(b, 3.0 * c);
    SquareSign(c);
    assert Times(b, c) == Times(p, 3.0 * (c * c));
    if p >= 0.0 {
      TimesMonotone(0.0, p, 3.0 * (c * c));
    } else {
      TimesStrict(p, 0.0, 3.0 * (c * c));
    }
  }

  // The root y of p^3 + x^2/4 dominates x/2 exactly when p is not negative.
  lemma RootDominates(p: real, x: real, y: real)
    requires y >= 0.0 && Times(y, y) == Radicand(p, x)
    ensures (y - x / 2.0 >= 0.0 && y + x / 2.0 >= 0.0) <==> p >= 0.0
  {
    var h := Abs(x / 2.0);
    assert h * h == x * x / 4.0;
    CubeSign(p);
    if y < h {
      TimesMonotone(y, h, y);
      TimesStrict(y, h, h);
    } else {
      TimesMonotone(h, y, h);
      TimesMonotone(h, y, y);
    }
  }

  // The inverse gives a resistance exactly off absolute zero, for a non-zero c
  // whose sign b does not oppose. Where the signs are opposed it fails in one of
  // two ways, by the sign of the radicand.
  lemma InverseOutcome(lib: Library, temp: real, a: real, b: real, c: real, units: Units)
    requires lib.Lawful()
    ensures var k := ToKelvin(temp, units);
            var inverse := TempToTr(lib, temp, a, b, c, units);
            && (inverse.Resistance? <==> k != 0.0 && c != 0.0 && Times(b, c) >= 0.0)
            && (inverse.TypeError? <==>
                  k != 0.0 && c != 0.0 && Times(b, c) < 0.0
                  && Radicand(Over(b, 3.0 * c), Over(a - 1.0 / k, c)) >= 0.0)
  {
    var k := ToKelvin(temp, units);
    if k != 0.0 && c != 0.0 {
      var x, p := Over(a - 1.0 / k, c), Over(b, 3.0 * c);
      RatioSign(b, c);
      CubeSign(p);
      SquareSign(x);
      if Radicand(p, x) >= 0.0 {
        RootDominates(p, x, lib.sqrt(Radicand(p, x)));
      } else {
        assert p < 0.0;
      }
    }
  }

  lemma ScaledCubic(a: real, b: real, c: real, y: real, z: real, p: real, x: real)
    requires c != 0.0 && p == Over(b, 3.0 * c) && x == Over(a - y, c)
    requires Cube(z) + 3.0 * Times(p, z) + x == 0.0
    ensures Curve(a, b, c, z) == y
  {
    OverTimes(b, 3.0 * c);
    OverTimes(a - y, c);
    assert c * (Cube(z) + 3.0 * Times(p, z) + x) == 0.0;
    assert c * (3.0 * Times(p, z)) == b * z;
    assert c * x == a - y;
  }

  // One such input: at 0 degrees Celsius with b and c opposed, it raises.
  lemma InverseCanRaise(lib: Library)
    requires lib.Lawful()
    ensures TempToTr(lib, 0.0, 10.0 + 1.0 / 273.15, -3.0, 1.0, Celsius).TypeError?
  {
    var x, p := Over(10.0, 1.0), Over(-3.0, 3.0);
    assert x == 10.0 && p == -1.0;
    assert Radicand(p, x) == 24.0;
    InverseOutcome(lib, 0.0, 10.0 + 1.0 / 273.15, -3.0, 1.0, Celsius);
  }

  // At the logarithm the inverse computes, the curve has the value 1/k.
  lemma InverseSolvesCurve(lib: Library, temp: real, a: real, b: real, c: real, units: Units)
    requires lib.Lawful() && TempToTr(lib, temp, a, b, c, units).Resistance?
    ensures var tr := TempToTr(lib, temp, a, b, c, units).tr;
            tr > 0.0 && Curve(a, b, c, lib.ln(tr)) == 1.0 / ToKelvin(temp, units)
  {
    var k := ToKelvin(temp, units);
    var x, p := Over(a - 1.0 / k, c), Over(b, 3.0 * c);
    var y := lib.sqrt(Radicand(p, x));
    RootDominates(p, x, y);
    var u, v := lib.cbrt(y - x / 2.0), lib.cbrt(y + x / 2.0);
    assert y - x / 2.0 >= 0.0 && y + x / 2.0 >= 0.0;
    RadicalSolvesCubic(u, v, p, x, y);
    var tr := TempToTr(lib, temp, a, b, c, units).tr;
    assert lib.ln(tr) == u - v;
    ScaledCubic(a, b, c, 1.0 / k, u - v, p, x);
  }

  // From temperature to resistance and back, in either unit.
  lemma TempRoundTrip(lib: Library, temp: real, a: real, b: real, c: real, units: Units)
    requires lib.Lawful() && TempToTr(lib, temp, a, b, c, units).Resistance?
    ensures TrToTemp(lib, TempToTr(lib, temp, a, b, c, units).tr, a, b, c, units) == Some(temp)
  {
    InverseSolvesCurve(lib, temp, a, b, c, units);
    ReciprocalTwice(ToKelvin(temp, units));
    KelvinRoundTrip(temp, units);
  }

  // With b and c not opposed the curve takes each value at one logarithm only.
  lemma CurveInjective(a: real, b: real, c: real, l: real, l': real)
    requires c != 0.0 && Times(b, c) >= 0.0 && Curve(a, b, c, l) == Curve(a, b, c, l')
    ensures l == l'
  {
    if l != l' {
      var slope := Chord(b, c, l, l');
      MixedPositive(l, l');
      SquareSign(c);
      TimesStrict(0.0, c * c, Mixed(l, l'));
      assert Times(c, slope) == Times(b, c) + Times(c * c, Mixed(l, l'));
      CurveDifference(a, b, c, l, l');
      if Times(slope, l' - l) == 0.0 {
        ZeroFactor(slope, l' - l);
      }
    }
  }

  // From resistance to temperature and back.
  lemma TrRoundTrip(lib: Library, tr: real, a: real, b: real, c: real, units: Units)
    requires lib.Lawful() && c != 0.0 && Times(b, c) >= 0.0
    requires TrToTemp(lib, tr, a, b, c, units).Some?
    ensures TempToTr(lib, TrToTemp(lib, tr, a, b, c, units).value, a, b, c, units) == Resistance(tr)
  {
    var y := Curve(a, b, c, lib.ln(tr));
    var temp := FromKelvin(1.0 / y, units);
    assert ToKelvin(temp, units) == 1.0 / y;
    ReciprocalTwice(y);
    InverseOutcome(lib, temp, a, b, c, units);
    InverseSolvesCurve(lib, temp, a, b, c, units);
    CurveInjective(a, b, c, lib.ln(tr), lib.ln(TempToTr(lib, temp, a, b, c, units).tr));
    assert lib.exp(lib.ln(tr)) == tr;
  }
}
