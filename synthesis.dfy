/** The sampled spectral-synthesis engine of `disp`: the momentum and position grids,
    the Gaussian envelope and its truncation window, the component waves and their
    running sum, and the rectangle-rule spreads of both domains. */
module Synthesis {
  import opened Numerics

  /** The resolution constants of `disp`: grid steps, and the widths (in standard
      deviations, or in multiples of the x range) of the 3D view, the k plot and the x plot. */
  datatype Config = Config(nstep: nat, nstd3: real, nstdk: real, nstdx: real) {
    /** The window [kmini, kmaxi] lies inside the index range [0, nstep]. */
    predicate Valid() {
      nstep > 0 && nstdk > 0.0 && nstdx > 0.0 && 0.0 <= nstd3 && 2.0 * nstd3 <= nstdk
    }
  }

  /** The constants the program uses. */
  const Source: Config := Config(20000, 4.0, 80.0, 4.0)

  // ---------------------------------------------------------------- real arithmetic helpers

  lemma DivLe(a: real, b: real, d: real)
    requires a <= b && d > 0.0
    ensures a / d <= b / d
  {
    assert b / d - a / d == (b - a) / d;
  }

  lemma MulDiv(a: real, n: real)
    requires n != 0.0
    ensures n * (a / n) == a && a * n / n == a
  {
  }

  // ---------------------------------------------------------------- grids

  function StepK(c: Config, kwid: real): real
    requires c.Valid()
  {
    c.nstdk * kwid / c.nstep as real
  }

  function StepX(c: Config, x2: real): real
    requires c.Valid()
  {
    c.nstdx * x2 / c.nstep as real
  }

  /** The i-th momentum sample. */
  function KAt(c: Config, kcen: real, kwid: real, i: int): real
    requires c.Valid()
  {
    (kcen - (c.nstdk / 2.0) * kwid) + i as real * StepK(c, kwid)
  }

  /** The i-th non-negative position sample. */
  function XAt(c: Config, x2: real, i: int): real
    requires c.Valid()
  {
    i as real * StepX(c, x2)
  }

  /** The normalised Gaussian of width kwid at offset d from its centre. */
  function Gauss(m: Math, kwid: real, d: real): (r: real)
    requires m.Valid() && kwid != 0.0
    ensures r != 0.0
    ensures kwid > 0.0 ==> r > 0.0
  {
    GaussSign(m, kwid, d);
    (1.0 / (kwid * m.sqrt(2.0 * Pi))) * m.expE(-(d * d) / (2.0 * (kwid * kwid)))
  }

  /** The normalising factor is non-zero and has the sign of kwid; the exponential is positive. */
  lemma GaussSign(m: Math, kwid: real, d: real)
    requires m.Valid() && kwid != 0.0
    ensures var v := (1.0 / (kwid * m.sqrt(2.0 * Pi))) * m.expE(-(d * d) / (2.0 * (kwid * kwid)));
      v != 0.0 && (kwid > 0.0 ==> v > 0.0)
  {
    var a := 1.0 / (kwid * m.sqrt(2.0 * Pi));
    var g := m.expE(-(d * d) / (2.0 * (kwid * kwid)));
    assert g > 0.0 && m.sqrt(2.0 * Pi) > 0.0;
    assert a != 0.0;
    assert kwid > 0.0 ==> a > 0.0;
  }

  /** The envelope at the i-th momentum sample. */
  function Phi(m: Math, c: Config, kcen: real, kwid: real, i: int): (r: real)
    requires m.Valid() && c.Valid() && kwid != 0.0
    ensures r != 0.0
    ensures kwid > 0.0 ==> r > 0.0
  {
    Gauss(m, kwid, KAt(c, kcen, kwid, i) - kcen)
  }

  /** What the grid loop produces: four sequences of nstep+1 samples. */
  predicate Grids(m: Math, c: Config, kcen: real, kwid: real, x2: real,
                  k: seq<real>, xp: seq<real>, xn: seq<real>, phi: seq<real>)
    requires m.Valid() && c.Valid() && kwid != 0.0
  {
    |k| == c.nstep + 1 && |xp| == c.nstep + 1 && |xn| == c.nstep + 1 && |phi| == c.nstep + 1 &&
    forall i :: 0 <= i <= c.nstep ==>
      k[i] == KAt(c, kcen, kwid, i) && xp[i] == XAt(c, x2, i) &&
      xn[i] == -xp[i] && phi[i] == Phi(m, c, kcen, kwid, i)
  }

  // ---------------------------------------------------------------- truncation window

  /** Lower and upper end of the index window around the centre sample. */
  function KMin(c: Config): real
    requires c.Valid()
  {
    (c.nstep as real / 2.0) - (c.nstd3 * c.nstep as real / c.nstdk)
  }

  function KMax(c: Config): real
    requires c.Valid()
  {
    (c.nstep as real / 2.0) + (c.nstd3 * c.nstep as real / c.nstdk)
  }

  predicate InWindow(c: Config, i: int)
    requires c.Valid()
  {
    KMin(c) <= i as real <= KMax(c)
  }

  /** The elements of s whose index lies in the window, in order. */
  function Select(c: Config, s: seq<real>): (r: seq<real>)
    requires c.Valid()
    ensures |r| <= |s|
    ensures forall v :: v in r ==> v in s
  {
    if s == [] then []
    else Select(c, s[..|s| - 1]) + (if InWindow(c, |s| - 1) then [s[|s| - 1]] else [])
  }

  /** Appending one sample extends the selection by it exactly when its index is in the window. */
  lemma SelectAppend(c: Config, s: seq<real>, v: real)
    requires c.Valid()
    ensures Select(c, s + [v]) == Select(c, s) + (if InWindow(c, |s|) then [v] else [])
  {
    assert (s + [v])[..|s|] == s;
  }

  /** The first and last integer index inside the window. */
  function Lo(c: Config): int
    requires c.Valid()
  {
    -((-KMin(c)).Floor)
  }

  function Hi(c: Config): int
    requires c.Valid()
  {
    KMax(c).Floor
  }

  /** The window is centred on nstep/2 and lies inside [0, nstep]. */
  lemma WindowRange(c: Config)
    requires c.Valid()
    ensures 0.0 <= KMin(c) <= c.nstep as real / 2.0 <= KMax(c) <= c.nstep as real
  {
    var n := c.nstep as real;
    var h := c.nstd3 * n / c.nstdk;
    assert c.nstd3 * n <= (c.nstdk / 2.0) * n;
    DivLe(c.nstd3 * n, (c.nstdk / 2.0) * n, c.nstdk);
    assert (c.nstdk / 2.0) * n == (n / 2.0) * c.nstdk;
    MulDiv(n / 2.0, c.nstdk);
    DivLe(0.0, c.nstd3 * n, c.nstdk);
    assert 0.0 <= h <= n / 2.0;
    assert KMin(c) == n / 2.0 - h && KMax(c) == n / 2.0 + h;
  }

  /** The integer ends of the window lie inside [0, nstep]. */
  lemma WindowEnds(c: Config)
    requires c.Valid()
    ensures 0 <= Lo(c) <= Hi(c) + 1 <= c.nstep + 1
  {
    WindowRange(c);
    CeilFloor(KMin(c), KMax(c), c.nstep);
  }

  /** An integer index is in the window exactly when it lies in Lo..Hi. */
  lemma InWindowIff(c: Config, i: int)
    requires c.Valid()
    ensures InWindow(c, i) <==> Lo(c) <= i <= Hi(c)
  {
    CeilFloorAt(KMin(c), KMax(c), i);
  }

  /** The integer indices in the window are exactly Lo..Hi. */
  lemma WindowBounds(c: Config)
    requires c.Valid()
    ensures 0 <= Lo(c) <= Hi(c) + 1 <= c.nstep + 1
    ensures forall i: int :: InWindow(c, i) <==> Lo(c) <= i <= Hi(c)
  {
    WindowEnds(c);
    forall i: int
      ensures InWindow(c, i) <==> Lo(c) <= i <= Hi(c)
    {
      InWindowIff(c, i);
    }
  }

  lemma CeilFloor(a: real, b: real, n: nat)
    requires 0.0 <= a <= b <= n as real
    ensures 0 <= -((-a).Floor) <= b.Floor + 1 <= n + 1
  {
  }

  lemma CeilFloorAt(a: real, b: real, i: int)
    ensures a <= i as real <= b <==> -((-a).Floor) <= i <= b.Floor
  {
  }

  /** Min on naturals, clipping a window end to a sequence length. */
  function Clip(a: int, n: nat): nat
  {
    if a < 0 then 0 else if a < n then a else n
  }

  /** `k3`/`ph3` are exactly the slice of `k`/`phi` between the window's integer ends. */
  lemma {:induction false} SelectIsSlice(c: Config, s: seq<real>)
    requires c.Valid() && |s| <= c.nstep + 1
    ensures Clip(Lo(c), |s|) <= Clip(Hi(c) + 1, |s|)
    ensures Select(c, s) == s[Clip(Lo(c), |s|)..Clip(Hi(c) + 1, |s|)]
  {
    WindowEnds(c);
    if s != [] {
      SelectIsSlice(c, s[..|s| - 1]);
      InWindowIff(c, |s| - 1);
      SliceAppend(s, Lo(c), Hi(c));
    }
  }

  /** Extending a sequence by one element extends its lo..hi slice by that element when
      the new index lies in lo..hi. */
  lemma SliceAppend(s: seq<real>, lo: int, hi: int)
    requires 0 <= lo <= hi + 1 && s != []
    ensures var n := |s|;
      Clip(lo, n - 1) <= Clip(hi + 1, n - 1) && Clip(lo, n) <= Clip(hi + 1, n) &&
      s[..n - 1][Clip(lo, n - 1)..Clip(hi + 1, n - 1)] + (if lo <= n - 1 <= hi then [s[n - 1]] else [])
        == s[Clip(lo, n)..Clip(hi + 1, n)]
  {
    var n := |s|;
    if lo <= n - 1 <= hi {
      assert s[..n - 1][lo..n - 1] + [s[n - 1]] == s[lo..n];
    } else if hi < n - 1 {
      assert s[..n - 1][lo..hi + 1] == s[lo..hi + 1];
    }
  }

  /** With the program's constants the window keeps indices 9000..11000: 2001 entries. */
  lemma SourceWindow(s: seq<real>)
    requires |s| == Source.nstep + 1
    ensures Source.Valid() && KMin(Source) == 9000.0 && KMax(Source) == 11000.0
    ensures Select(Source, s) == s[9000..11001] && |Select(Source, s)| == 2001
  {
    assert KMin(Source) == 9000.0;
    assert KMax(Source) == 11000.0;
    assert Lo(Source) == 9000;
    assert Hi(Source) == 11000;
    SelectIsSlice(Source, s);
  }

  // ---------------------------------------------------------------- grid properties

  /** The momentum grid is an arithmetic progression over the k span: it starts at
      kcen - (nstdk/2)kwid, ends at kcen + (nstdk/2)kwid, and is centred on kcen. */
  lemma MomentumGrid(c: Config, kcen: real, kwid: real, i: int)
    requires c.Valid()
    ensures KAt(c, kcen, kwid, i + 1) - KAt(c, kcen, kwid, i) == StepK(c, kwid)
    ensures KAt(c, kcen, kwid, 0) == kcen - (c.nstdk / 2.0) * kwid
    ensures KAt(c, kcen, kwid, c.nstep) == kcen + (c.nstdk / 2.0) * kwid
    ensures c.nstep % 2 == 0 ==> KAt(c, kcen, kwid, c.nstep / 2) == kcen
    ensures kwid > 0.0 ==> KAt(c, kcen, kwid, i) < KAt(c, kcen, kwid, i + 1)
  {
    var n := c.nstep as real;
    assert n * StepK(c, kwid) == c.nstdk * kwid;
    if c.nstep % 2 == 0 {
      var h := c.nstep / 2;
      assert h as real == n / 2.0;
      assert h as real * StepK(c, kwid) == (c.nstdk / 2.0) * kwid;
    }
    assert kwid > 0.0 ==> StepK(c, kwid) > 0.0;
  }

  /** The position grid starts at 0, ends at nstdx*x2, and the negative grid mirrors it. */
  lemma PositionGrid(c: Config, x2: real, i: int)
    requires c.Valid()
    ensures XAt(c, x2, i + 1) - XAt(c, x2, i) == StepX(c, x2)
    ensures XAt(c, x2, 0) == 0.0 && XAt(c, x2, c.nstep) == c.nstdx * x2
    ensures x2 > 0.0 && i >= 0 ==> XAt(c, x2, i) >= 0.0
  {
    var n := c.nstep as real;
    assert n * (c.nstdx * x2 / n) == c.nstdx * x2;
    assert x2 > 0.0 ==> StepX(c, x2) > 0.0;
  }

  /** The k offsets of mirror samples are opposite. */
  lemma MirrorOffset(c: Config, kcen: real, kwid: real, i: int)
    requires c.Valid()
    ensures KAt(c, kcen, kwid, c.nstep - i) - kcen == -(KAt(c, kcen, kwid, i) - kcen)
  {
    var n := c.nstep as real;
    var st := StepK(c, kwid);
    assert n * st == c.nstdk * kwid;
    assert (c.nstep - i) as real * st == n * st - i as real * st;
  }

  /** The envelope is symmetric about the centre sample. */
  lemma {:induction false} PhiSymmetric(m: Math, c: Config, kcen: real, kwid: real, i: int)
    requires m.Valid() && c.Valid() && kwid != 0.0
    ensures Phi(m, c, kcen, kwid, i) == Phi(m, c, kcen, kwid, c.nstep - i)
  {
    MirrorOffset(c, kcen, kwid, i);
    var d := KAt(c, kcen, kwid, i) - kcen;
    assert (-d) * (-d) == d * d;
    assert Gauss(m, kwid, -d) == Gauss(m, kwid, d);
  }

  /** The envelope takes its largest value at the centre sample: the Gaussian exponent
      is zero there and non-positive elsewhere, and `expE` is increasing. */
  lemma PhiPeak(m: Math, c: Config, kcen: real, kwid: real, i: int)
    requires m.Valid() && c.Valid() && kwid > 0.0 && c.nstep % 2 == 0
    requires forall a: real, b: real :: a <= b ==> m.expE(a) <= m.expE(b)
    ensures Phi(m, c, kcen, kwid, i) <= Phi(m, c, kcen, kwid, c.nstep / 2)
  {
    MomentumGrid(c, kcen, kwid, i);
    assert KAt(c, kcen, kwid, c.nstep / 2) - kcen == 0.0;
    GaussPeak(m, kwid, KAt(c, kcen, kwid, i) - kcen);
  }

  /** For a monotone exponential, the Gaussian is largest at its centre. */
  lemma GaussPeak(m: Math, kwid: real, d: real)
    requires m.Valid() && kwid > 0.0
    requires forall a: real, b: real :: a <= b ==> m.expE(a) <= m.expE(b)
    ensures Gauss(m, kwid, d) <= Gauss(m, kwid, 0.0)
  {
    var e := -(d * d) / (2.0 * (kwid * kwid));
    SquareSign(d);
    assert e <= 0.0;
    assert -(0.0 * 0.0) / (2.0 * (kwid * kwid)) == 0.0;
    assert m.expE(e) <= m.expE(0.0);
    var a := 1.0 / (kwid * m.sqrt(2.0 * Pi));
    assert a > 0.0;
    MulLe(a, m.expE(e), m.expE(0.0));
  }

  // ---------------------------------------------------------------- grid loop

  /** The `for i in range(nstep+1)` loop of `disp` that builds the grids,
      the envelope and the truncation window by appending. */
  method BuildGrids(m: Math, c: Config, kcen: real, kwid: real, x2: real)
    returns (k: seq<real>, xp: seq<real>, xn: seq<real>, phi: seq<real>, k3: seq<real>, ph3: seq<real>)
    requires m.Valid() && c.Valid() && kwid != 0.0
    ensures Grids(m, c, kcen, kwid, x2, k, xp, xn, phi)
    ensures phi == PhiSeq(m, c, kcen, kwid)
    ensures k3 == Select(c, k) && ph3 == Select(c, phi)
  {
    k, xp, xn, phi, k3, ph3 := [], [], [], [], [], [];
    for i := 0 to c.nstep + 1
      invariant |k| == i && |xp| == i && |xn| == i && |phi| == i
      invariant forall j :: 0 <= j < i ==> k[j] == KAt(c, kcen, kwid, j)
      invariant forall j :: 0 <= j < i ==> xp[j] == XAt(c, x2, j) && xn[j] == -xp[j]
      invariant forall j :: 0 <= j < i ==> phi[j] == Phi(m, c, kcen, kwid, j)
      invariant k3 == Select(c, k) && ph3 == Select(c, phi)
    {
      ghost var k0, phi0 := k, phi;
      var kval := KAt(c, kcen, kwid, i);
      var xval := XAt(c, x2, i);
      k := k + [kval];
      xp := xp + [xval];
      xn := xn + [-1.0 * xval];

      phi := phi + [Gauss(m, kwid, kval - kcen)];

      var kmini := KMin(c);
      var kmaxi := KMax(c);
      SelectAppend(c, k0, kval);
      SelectAppend(c, phi0, phi[i]);
      if i as real >= kmini && i as real <= kmaxi {
        k3 := k3 + [k[i]];
        ph3 := ph3 + [phi[i]];
      }
    }
  }

  // ---------------------------------------------------------------- components

  /** Frequency of the i-th component: `knum` evenly spaced values across
      [kcen - nstd3*kwid, kcen + nstd3*kwid]. */
  function Frq(c: Config, kcen: real, kwid: real, knum: int, i: int): (r: real)
    requires knum != 1
    ensures i == 0 ==> r == kcen - c.nstd3 * kwid
    ensures knum >= 2 && i == knum - 1 ==> r == kcen + c.nstd3 * kwid
  {
    assert knum >= 2 ==> (knum - 1) as real * 2.0 * c.nstd3 * kwid / (knum - 1) as real == 2.0 * c.nstd3 * kwid;
    (kcen - c.nstd3 * kwid) + i as real * 2.0 * c.nstd3 * kwid / (knum - 1) as real
  }

  /** Index into the envelope of the i-th component's amplitude: for a component that
      exists it lies between the truncated window ends, so inside the envelope, and the
      first and last component read the envelope at those ends. */
  function AmpIndex(c: Config, knum: int, i: int): (r: int)
    requires c.Valid() && knum != 1
    ensures knum >= 2 && 0 <= i < knum ==> Trunc(KMin(c)) <= r <= Trunc(KMax(c)) && 0 <= r <= c.nstep
    ensures knum >= 2 && i == 0 ==> r == Trunc(KMin(c))
    ensures knum >= 2 && i == knum - 1 ==> r == Trunc(KMax(c))
  {
    SpacedWindow(c, knum, i);
    Trunc(Spaced(KMin(c), KMax(c), knum, i))
  }

  /** What AmpIndex promises, about the truncated spaced point itself. */
  lemma SpacedWindow(c: Config, knum: int, i: int)
    requires c.Valid() && knum != 1
    ensures knum >= 2 && 0 <= i < knum ==>
      var t := Trunc(Spaced(KMin(c), KMax(c), knum, i));
      Trunc(KMin(c)) <= t <= Trunc(KMax(c)) && 0 <= t <= c.nstep &&
      (i == 0 ==> t == Trunc(KMin(c))) && (i == knum - 1 ==> t == Trunc(KMax(c)))
  {
    if knum >= 2 && 0 <= i < knum {
      WindowRange(c);
      TruncSpacedPoint(KMin(c), KMax(c), knum, i, c.nstep);
    }
  }

  /** Consecutive frequencies are one step of 2*nstd3*kwid/(knum-1) apart. */
  lemma FrqEvenlySpaced(c: Config, kcen: real, kwid: real, knum: int, i: int)
    requires knum >= 2
    ensures Frq(c, kcen, kwid, knum, i + 1) - Frq(c, kcen, kwid, knum, i)
         == 2.0 * c.nstd3 * kwid / (knum - 1) as real
  {
    var q := (knum - 1) as real;
    var w := 2.0 * c.nstd3 * kwid;
    assert (i + 1) as real * 2.0 * c.nstd3 * kwid / q == i as real * 2.0 * c.nstd3 * kwid / q + w / q;
  }

  /** The i-th of knum evenly spaced points from lo to hi. */
  function Spaced(lo: real, hi: real, knum: int, i: int): real
    requires knum != 1
  {
    lo + ((hi - lo) / (knum - 1) as real * i as real)
  }

  /** The i-th of knum evenly spaced points from lo to hi stays between them. */
  lemma SpacedPoint(lo: real, hi: real, knum: int, i: int)
    requires lo <= hi && knum >= 2 && 0 <= i < knum
    ensures lo <= Spaced(lo, hi, knum, i) <= hi
    ensures i == 0 ==> Spaced(lo, hi, knum, i) == lo
    ensures i == knum - 1 ==> Spaced(lo, hi, knum, i) == hi
  {
    var d := (knum - 1) as real;
    var q := (hi - lo) / d;
    DivLe(0.0, hi - lo, d);
    MulDiv(hi - lo, d);
    MulLe(q, 0.0, i as real);
    MulLe(q, i as real, d);
    assert q * d == hi - lo;
  }

  lemma MulLe(q: real, a: real, b: real)
    requires q >= 0.0 && a <= b
    ensures q * a <= q * b
  {
    assert q * b - q * a == q * (b - a);
  }

  /** The truncated i-th spaced point lies between the truncated ends. */
  lemma TruncSpacedPoint(lo: real, hi: real, knum: int, i: int, n: nat)
    requires 0.0 <= lo <= hi <= n as real && knum >= 2 && 0 <= i < knum
    ensures var t := Trunc(Spaced(lo, hi, knum, i));
      Trunc(lo) <= t <= Trunc(hi) && 0 <= t <= n &&
      (i == 0 ==> t == Trunc(lo)) && (i == knum - 1 ==> t == Trunc(hi))
  {
    SpacedPoint(lo, hi, knum, i);
    var v := Spaced(lo, hi, knum, i);
    TruncMonotone(lo, v);
    TruncMonotone(v, hi);
    TruncMonotone(hi, n as real);
  }

  /** The amplitude of the i-th component, read from the envelope. */
  function Amp(c: Config, knum: int, phi: seq<real>, i: int): real
    requires c.Valid() && knum >= 2 && 0 <= i < knum && |phi| == c.nstep + 1
  {
    phi[AmpIndex(c, knum, i)]
  }

  /** `amp*math.cos(frq*x)`: a cosine of amplitude amp and frequency frq sampled at x. */
  function Osc(m: Math, amp: real, frq: real, x: real): real
  {
    amp * m.cos(frq * x)
  }

  /** The i-th component's value at position x. */
  function Term(m: Math, c: Config, kcen: real, kwid: real, knum: int,
                phi: seq<real>, x: real, i: int): real
    requires c.Valid() && knum >= 2 && 0 <= i < knum && |phi| == c.nstep + 1
  {
    Osc(m, Amp(c, knum, phi, i), Frq(c, kcen, kwid, knum, i), x)
  }

  /** The superposition of the first n components at position x. */
  function Superpose(m: Math, c: Config, kcen: real, kwid: real, knum: int,
                     phi: seq<real>, x: real, n: nat): (r: real)
    requires c.Valid() && |phi| == c.nstep + 1
    requires n > 0 ==> n <= knum && knum >= 2
    ensures (forall t :: 0 <= t < |phi| ==> phi[t] == 0.0) ==> r == 0.0
  {
    if n == 0 then 0.0
    else Superpose(m, c, kcen, kwid, knum, phi, x, n - 1) + Term(m, c, kcen, kwid, knum, phi, x, n - 1)
  }

  /** The test of the inner loop that keeps sample j for the 3D plot. */
  predicate Shown(c: Config, j: int)
    requires c.Valid()
  {
    j as real <= c.nstep as real / c.nstdx + 1.0
  }

  /** Number of leading samples kept for the 3D plot. */
  function CutLen(c: Config): (n: nat)
    requires c.Valid()
    ensures n <= c.nstep + 1
    ensures forall j :: 0 <= j <= c.nstep ==> (j < n <==> Shown(c, j))
  {
    var b := (c.nstep as real / c.nstdx + 1.0).Floor;
    if c.nstep + 1 <= b + 1 then c.nstep + 1 else b + 1
  }

  lemma SourceCut()
    ensures Source.Valid() && CutLen(Source) == 5002
  {
    assert Source.nstep as real / Source.nstdx + 1.0 == 5001.0;
  }

  /** What the plot receives of one component: its frequency, its amplitude, and the
      leading position samples with the component's values there. */
  datatype Wave = Wave(frq: real, amp: real, x3: seq<real>, y3: seq<real>)

  predicate IsWave(m: Math, c: Config, kcen: real, kwid: real, knum: int,
                   phi: seq<real>, xp: seq<real>, i: int, w: Wave)
    requires c.Valid() && knum >= 2 && 0 <= i < knum && |phi| == c.nstep + 1 && |xp| == c.nstep + 1
  {
    var f := Frq(c, kcen, kwid, knum, i);
    var a := Amp(c, knum, phi, i);
    w.frq == f && w.amp == a && w.x3 == xp[..CutLen(c)] &&
    |w.y3| == CutLen(c) && forall j :: 0 <= j < CutLen(c) ==> w.y3[j] == Osc(m, a, f, xp[j])
  }

  /** The inner `for j` loop of `disp`: adds the samples amp*cos(frq*x) into `tot` in
      place and keeps the leading ones for the plot. */
  method SampleWave(m: Math, c: Config, amp: real, frq: real, xp: seq<real>, tot: array<real>)
    returns (x3: seq<real>, y3: seq<real>)
    requires c.Valid() && |xp| == c.nstep + 1 && tot.Length == c.nstep + 1
    modifies tot
    ensures x3 == xp[..CutLen(c)]
    ensures |y3| == CutLen(c) && forall j :: 0 <= j < |y3| ==> y3[j] == Osc(m, amp, frq, xp[j])
    ensures forall j :: 0 <= j < tot.Length ==> tot[j] == old(tot[j]) + Osc(m, amp, frq, xp[j])
  {
    var y := [];
    y3, x3 := [], [];
    var cut := CutLen(c);
    for j := 0 to c.nstep + 1
      invariant |y| == j
      invariant forall t :: 0 <= t < j ==> y[t] == Osc(m, amp, frq, xp[t])
      invariant x3 == xp[..if j < cut then j else cut]
      invariant y3 == y[..if j < cut then j else cut]
      invariant forall t :: 0 <= t < j ==> tot[t] == old(tot[t]) + y[t]
      invariant forall t :: j <= t < tot.Length ==> tot[t] == old(tot[t])
    {
      y := y + [Osc(m, amp, frq, xp[j])];
      tot[j] := tot[j] + y[j];
      if Shown(c, j) {
        y3 := y3 + [y[j]];
        x3 := x3 + [xp[j]];
      }
    }
  }

  /** One pass of the `for i in range(knum)` loop of `disp`: the i-th component's samples
      are added into `tot` in place. */
  method AddWave(m: Math, c: Config, kcen: real, kwid: real, knum: int,
                 phi: seq<real>, xp: seq<real>, tot: array<real>, i: int)
    returns (w: Wave)
    requires c.Valid() && knum >= 2 && 0 <= i < knum
    requires |phi| == c.nstep + 1 && |xp| == c.nstep + 1 && tot.Length == c.nstep + 1
    modifies tot
    ensures IsWave(m, c, kcen, kwid, knum, phi, xp, i, w)
    ensures forall j :: 0 <= j < tot.Length ==>
      tot[j] == old(tot[j]) + Term(m, c, kcen, kwid, knum, phi, xp[j], i)
  {
    var frq := Frq(c, kcen, kwid, knum, i);
    var amp := phi[AmpIndex(c, knum, i)];
    var x3, y3 := SampleWave(m, c, amp, frq, xp, tot);
    w := Wave(frq, amp, x3, y3);
  }

  /** The `for i in range(knum)` loop of `disp`: computes each component wave and adds it
      into `tot` in place. With knum == 1 the frequency spacing divides by zero before
      anything is changed. */
  method Components(m: Math, c: Config, kcen: real, kwid: real, knum: int,
                    phi: seq<real>, xp: seq<real>, tot: array<real>)
    returns (ok: bool, waves: seq<Wave>)
    requires c.Valid() && |phi| == c.nstep + 1 && |xp| == c.nstep + 1 && tot.Length == c.nstep + 1
    modifies tot
    ensures ok <==> knum != 1
    ensures !ok ==> tot[..] == old(tot[..]) && waves == []
    ensures ok ==> |waves| == (if knum < 0 then 0 else knum)
    ensures ok ==> forall i :: 0 <= i < |waves| ==> IsWave(m, c, kcen, kwid, knum, phi, xp, i, waves[i])
    ensures ok ==> forall j :: 0 <= j < tot.Length ==>
      tot[j] == old(tot[j]) + Superpose(m, c, kcen, kwid, knum, phi, xp[j], |waves|)
  {
    if knum == 1 {
      return false, [];
    }
    ok, waves := true, [];
    var i := 0;
    while i < knum
      invariant 0 <= i && (knum >= 0 ==> i <= knum) && (knum < 0 ==> i == 0)
      invariant |waves| == i
      invariant forall t :: 0 <= t < i ==> IsWave(m, c, kcen, kwid, knum, phi, xp, t, waves[t])
      invariant forall j :: 0 <= j < tot.Length ==>
        tot[j] == old(tot[j]) + Superpose(m, c, kcen, kwid, knum, phi, xp[j], i)
    {
      var w := AddWave(m, c, kcen, kwid, knum, phi, xp, tot, i);
      waves := waves + [w];
      i := i + 1;
    }
  }

  /** With two components the total is the pair of extreme-frequency cosines, and with
      the program's constants their amplitudes are the envelope at samples 9000 and 11000. */
  lemma TwoComponents(m: Math, c: Config, kcen: real, kwid: real, phi: seq<real>, x: real)
    requires c.Valid() && |phi| == c.nstep + 1
    ensures 0 <= Trunc(KMin(c)) <= Trunc(KMax(c)) <= c.nstep
    ensures Superpose(m, c, kcen, kwid, 2, phi, x, 2)
         == Osc(m, phi[Trunc(KMin(c))], kcen - c.nstd3 * kwid, x)
          + Osc(m, phi[Trunc(KMax(c))], kcen + c.nstd3 * kwid, x)
    ensures c == Source ==> Trunc(KMin(c)) == 9000 && Trunc(KMax(c)) == 11000
  {
    assert AmpIndex(c, 2, 0) == Trunc(KMin(c)) && AmpIndex(c, 2, 1) == Trunc(KMax(c));
    EndTerms(m, c, kcen, kwid, phi, x);
    assert Superpose(m, c, kcen, kwid, 2, phi, x, 1) == Term(m, c, kcen, kwid, 2, phi, x, 0);
    if c == Source {
      SourceWindow(phi);
    }
  }

  /** With two components, each is a cosine at one end of the frequency band. */
  lemma EndTerms(m: Math, c: Config, kcen: real, kwid: real, phi: seq<real>, x: real)
    requires c.Valid() && |phi| == c.nstep + 1
    ensures 0 <= Trunc(KMin(c)) <= c.nstep && 0 <= Trunc(KMax(c)) <= c.nstep
    ensures Term(m, c, kcen, kwid, 2, phi, x, 0) == Osc(m, phi[Trunc(KMin(c))], kcen - c.nstd3 * kwid, x)
    ensures Term(m, c, kcen, kwid, 2, phi, x, 1) == Osc(m, phi[Trunc(KMax(c))], kcen + c.nstd3 * kwid, x)
  {
    assert AmpIndex(c, 2, 0) == Trunc(KMin(c)) && AmpIndex(c, 2, 1) == Trunc(KMax(c));
    assert Frq(c, kcen, kwid, 2, 0) == kcen - c.nstd3 * kwid;
    assert Frq(c, kcen, kwid, 2, 1) == kcen + c.nstd3 * kwid;
  }

  // ---------------------------------------------------------------- integrals

  /** Sum of squares of the first n entries. */
  function SumSq(s: seq<real>, n: nat): real
    requires n <= |s|
  {
    if n == 0 then 0.0 else SumSq(s, n - 1) + Sq(s[n - 1])
  }

  /** Rectangle-rule integral of s squared with weight w per sample. */
  function Rect(w: real, s: seq<real>, n: nat): real
    requires n <= |s|
  {
    if n == 0 then 0.0 else Rect(w, s, n - 1) + w * Sq(s[n - 1])
  }

  /** One summand of a second moment: weight times the squared sample, times step / norm. */
  function Weighted(w: real, v: real, step: real, norm: real): real
    requires norm != 0.0
  {
    w * Sq(v) * step / norm
  }

  /** Rectangle-rule second moment: sum of a[i] * s[i]^2 * step / norm. */
  function Moment(a: seq<real>, s: seq<real>, step: real, norm: real, n: nat): real
    requires n <= |a| && n <= |s| && norm != 0.0
  {
    if n == 0 then 0.0 else Moment(a, s, step, norm, n - 1) + Weighted(a[n - 1], s[n - 1], step, norm)
  }

  /** Weights of the x moment, 2*xp[i]^2 (the factor 2 counts the mirrored branch). */
  function XWeights(xp: seq<real>): (r: seq<real>)
    ensures |r| == |xp| && forall i :: 0 <= i < |r| ==> r[i] >= 0.0
  {
    seq(|xp|, i requires 0 <= i < |xp| => 2.0 * Sq(xp[i]))
  }

  /** Weights of the k moment, (kcen - k[i])^2. */
  function KWeights(kcen: real, k: seq<real>): (r: seq<real>)
    ensures |r| == |k| && forall i :: 0 <= i < |r| ==> r[i] >= 0.0
  {
    seq(|k|, i requires 0 <= i < |k| => Sq(kcen - k[i]))
  }

  /** Python's `**2` on a float. */
  function Sq(x: real): real { x * x }

  lemma MulPos(a: real, b: real)
    requires a > 0.0 && b > 0.0
    ensures a * b > 0.0
  {
  }

  lemma SquareSign(x: real)
    ensures Sq(x) >= 0.0
    ensures x != 0.0 ==> Sq(x) > 0.0
  {
    if x > 0.0 {
      calc { Sq(x); == x * x; > { MulPos(x, x); } 0.0; }
    } else if x < 0.0 {
      calc { Sq(x); == (-x) * (-x); > { MulPos(-x, -x); } 0.0; }
    }
  }

  lemma {:induction false} SumSqSign(s: seq<real>, n: nat)
    requires n <= |s|
    ensures SumSq(s, n) >= 0.0
    ensures SumSq(s, n) == 0.0 <==> forall i :: 0 <= i < n ==> s[i] == 0.0
  {
    if n > 0 {
      SumSqSign(s, n - 1);
      var x := s[n - 1];
      SquareSign(x);
      if x != 0.0 {
        assert SumSq(s, n) > 0.0;
      }
    }
  }

  lemma {:induction false} RectFactor(w: real, s: seq<real>, n: nat)
    requires n <= |s|
    ensures Rect(w, s, n) == w * SumSq(s, n)
  {
    if n > 0 {
      RectFactor(w, s, n - 1);
    }
  }

  /** The integrals have the sign of their step; they vanish exactly when the step or the
      integrand does. */
  lemma NormSign(w: real, s: seq<real>, n: nat)
    requires n <= |s|
    ensures w > 0.0 ==> Rect(w, s, n) >= 0.0
    ensures w < 0.0 ==> Rect(w, s, n) <= 0.0
    ensures Rect(w, s, n) == 0.0 <==> w == 0.0 || forall i :: 0 <= i < n ==> s[i] == 0.0
    ensures Rect(w, s, n) != 0.0 ==> w / Rect(w, s, n) > 0.0
  {
    RectFactor(w, s, n);
    SumSqSign(s, n);
    var q := SumSq(s, n);
    if w * q != 0.0 {
      assert q > 0.0;
      assert w / (w * q) == 1.0 / q;
    }
  }

  /** A second moment with non-negative weights and a positive step/norm ratio is non-negative. */
  lemma {:induction false} MomentNonneg(a: seq<real>, s: seq<real>, step: real, norm: real, n: nat)
    requires n <= |a| && n <= |s| && norm != 0.0
    requires forall i :: 0 <= i < n ==> a[i] >= 0.0
    requires step / norm > 0.0
    ensures Moment(a, s, step, norm, n) >= 0.0
  {
    if n > 0 {
      MomentNonneg(a, s, step, norm, n - 1);
      WeightedNonneg(a[n - 1], s[n - 1], step, norm);
    }
  }

  lemma WeightedNonneg(w: real, v: real, step: real, norm: real)
    requires norm != 0.0 && w >= 0.0 && step / norm > 0.0
    ensures Weighted(w, v, step, norm) >= 0.0
  {
    SquareSign(v);
    var t := w * Sq(v);
    assert t >= 0.0;
    assert t * step / norm == t * (step / norm);
  }

  /** Whenever the spreads are computed at all they are non-negative: the sign of the step
      cancels against the sign of the norm it is divided by. */
  lemma SpreadsNonneg(xp: seq<real>, tot: seq<real>, stepx: real,
                      kcen: real, k: seq<real>, phi: seq<real>, stepk: real)
    requires |xp| == |tot| && |k| == |phi|
    requires Rect(2.0 * stepx, tot, |tot|) != 0.0 && Rect(stepk, phi, |phi|) != 0.0
    ensures Moment(XWeights(xp), tot, stepx, Rect(2.0 * stepx, tot, |tot|), |tot|) >= 0.0
    ensures Moment(KWeights(kcen, k), phi, stepk, Rect(stepk, phi, |phi|), |phi|) >= 0.0
  {
    var ix := Rect(2.0 * stepx, tot, |tot|);
    NormSign(2.0 * stepx, tot, |tot|);
    HalfRatio(stepx, ix);
    MomentNonneg(XWeights(xp), tot, stepx, ix, |tot|);
    NormSign(stepk, phi, |phi|);
    MomentNonneg(KWeights(kcen, k), phi, stepk, Rect(stepk, phi, |phi|), |phi|);
  }

  lemma HalfRatio(a: real, b: real)
    requires b != 0.0 && 2.0 * a / b > 0.0
    ensures a / b > 0.0
  {
    assert 2.0 * a / b == 2.0 * (a / b);
  }

  /** The `intx`/`intk` loop of `disp`. */
  method Norms(stepx: real, stepk: real, tot: seq<real>, phi: seq<real>)
    returns (intx: real, intk: real)
    requires |tot| == |phi|
    ensures intx == Rect(2.0 * stepx, tot, |tot|) && intk == Rect(stepk, phi, |phi|)
    ensures stepx > 0.0 ==> intx >= 0.0
    ensures stepk > 0.0 ==> intk >= 0.0
  {
    intx, intk := 0.0, 0.0;
    for i := 0 to |tot|
      invariant intx == Rect(2.0 * stepx, tot, i) && intk == Rect(stepk, phi, i)
    {
      intx := intx + 2.0 * stepx * Sq(tot[i]);
      intk := intk + stepk * Sq(phi[i]);
    }
    NormSign(2.0 * stepx, tot, |tot|);
    NormSign(stepk, phi, |phi|);
  }

  /** The `sigx`/`sigk` loop of `disp`; it raises ZeroDivisionError on its first pass
      when either norm is zero. */
  method Variances(kcen: real, k: seq<real>, xp: seq<real>, phi: seq<real>, tot: seq<real>,
                   stepx: real, stepk: real, intx: real, intk: real)
    returns (r: Outcome<(real, real)>)
    requires |k| == |xp| == |phi| == |tot| > 0
    requires intx == Rect(2.0 * stepx, tot, |tot|) && intk == Rect(stepk, phi, |phi|)
    ensures r.ZeroDivision? <==> intx == 0.0 || intk == 0.0
    ensures r.Done? ==> r.value.0 == Moment(XWeights(xp), tot, stepx, intx, |tot|)
    ensures r.Done? ==> r.value.1 == Moment(KWeights(kcen, k), phi, stepk, intk, |phi|)
    ensures r.Done? ==> r.value.0 >= 0.0 && r.value.1 >= 0.0
  {
    ghost var wx, wk := XWeights(xp), KWeights(kcen, k);
    var sigx, sigk := 0.0, 0.0;
    for i := 0 to |tot|
      invariant i > 0 ==> intx != 0.0 && intk != 0.0
      invariant intx != 0.0 && intk != 0.0 ==>
        sigx == Moment(wx, tot, stepx, intx, i) && sigk == Moment(wk, phi, stepk, intk, i)
    {
      if intx == 0.0 || intk == 0.0 {
        return ZeroDivision;
      }
      sigx := sigx + Weighted(2.0 * Sq(xp[i]), tot[i], stepx, intx);
      sigk := sigk + Weighted(Sq(kcen - k[i]), phi[i], stepk, intk);
    }
    SpreadsNonneg(xp, tot, stepx, kcen, k, phi, stepk);
    r := Done((sigx, sigk));
  }

  /** The reported spreads: square roots of the variances and of their product. */
  datatype Uncertainty = Uncertainty(sigmaX: real, sigmaK: real, product: real)

  function Finish(m: Math, sigx: real, sigk: real): (u: Uncertainty)
    requires m.Valid()
    ensures sigx >= 0.0 && sigk >= 0.0 ==> u.sigmaX >= 0.0 && u.sigmaK >= 0.0 && u.product >= 0.0
    ensures sigx > 0.0 && sigk > 0.0 ==> u.sigmaX > 0.0 && u.sigmaK > 0.0 && u.product > 0.0
  {
    Uncertainty(m.sqrt(sigx), m.sqrt(sigk), m.sqrt(sigx * sigk))
  }

  // ---------------------------------------------------------------- the whole computation

  /** The envelope and the non-negative position grid as functions of the inputs. */
  function PhiSeq(m: Math, c: Config, kcen: real, kwid: real): (r: seq<real>)
    requires m.Valid() && c.Valid() && kwid != 0.0
    ensures |r| == c.nstep + 1
  {
    seq(c.nstep + 1, i => Phi(m, c, kcen, kwid, i))
  }

  /** The final waveform: every position sample holds the sum of all components. */
  function Total(m: Math, c: Config, kcen: real, kwid: real, knum: int, x2: real): (r: seq<real>)
    requires m.Valid() && c.Valid() && kwid != 0.0 && knum != 1
    ensures |r| == c.nstep + 1
  {
    seq(c.nstep + 1, j => Superpose(m, c, kcen, kwid, knum, PhiSeq(m, c, kcen, kwid),
                                   XAt(c, x2, j), if knum < 0 then 0 else knum))
  }

  /** The momentum norm never vanishes: every envelope sample is non-zero. */
  lemma MomentumNormNonzero(m: Math, c: Config, kcen: real, kwid: real)
    requires m.Valid() && c.Valid() && kwid != 0.0
    ensures Rect(StepK(c, kwid), PhiSeq(m, c, kcen, kwid), c.nstep + 1) != 0.0
    ensures kwid > 0.0 ==> Rect(StepK(c, kwid), PhiSeq(m, c, kcen, kwid), c.nstep + 1) > 0.0
  {
    var phi := PhiSeq(m, c, kcen, kwid);
    assert phi[0] != 0.0;
    assert StepK(c, kwid) != 0.0;
    assert kwid > 0.0 ==> StepK(c, kwid) > 0.0;
    NormSign(StepK(c, kwid), phi, c.nstep + 1);
  }

  /** The position norm vanishes exactly when the x step is zero or the waveform is zero
      everywhere; with no components (knum <= 0) it always does. */
  lemma PositionNormZero(m: Math, c: Config, kcen: real, kwid: real, knum: int, x2: real)
    requires m.Valid() && c.Valid() && kwid != 0.0 && knum != 1
    ensures Rect(2.0 * StepX(c, x2), Total(m, c, kcen, kwid, knum, x2), c.nstep + 1) == 0.0
        <==> x2 == 0.0 || forall j :: 0 <= j <= c.nstep ==> Total(m, c, kcen, kwid, knum, x2)[j] == 0.0
    ensures knum <= 0 ==> Rect(2.0 * StepX(c, x2), Total(m, c, kcen, kwid, knum, x2), c.nstep + 1) == 0.0
  {
    var t := Total(m, c, kcen, kwid, knum, x2);
    NormSign(2.0 * StepX(c, x2), t, c.nstep + 1);
    assert 2.0 * StepX(c, x2) == 0.0 <==> x2 == 0.0;
  }

  /** Everything `disp` computes. */
  datatype Run = Run(k: seq<real>, xp: seq<real>, xn: seq<real>, phi: seq<real>,
                     k3: seq<real>, ph3: seq<real>, waves: seq<Wave>, tot: seq<real>,
                     spread: Uncertainty)

  /** `disp` once the envelope's normalisation is known to be defined. */
  method Synthesize(m: Math, c: Config, kcen: real, kwid: real, num: real, x2: real)
    returns (r: Outcome<Run>)
    requires m.Valid() && c.Valid() && kwid != 0.0
    ensures r.ZeroDivision? <==>
      (Trunc(num) == 1 || Rect(2.0 * StepX(c, x2), Total(m, c, kcen, kwid, Trunc(num), x2), c.nstep + 1) == 0.0)
    ensures r.Done? ==>
      Grids(m, c, kcen, kwid, x2, r.value.k, r.value.xp, r.value.xn, r.value.phi) &&
      r.value.k3 == Select(c, r.value.k) && r.value.ph3 == Select(c, r.value.phi) &&
      |r.value.waves| == (if Trunc(num) < 0 then 0 else Trunc(num)) &&
      r.value.tot == Total(m, c, kcen, kwid, Trunc(num), x2)
    ensures r.Done? ==> forall i :: 0 <= i < |r.value.waves| ==>
      IsWave(m, c, kcen, kwid, Trunc(num), r.value.phi, r.value.xp, i, r.value.waves[i])
    ensures r.Done? ==>
      var intx := Rect(2.0 * StepX(c, x2), r.value.tot, c.nstep + 1);
      var intk := Rect(StepK(c, kwid), r.value.phi, c.nstep + 1);
      intx != 0.0 && intk != 0.0 &&
      r.value.spread == Finish(m, Moment(XWeights(r.value.xp), r.value.tot, StepX(c, x2), intx, c.nstep + 1),
                                  Moment(KWeights(kcen, r.value.k), r.value.phi, StepK(c, kwid), intk, c.nstep + 1))
    ensures r.Done? ==> r.value.spread.sigmaX >= 0.0 && r.value.spread.sigmaK >= 0.0 && r.value.spread.product >= 0.0
  {
    var knum := Trunc(num);
    var k, xp, xn, phi, k3, ph3 := BuildGrids(m, c, kcen, kwid, x2);
    var ok, waves, tot := Waveform(m, c, kcen, kwid, knum, x2, phi, xp);
    if !ok {
      return ZeroDivision;
    }
    var spread := Spreads(m, c, kcen, kwid, x2, k, xp, phi, tot);
    if spread.ZeroDivision? {
      return ZeroDivision;
    }
    r := Done(Run(k, xp, xn, phi, k3, ph3, waves, tot, spread.value));
  }

  /** The two integral loops of `disp` and the rounding-free report: ZeroDivisionError
      exactly when the position norm is zero, since the momentum norm never is. */
  method Spreads(m: Math, c: Config, kcen: real, kwid: real, x2: real,
                 k: seq<real>, xp: seq<real>, phi: seq<real>, tot: seq<real>)
    returns (r: Outcome<Uncertainty>)
    requires m.Valid() && c.Valid() && kwid != 0.0
    requires phi == PhiSeq(m, c, kcen, kwid)
    requires |k| == |xp| == |tot| == c.nstep + 1
    ensures r.ZeroDivision? <==> Rect(2.0 * StepX(c, x2), tot, c.nstep + 1) == 0.0
    ensures r.Done? ==>
      var intx := Rect(2.0 * StepX(c, x2), tot, c.nstep + 1);
      var intk := Rect(StepK(c, kwid), phi, c.nstep + 1);
      intx != 0.0 && intk != 0.0 &&
      r.value == Finish(m, Moment(XWeights(xp), tot, StepX(c, x2), intx, c.nstep + 1),
                           Moment(KWeights(kcen, k), phi, StepK(c, kwid), intk, c.nstep + 1))
    ensures r.Done? ==> r.value.sigmaX >= 0.0 && r.value.sigmaK >= 0.0 && r.value.product >= 0.0
  {
    var stepx := StepX(c, x2);
    var stepk := StepK(c, kwid);
    var intx, intk := Norms(stepx, stepk, tot, phi);
    MomentumNormNonzero(m, c, kcen, kwid);
    var v := Variances(kcen, k, xp, phi, tot, stepx, stepk, intx, intk);
    if v.ZeroDivision? {
      return ZeroDivision;
    }
    r := Done(Finish(m, v.value.0, v.value.1));
  }

  /** The zero-filled `tot` of the grid loop, with every component added into it. */
  method Waveform(m: Math, c: Config, kcen: real, kwid: real, knum: int, x2: real,
                  phi: seq<real>, xp: seq<real>)
    returns (ok: bool, waves: seq<Wave>, tot: seq<real>)
    requires m.Valid() && c.Valid() && kwid != 0.0
    requires phi == PhiSeq(m, c, kcen, kwid)
    requires |xp| == c.nstep + 1 && forall j :: 0 <= j <= c.nstep ==> xp[j] == XAt(c, x2, j)
    ensures ok <==> knum != 1
    ensures ok ==> |waves| == (if knum < 0 then 0 else knum)
    ensures ok ==> forall i :: 0 <= i < |waves| ==> IsWave(m, c, kcen, kwid, knum, phi, xp, i, waves[i])
    ensures ok ==> tot == Total(m, c, kcen, kwid, knum, x2)
  {
    var a := new real[c.nstep + 1](_ => 0.0);
    ghost var zeros := a[..];
    ok, waves := Components(m, c, kcen, kwid, knum, phi, xp, a);
    tot := a[..];
    if ok {
      forall j | 0 <= j < a.Length
        ensures tot[j] == Total(m, c, kcen, kwid, knum, x2)[j]
      {
        assert zeros[j] == 0.0;
      }
    }
  }

  /** `disp(kcen, kwid, num, p1, p2, x1, x2)` without its plotting: `p1`, `p2`, `x1` only set
      plot limits. It fails with ZeroDivisionError exactly when kwid == 0 (the envelope),
      int(num) == 1 (the frequency spacing) or the position norm is zero (the variance). */
  method Disp(m: Math, c: Config, kcen: real, kwid: real, num: real, x2: real)
    returns (r: Outcome<Run>)
    requires m.Valid() && c.Valid()
    ensures r.ZeroDivision? <==>
      (kwid == 0.0 || Trunc(num) == 1 ||
       Rect(2.0 * StepX(c, x2), Total(m, c, kcen, kwid, Trunc(num), x2), c.nstep + 1) == 0.0)
    ensures r.Done? ==>
      Grids(m, c, kcen, kwid, x2, r.value.k, r.value.xp, r.value.xn, r.value.phi) &&
      r.value.k3 == Select(c, r.value.k) && r.value.ph3 == Select(c, r.value.phi) &&
      |r.value.waves| == (if Trunc(num) < 0 then 0 else Trunc(num)) &&
      r.value.tot == Total(m, c, kcen, kwid, Trunc(num), x2)
    ensures r.Done? ==> forall i :: 0 <= i < |r.value.waves| ==>
      IsWave(m, c, kcen, kwid, Trunc(num), r.value.phi, r.value.xp, i, r.value.waves[i])
    ensures r.Done? ==>
      var intx := Rect(2.0 * StepX(c, x2), r.value.tot, c.nstep + 1);
      var intk := Rect(StepK(c, kwid), r.value.phi, c.nstep + 1);
      intx != 0.0 && intk != 0.0 &&
      r.value.spread == Finish(m, Moment(XWeights(r.value.xp), r.value.tot, StepX(c, x2), intx, c.nstep + 1),
                                  Moment(KWeights(kcen, r.value.k), r.value.phi, StepK(c, kwid), intk, c.nstep + 1))
    ensures r.Done? ==> r.value.spread.sigmaX >= 0.0 && r.value.spread.sigmaK >= 0.0 && r.value.spread.product >= 0.0
  {
    if kwid == 0.0 {
      return ZeroDivision;
    }
    r := Synthesize(m, c, kcen, kwid, num, x2);
  }
}
