/** Air quality from two Kalman filters, one for eCO2 and one for TVOC, and its classification. */
module AirQualities {
  import opened Bytes
  import opened Kalman
  import opened Packets
  import opened Tables
  import opened EnvPackets

  const ECO2_Q := 5.0
  const ECO2_R := 10.0
  const ECO2_INITIAL := 400.0
  const TVOC_Q := 0.5
  const TVOC_R := 5.0
  const TVOC_INITIAL := 0.0

  const ECO2_WARNING_PPM := 1000
  const ECO2_POOR_PPM := 2000
  const TVOC_WARNING_PPB := 220
  const TVOC_POOR_PPB := 660

  datatype Class = Good | Warning | Poor

  datatype Air = Air(eco2: Filter, tvoc: Filter)

  const INITIAL_AIR := Air(Initial(ECO2_Q, ECO2_R, ECO2_INITIAL), Initial(TVOC_Q, TVOC_R, TVOC_INITIAL))

  predicate Measuring(a: Air) {
    && Rising(a.eco2) && a.eco2.q == ECO2_Q && a.eco2.r == ECO2_R && 0.0 <= a.eco2.x <= 65535.0
    && Rising(a.tvoc) && a.tvoc.q == TVOC_Q && a.tvoc.r == TVOC_R && 0.0 <= a.tvoc.x <= 65535.0
  }

  function Classify(estimate: real, warning: int, poor: int): Class {
    if estimate >= poor as real then Poor
    else if estimate >= warning as real then Warning
    else Good
  }

  function Eco2Class(a: Air): Class {
    Classify(a.eco2.x, ECO2_WARNING_PPM, ECO2_POOR_PPM)
  }

  function TvocClass(a: Air): Class {
    Classify(a.tvoc.x, TVOC_WARNING_PPB, TVOC_POOR_PPB)
  }

  function Measure(a: Air, eco2: u16, tvoc: u16): (b: Air)
    requires Measuring(a)
    ensures Measuring(b)
  {
    MeasureKeeps(a.eco2, eco2 as real);
    MeasureKeeps(a.tvoc, tvoc as real);
    Air(Step(a.eco2, eco2 as real), Step(a.tvoc, tvoc as real))
  }

  lemma MeasureKeeps(f: Filter, m: real)
    requires Rising(f) && 0.0 <= f.x <= 65535.0 && 0.0 <= m <= 65535.0
    ensures Predicted(f) + f.r != 0.0
    ensures Rising(Step(f, m)) && 0.0 <= Step(f, m).x <= 65535.0
  {
    RisingStep(f, m);
    StepBetween(f, m, 0.0, 65535.0);
  }

  lemma InitialMeasuring()
    ensures Measuring(INITIAL_AIR)
  {
  }

  /** Both filters updated once per record, in order. */
  function Feed<K>(air: Air, records: seq<Entry<K, Telemetry>>): (r: Air)
    requires Measuring(air)
    ensures Measuring(r)
  {
    if records == [] then air
    else
      var reading := records[|records| - 1].value.reading;
      Measure(Feed(air, records[..|records| - 1]), reading.eco2, reading.tvoc)
  }

  class AirQuality {
    const eco2Filter: KalmanFilter
    const tvocFilter: KalmanFilter

    ghost function Repr(): set<object> {
      {eco2Filter, tvocFilter}
    }

    ghost function View(): Air
      reads Repr()
    {
      Air(eco2Filter.View(), tvocFilter.View())
    }

    ghost predicate Valid()
      reads Repr()
    {
      eco2Filter != tvocFilter && Measuring(View())
    }

    constructor ()
      ensures Valid() && fresh(Repr()) && View() == INITIAL_AIR
    {
      eco2Filter := new KalmanFilter(ECO2_Q, ECO2_R, ECO2_INITIAL);
      tvocFilter := new KalmanFilter(TVOC_Q, TVOC_R, TVOC_INITIAL);
      new;
      InitialMeasuring();
    }

    method Update(eco2Ppm: u16, tvocPpb: u16)
      requires Valid()
      modifies Repr()
      ensures Valid() && View() == Measure(old(View()), eco2Ppm, tvocPpb)
    {
      ghost var before := View();
      RisingStep(before.eco2, eco2Ppm as real);
      RisingStep(before.tvoc, tvocPpb as real);
      var _ := eco2Filter.Update(eco2Ppm as real);
      var _ := tvocFilter.Update(tvocPpb as real);
      assert View() == Measure(before, eco2Ppm, tvocPpb);
    }

    method GetEco2() returns (c: Class)
      ensures c == Eco2Class(View())
    {
      var estimate := eco2Filter.x;
      if estimate >= ECO2_POOR_PPM as real {
        return Poor;
      } else if estimate >= ECO2_WARNING_PPM as real {
        return Warning;
      }
      return Good;
    }

    method GetTvoc() returns (c: Class)
      ensures c == TvocClass(View())
    {
      var estimate := tvocFilter.x;
      if estimate >= TVOC_POOR_PPB as real {
        return Poor;
      } else if estimate >= TVOC_WARNING_PPB as real {
        return Warning;
      }
      return Good;
    }

    method Reset()
      requires Valid()
      modifies Repr()
      ensures Valid() && View() == INITIAL_AIR
    {
      eco2Filter.Init(ECO2_Q, ECO2_R, ECO2_INITIAL);
      tvocFilter.Init(TVOC_Q, TVOC_R, TVOC_INITIAL);
      InitialMeasuring();
    }
  }

  // ----- What the measurements do -----

  function Eco2Of<K>(records: seq<Entry<K, Telemetry>>): (ms: seq<real>)
    ensures |ms| == |records| && forall i :: 0 <= i < |ms| ==> ms[i] == records[i].value.reading.eco2 as real
  {
    seq(|records|, i requires 0 <= i < |records| => records[i].value.reading.eco2 as real)
  }

  function TvocOf<K>(records: seq<Entry<K, Telemetry>>): (ms: seq<real>)
    ensures |ms| == |records| && forall i :: 0 <= i < |ms| ==> ms[i] == records[i].value.reading.tvoc as real
  {
    seq(|records|, i requires 0 <= i < |records| => records[i].value.reading.tvoc as real)
  }

  /** Each filter runs over its own readings, in order, and over nothing else. */
  lemma {:induction false} FeedRunsFilters<K>(a: Air, records: seq<Entry<K, Telemetry>>)
    requires Measuring(a)
    ensures Feed(a, records) == Air(Run(a.eco2, Eco2Of(records)), Run(a.tvoc, TvocOf(records)))
  {
    if records != [] {
      var n := |records| - 1;
      FeedRunsFilters(a, records[..n]);
      assert Eco2Of(records)[..n] == Eco2Of(records[..n]) && TvocOf(records)[..n] == TvocOf(records[..n]);
    }
  }

  /** The classes of a state: eCO2 is poor from 2000 ppm and good below 1000, TVOC from 660 and below 220 ppb. */
  lemma ClassesByThreshold(a: Air)
    ensures (Eco2Class(a) == Poor <==> a.eco2.x >= 2000.0) && (Eco2Class(a) == Good <==> a.eco2.x < 1000.0)
    ensures (TvocClass(a) == Poor <==> a.tvoc.x >= 660.0) && (TvocClass(a) == Good <==> a.tvoc.x < 220.0)
  {
  }

  /**
   * From boot, or after a reset, the first record moves the eCO2 estimate three eighths of the
   * way from 400 ppm to its reading and the TVOC estimate to three thirteenths of its reading.
   */
  lemma FirstRecord<K>(record: Entry<K, Telemetry>)
    ensures Measuring(INITIAL_AIR)
    ensures var a, reading := Feed(INITIAL_AIR, [record]), record.value.reading;
      && a.eco2.x == 400.0 + 3.0 / 8.0 * (reading.eco2 as real - 400.0)
      && a.tvoc.x == 3.0 / 13.0 * reading.tvoc as real
  {
    InitialMeasuring();
    assert [record][..0] == [];
    assert Feed<K>(INITIAL_AIR, []) == INITIAL_AIR;
    assert Gain(INITIAL_AIR.eco2) == 6.0 / 16.0;
    assert Gain(INITIAL_AIR.tvoc) == 1.5 / 6.5;
  }

  // ----- The tuned filters -----

  /**
   * For every sequence of eCO2 measurements the covariance lies in [1, 5) and the gain in
   * [3/8, 1/2); both rise with every measurement.
   */
  lemma Eco2Gain(ms: seq<real>, m: real)
    ensures Rising(INITIAL_AIR.eco2)
    ensures var f := Run(INITIAL_AIR.eco2, ms);
      && Rising(f) && f.p < 5.0 && Predicted(f) + f.r > 0.0
      && 3.0 / 8.0 <= Gain(f) < 1.0 / 2.0
      && Gain(f) < Gain(Step(f, m))
  {
    var f := Run(INITIAL_AIR.eco2, ms);
    RisingRun(INITIAL_AIR.eco2, ms);
    RisingStep(f, m);
    BelowFive(f.p);
    ShareFalls(6.0, f.p + 5.0, 10.0);
    ShareFalls(f.p + 5.0, 10.0, 10.0);
  }

  lemma BelowFive(p: real)
    requires p > 0.0 && ResidualAt(p, 5.0, 10.0) < 0.0
    ensures p < 5.0
  {
    assert (p - 5.0) * (p + 10.0) == ResidualAt(p, 5.0, 10.0);
    SameSign(5.0 - p, p + 10.0);
  }

  lemma ClassNear(x: real, m: int, warning: int, poor: int)
    requires warning < poor && Distance(x, m as real) < 1.0
    ensures Classify(x, warning, poor) == Classify(m as real, warning, poor)
        <==> (m == warning || m == poor ==> x >= m as real)
  {
  }

  const ECO2_SETTLING: nat := 24
  const TVOC_SETTLING: nat := 43

  lemma SettlingShares()
    ensures Shrink(ECO2_Q, ECO2_R) == 5.0 / 8.0
    ensures Pow(5.0 / 8.0, ECO2_SETTLING) * 65535.0 < 1.0
    ensures Shrink(TVOC_Q, TVOC_R) == 10.0 / 13.0
    ensures Pow(10.0 / 13.0, TVOC_SETTLING) * 65535.0 < 1.0
  {
    var b := 5.0 / 8.0;
    SquareBound(b, 1, 0.625);
    SquareBound(b, 2, 0.390625);
    SquareBound(b, 4, 0.1526);
    SquareBound(b, 8, 0.0233);
    PowSum(b, 8, 16);
    ProductBound(Pow(b, 8), 0.0233, Pow(b, 16), 0.000543);
    var c := 10.0 / 13.0;
    assert Pow(c, 3) == c * (c * c) && Pow(c, 5) == c * (c * (c * (c * c)));
    SquareBound(c, 5, 0.2694);
    SquareBound(c, 10, 0.0726);
    SquareBound(c, 20, 0.00528);
    PowSum(c, 40, 3);
    ProductBound(Pow(c, 40), 0.0000279, Pow(c, 3), 0.4552);
  }

  lemma {:induction false} PowSum(b: real, n: nat, k: nat)
    ensures Pow(b, n + k) == Pow(b, n) * Pow(b, k)
  {
    if n > 0 {
      PowSum(b, n - 1, k);
      Associative(b, Pow(b, n - 1), Pow(b, k));
    }
  }

  lemma Associative(a: real, b: real, c: real)
    ensures a * (b * c) == (a * b) * c
  {
  }

  lemma SquareBound(b: real, n: nat, bound: real)
    requires 0.0 <= b <= 1.0 && Pow(b, n) <= bound
    ensures 0.0 <= Pow(b, 2 * n) <= bound * bound
  {
    PowSum(b, n, n);
    PowShrinks(b, 0, n);
    PowShrinks(b, 0, 2 * n);
    ProductBound(Pow(b, n), bound, Pow(b, n), bound);
  }

  lemma ErrorBelowOne(f: Filter, m: real, n: nat, settling: nat)
    requires Rising(f) && 0.0 <= f.x <= 65535.0 && 0.0 <= m <= 65535.0
    requires n >= settling && Pow(Shrink(f.q, f.r), settling) * 65535.0 < 1.0
    ensures Distance(Run(f, Constant(m, n)).x, m) < 1.0
    ensures Run(f, Constant(m, n)).x >= m <==> f.x >= m
  {
    ErrorShrinks(f, m, n);
    RisingStep(f, m);
    var c := Shrink(f.q, f.r);
    PowShrinks(c, settling, n);
    BelowOne(Distance(Run(f, Constant(m, n)).x, m), Pow(c, n), Distance(f.x, m), Pow(c, settling));
  }

  lemma BelowOne(after: real, share: real, before: real, cap: real)
    requires after <= share * before && 0.0 <= share <= cap && 0.0 <= before <= 65535.0 && cap * 65535.0 < 1.0
    ensures after < 1.0
  {
    ProductBound(share, cap, before, 65535.0);
  }

  lemma ProductBound(a: real, a': real, b: real, b': real)
    requires 0.0 <= a <= a' && 0.0 <= b <= b'
    ensures a * b <= a' * b'
  {
    NonNegative(a' - a, b);
    NonNegative(a', b' - b);
  }

  predicate AllEco2<K>(records: seq<Entry<K, Telemetry>>, m: u16) {
    forall i :: 0 <= i < |records| ==> records[i].value.reading.eco2 == m
  }

  predicate AllTvoc<K>(records: seq<Entry<K, Telemetry>>, m: u16) {
    forall i :: 0 <= i < |records| ==> records[i].value.reading.tvoc == m
  }

  /**
   * Settling of the eCO2 class. From any state the filters can be in, 24 records or more with
   * the same eCO2 reading m bring the class to that of m, if and only if m is not a threshold
   * approached from below. (From below, the exact estimate never reaches m itself.)
   */
  lemma {:induction false} Eco2SettlesIff<K>(a: Air, records: seq<Entry<K, Telemetry>>, m: u16)
    requires Measuring(a) && |records| >= 24 && AllEco2(records, m)
    ensures Eco2Class(Feed(a, records)) == (if m >= 2000 then Poor else if m >= 1000 then Warning else Good)
        <==> (m == 1000 || m == 2000 ==> a.eco2.x >= m as real)
  {
    FeedRunsFilters(a, records);
    assert Eco2Of(records) == Constant(m as real, |records|);
    SettlingShares();
    ErrorBelowOne(a.eco2, m as real, |records|, ECO2_SETTLING);
    ClassNear(Run(a.eco2, Constant(m as real, |records|)).x, m, ECO2_WARNING_PPM, ECO2_POOR_PPM);
  }

  /** Settling of the TVOC class, after 43 records with equal readings. */
  lemma {:induction false} TvocSettlesIff<K>(a: Air, records: seq<Entry<K, Telemetry>>, m: u16)
    requires Measuring(a) && |records| >= 43 && AllTvoc(records, m)
    ensures TvocClass(Feed(a, records)) == (if m >= 660 then Poor else if m >= 220 then Warning else Good)
        <==> (m == 220 || m == 660 ==> a.tvoc.x >= m as real)
  {
    FeedRunsFilters(a, records);
    assert TvocOf(records) == Constant(m as real, |records|);
    SettlingShares();
    ErrorBelowOne(a.tvoc, m as real, |records|, TVOC_SETTLING);
    ClassNear(Run(a.tvoc, Constant(m as real, |records|)).x, m, TVOC_WARNING_PPB, TVOC_POOR_PPB);
  }

  function Severity(c: Class): nat {
    match c
    case Good => 0
    case Warning => 1
    case Poor => 2
  }

  /** Larger eCO2 readings never improve the eCO2 class, nor larger TVOC readings the TVOC class. */
  lemma {:induction false} ClassIsMonotone<K>(a: Air, rs: seq<Entry<K, Telemetry>>, ss: seq<Entry<K, Telemetry>>)
    requires Measuring(a) && |rs| == |ss|
    ensures (forall i :: 0 <= i < |rs| ==> rs[i].value.reading.eco2 <= ss[i].value.reading.eco2) ==>
      Severity(Eco2Class(Feed(a, rs))) <= Severity(Eco2Class(Feed(a, ss)))
    ensures (forall i :: 0 <= i < |rs| ==> rs[i].value.reading.tvoc <= ss[i].value.reading.tvoc) ==>
      Severity(TvocClass(Feed(a, rs))) <= Severity(TvocClass(Feed(a, ss)))
  {
    FeedRunsFilters(a, rs);
    FeedRunsFilters(a, ss);
    if forall i :: 0 <= i < |rs| ==> rs[i].value.reading.eco2 <= ss[i].value.reading.eco2 {
      EstimateIsMonotone(a.eco2, a.eco2, Eco2Of(rs), Eco2Of(ss));
    }
    if forall i :: 0 <= i < |rs| ==> rs[i].value.reading.tvoc <= ss[i].value.reading.tvoc {
      EstimateIsMonotone(a.tvoc, a.tvoc, TvocOf(rs), TvocOf(ss));
    }
  }
}
