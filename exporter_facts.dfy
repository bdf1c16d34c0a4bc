/** What the exporter promises, proved about the model in module Exporter:
    the fixed catalog, the numeric policy of each reduction, and the shape
    of what a scrape sends. */
module ExporterFacts {
  import opened GoNumerics
  import opened Exporter

  // ---------------------------------------------------------------------
  // The catalog.

  /** Describe sends the same seven descriptors whatever the exporter was
      built with: its domains, project and window play no part. */
  lemma DescribeIsFixed(domainList1: seq<DomainBaseInfo>, projectId1: string, rangeTime1: Int64, delayTime1: Int64,
                        domainList2: seq<DomainBaseInfo>, projectId2: string, rangeTime2: Int64, delayTime2: Int64)
    ensures Describe(CdnCloudExporter(domainList1, projectId1, rangeTime1, delayTime1))
         == Describe(CdnCloudExporter(domainList2, projectId2, rangeTime2, delayTime2))
  {
  }

  /** The seven descriptors of a constructed exporter have pairwise distinct
      names, all in namespace "uCloud" and subsystem "cdn", and each declares
      the single variable label "instanceId". */
  lemma CatalogWellFormed(domainList: seq<DomainBaseInfo>, projectId: string, rangeTime: Int64, delayTime: Int64)
    ensures var descs := Describe(CdnCloudExporter(domainList, projectId, rangeTime, delayTime));
      && (forall i, j :: 0 <= i < j < |descs| ==> descs[i].name != descs[j].name)
      && (forall i :: 0 <= i < |descs| ==>
            descs[i].namespace == "uCloud" && descs[i].subsystem == "cdn"
            && descs[i].variableLabels == ["instanceId"])
  {
    var descs := Describe(CdnCloudExporter(domainList, projectId, rangeTime, delayTime));
    var names := seq(|descs|, i requires 0 <= i < |descs| => descs[i].name);
    assert names == ["request_hit_rate", "flow_hit_rate", "band_width", "http_code_4XX",
                     "95_band_width", "http_code_5XX", "resource_request"];
    assert forall i :: 0 <= i < |descs| ==> names[i] == descs[i].name;
  }

  /** Prometheus' `BuildFQName` for three non-empty parts: joined by `_`. */
  function FQName(d: Desc): string {
    d.namespace + "_" + d.subsystem + "_" + d.name
  }

  predicate IsNameStart(c: char) {
    ('a' <= c <= 'z') || ('A' <= c <= 'Z') || c == '_'
  }

  predicate IsNameChar(c: char) {
    IsNameStart(c) || ('0' <= c <= '9')
  }

  /** Every character may appear after the first of a Prometheus name. */
  predicate AllNameChars(s: string) {
    forall i :: 0 <= i < |s| ==> IsNameChar(s[i])
  }

  /** Prometheus' metric-name syntax `[a-zA-Z_:][a-zA-Z0-9_:]*`, without the
      colons the exporter never uses. */
  predicate IsMetricName(s: string) {
    |s| > 0 && IsNameStart(s[0]) && AllNameChars(s)
  }

  /** Prometheus' label-name syntax `[a-zA-Z_][a-zA-Z0-9_]*`. */
  predicate IsLabelName(s: string) {
    |s| > 0 && IsNameStart(s[0]) && AllNameChars(s)
  }

  lemma AllNameCharsConcat(a: string, b: string)
    requires AllNameChars(a) && AllNameChars(b)
    ensures AllNameChars(a + b)
  {
    forall i | 0 <= i < |a + b| ensures IsNameChar((a + b)[i]) {
      if i >= |a| {
        assert (a + b)[i] == b[i - |a|];
      }
    }
  }

  /** A descriptor in namespace `uCloud` and subsystem `cdn` whose own name
      is made of name characters has a valid fully-qualified name. */
  lemma FQNameValid(d: Desc)
    requires d.namespace == CdnNameSpace && d.subsystem == CdnSubsystem
    requires AllNameChars(d.name)
    ensures IsMetricName(FQName(d))
  {
    assert AllNameChars("uCloud") && AllNameChars(CdnSubsystem) && AllNameChars("_");
    AllNameCharsConcat("uCloud", "_");
    AllNameCharsConcat("uCloud_", CdnSubsystem);
    AllNameCharsConcat("uCloud_cdn", "_");
    AllNameCharsConcat("uCloud_cdn_", d.name);
    assert FQName(d) == "uCloud_cdn_" + d.name;
  }

  /** No descriptor of a constructed exporter carries a construction error:
      each fully-qualified name and each label name is valid, and each help
      text is non-empty. */
  lemma CatalogNamesValid(domainList: seq<DomainBaseInfo>, projectId: string, rangeTime: Int64, delayTime: Int64)
    ensures var descs := Describe(CdnCloudExporter(domainList, projectId, rangeTime, delayTime));
      forall k :: 0 <= k < |descs| ==>
        && IsMetricName(FQName(descs[k]))
        && (forall j :: 0 <= j < |descs[k].variableLabels| ==> IsLabelName(descs[k].variableLabels[j]))
        && |descs[k].help| > 0
  {
    var descs := Describe(CdnCloudExporter(domainList, projectId, rangeTime, delayTime));
    assert IsLabelName(InstanceIdLabel);
    forall k | 0 <= k < |descs| ensures IsMetricName(FQName(descs[k])) {
      assert AllNameChars(descs[k].name) by {
        NameCharsOfCatalog();
      }
      FQNameValid(descs[k]);
    }
  }

  /** The seven own names are made of name characters. */
  lemma NameCharsOfCatalog()
    ensures AllNameChars("request_hit_rate") && AllNameChars("flow_hit_rate")
    ensures AllNameChars("band_width") && AllNameChars("http_code_4XX")
    ensures AllNameChars("http_code_5XX") && AllNameChars("95_band_width")
    ensures AllNameChars("resource_request")
  {
  }

  /** Describe sends the descriptor of each metric of its own order. */
  lemma DescribeInOrder(e: CdnExporter)
    ensures |Describe(e)| == |DescribeOrder|
    ensures forall k :: 0 <= k < |DescribeOrder| ==> Describe(e)[k] == DescOf(e, DescribeOrder[k])
  {
  }

  /** Collect sends one domain's gauges in another order than Describe
      announces the descriptors, but over the same seven metrics, each once. */
  lemma CollectOrderPermutesDescribe()
    ensures multiset(CollectOrder) == multiset(DescribeOrder)
    ensures forall m: Metric :: m in CollectOrder
    ensures CollectOrder != DescribeOrder
  {
    assert CollectOrder[1] != DescribeOrder[1];
    SameMetricsInBothOrders();
    CollectOrderCovers();
  }

  /** Each metric occurs exactly once in each of the two orders. */
  lemma SameMetricsInBothOrders()
    ensures multiset(CollectOrder) == multiset(DescribeOrder)
  {
    forall m: Metric ensures multiset(CollectOrder)[m] == multiset(DescribeOrder)[m] {
      OnceIn(m, CollectOrder);
      OnceIn(m, DescribeOrder);
    }
  }

  /** A metric occurs once in a sequence that holds it at one index and
      nowhere else. */
  lemma OnceAt(m: Metric, order: seq<Metric>, k: nat)
    requires k < |order| && order[k] == m
    requires forall j :: 0 <= j < |order| && j != k ==> order[j] != m
    ensures multiset(order)[m] == 1
  {
    assert order == order[..k] + [m] + order[k + 1..];
    assert m !in order[..k] && m !in order[k + 1..];
  }

  /** A metric occurs once in each of the two orders. */
  lemma OnceIn(m: Metric, order: seq<Metric>)
    requires order == CollectOrder || order == DescribeOrder
    ensures multiset(order)[m] == 1
  {
    var k := if order == CollectOrder then CollectIndex(m) else DescribeIndex(m);
    OnceAt(m, order, k);
  }

  /** The index of a metric in Collect's order. */
  function CollectIndex(m: Metric): (k: nat)
    ensures k < |CollectOrder| && CollectOrder[k] == m
  {
    match m
    case RequestHitRate => 0
    case BandWidth => 1
    case OriginHttpCode4xx => 2
    case OriginHttpCode5xx => 3
    case BandWidth95 => 4
    case FlowHitRate => 5
    case ResourceRequest => 6
  }

  /** The index of a metric in Describe's order. */
  function DescribeIndex(m: Metric): (k: nat)
    ensures k < |DescribeOrder| && DescribeOrder[k] == m
  {
    match m
    case RequestHitRate => 0
    case FlowHitRate => 1
    case BandWidth => 2
    case OriginHttpCode4xx => 3
    case BandWidth95 => 4
    case OriginHttpCode5xx => 5
    case ResourceRequest => 6
  }

  /** Every metric has a place in Collect's order. */
  lemma CollectOrderCovers()
    ensures forall m: Metric :: m in CollectOrder
  {
    forall m: Metric ensures m in CollectOrder {
      var k := CollectIndex(m);
    }
  }

  // ---------------------------------------------------------------------
  // Reductions: the float mean.

  /** A sum of values that all lie in [lo, hi] lies between n * lo and n * hi. */
  lemma {:induction false} SumOfBounds<P>(points: seq<P>, field: P -> real, lo: real, hi: real)
    requires forall i :: 0 <= i < |points| ==> lo <= field(points[i]) <= hi
    ensures |points| as real * lo <= SumOf(points, field) <= |points| as real * hi
    decreases |points|
  {
    if points != [] {
      var pre := points[..|points| - 1];
      assert forall i :: 0 <= i < |pre| ==> pre[i] == points[i];
      SumOfBounds(pre, field, lo, hi);
    }
  }

  /** The mean of a non-empty series is finite and lies within any bounds
      its points lie in (a hit rate of points in [0, 100] is in [0, 100]). */
  lemma FloatMeanBounded<P>(points: seq<P>, field: P -> real, lo: real, hi: real)
    requires |points| > 0
    requires forall i :: 0 <= i < |points| ==> lo <= field(points[i]) <= hi
    ensures FloatMean(points, field).Finite?
    ensures lo <= FloatMean(points, field).value <= hi
  {
    SumOfBounds(points, field, lo, hi);
    var n, s := |points| as real, SumOf(points, field);
    var m := FloatMean(points, field).value;
    assert m * n == s;
  }

  /** The mean of a non-empty series times its length is its sum. */
  lemma FloatMeanIsAverage<P>(points: seq<P>, field: P -> real)
    requires |points| > 0
    ensures FloatMean(points, field).Finite?
    ensures FloatMean(points, field).value * |points| as real == SumOf(points, field)
  {
  }

  /** An empty series gives 0.0 / 0.0, which is NaN, not a panic; rounding
      keeps it NaN. */
  lemma EmptySeriesIsNaN<P>(field: P -> real, roundCents: real -> real)
    ensures Rounded(FloatMean([], field), roundCents) == NaN
  {
  }

  // ---------------------------------------------------------------------
  // Reductions: the integer mean of the HTTP status totals.

  /** The integer mean of a non-empty series whose exact total fits in a Go
      `int` is that total divided with truncation toward zero. */
  lemma IntMeanTruncates<P>(points: seq<P>, field: P -> int)
    requires |points| > 0
    requires MinInt64 <= TotalOf(points, field) <= MaxInt64
    ensures IntMean(points, field).Ok?
    ensures var q, s, n := IntMean(points, field).value, TotalOf(points, field), |points|;
      && (s >= 0 ==> q * n <= s < q * n + n)
      && (s < 0 ==> q * n - n < s <= q * n)
  {
  }

  /** The integer mean of an empty series is Go's integer divide by zero. */
  lemma IntMeanOfEmptyPanics<P>(field: P -> int)
    ensures IntMean([], field) == Err(IntegerDivideByZero)
  {
  }

  /** A total of values in [0, hi] lies in [0, n * hi]. */
  lemma {:induction false} TotalOfBounds<P>(points: seq<P>, field: P -> int, hi: int)
    requires forall i :: 0 <= i < |points| ==> 0 <= field(points[i]) <= hi
    ensures 0 <= TotalOf(points, field) <= |points| * hi
    decreases |points|
  {
    if points != [] {
      var pre := points[..|points| - 1];
      assert forall i :: 0 <= i < |pre| ==> pre[i] == points[i];
      TotalOfBounds(pre, field, hi);
    }
  }

  /** For non-negative totals whose sum does not overflow, the truncated
      mean lies between 0 and any bound of the per-point totals; in
      particular it never exceeds the largest of them. */
  lemma IntMeanBounded<P>(points: seq<P>, field: P -> int, hi: int)
    requires |points| > 0
    requires forall i :: 0 <= i < |points| ==> 0 <= field(points[i]) <= hi
    requires TotalOf(points, field) <= MaxInt64
    ensures IntMean(points, field).Ok?
    ensures 0 <= IntMean(points, field).value <= hi
  {
    TotalOfBounds(points, field, hi);
    var s, n := TotalOf(points, field), |points|;
    assert Wrap64(s) == s;
    var q := TruncDiv(s, n);
    assert 0 <= q * n <= s <= n * hi;
    QuotientAtMost(q, n, s, hi);
  }

  /** A quotient whose multiple stays below n * hi is at most hi. */
  lemma QuotientAtMost(q: int, n: int, s: int, hi: int)
    requires n > 0
    requires q * n <= s <= n * hi
    ensures q <= hi
  {
  }

  /** The largest per-point total bounds the mean from above. */
  lemma IntMeanAtMostMax<P>(points: seq<P>, field: P -> int, k: nat)
    requires k < |points|
    requires forall i :: 0 <= i < |points| ==> 0 <= field(points[i]) <= field(points[k])
    requires TotalOf(points, field) <= MaxInt64
    ensures IntMean(points, field).Ok?
    ensures 0 <= IntMean(points, field).value <= field(points[k])
  {
    IntMeanBounded(points, field, field(points[k]));
  }

  /** Totals 3, 4, 4 give 11 / 3 = 3, not the rounded 4. */
  lemma IntMeanTruncatesExample()
    ensures IntMean([HttpCodePoint(0, 0, 0, 3, 0), HttpCodePoint(0, 0, 0, 4, 0),
                     HttpCodePoint(0, 0, 0, 4, 0)], Http4xxOf) == Ok(3)
  {
    var ps := [HttpCodePoint(0, 0, 0, 3, 0), HttpCodePoint(0, 0, 0, 4, 0), HttpCodePoint(0, 0, 0, 4, 0)];
    assert TotalOf(ps, Http4xxOf) == 11 by {
      assert ps[..2][..1] == ps[..1];
      assert TotalOf(ps[..1], Http4xxOf) == 3;
    }
  }

  /** A negative total truncates toward zero: -11 / 3 is -3, where Dafny's
      Euclidean division would give -4. */
  lemma IntMeanNegativeExample()
    ensures IntMean([HttpCodePoint(0, 0, 0, -3, 0), HttpCodePoint(0, 0, 0, -4, 0),
                     HttpCodePoint(0, 0, 0, -4, 0)], Http4xxOf) == Ok(-3)
  {
    var ps := [HttpCodePoint(0, 0, 0, -3, 0), HttpCodePoint(0, 0, 0, -4, 0), HttpCodePoint(0, 0, 0, -4, 0)];
    assert TotalOf(ps, Http4xxOf) == -11 by {
      assert ps[..2][..1] == ps[..1];
      assert TotalOf(ps[..1], Http4xxOf) == -3;
    }
  }

  /** The Go `int` accumulator wraps: two samples of the largest `int`
      total -2 after wrap-around, so their mean is -1. */
  lemma IntMeanOverflowExample()
    ensures IntMean([HttpCodePoint(0, 0, 0, MaxInt64, 0), HttpCodePoint(0, 0, 0, MaxInt64, 0)],
                    Http4xxOf) == Ok(-1)
  {
    var ps := [HttpCodePoint(0, 0, 0, MaxInt64, 0), HttpCodePoint(0, 0, 0, MaxInt64, 0)];
    assert ps[..1][..0] == [];
    assert TotalOf(ps[..1], Http4xxOf) == MaxInt64;
    assert TotalOf(ps, Http4xxOf) == 2 * MaxInt64;
    assert Wrap64(2 * MaxInt64) == -2;
  }

  // ---------------------------------------------------------------------
  // One domain.

  /** A domain's scrape panics exactly when its status-code series is empty;
      otherwise it sends seven gauges in Collect's fixed order, each labelled
      with the domain's name alone. */
  lemma DomainMetricsShape(e: CdnExporter, src: DataSource, roundCents: real -> real, d: DomainBaseInfo)
    ensures DomainMetrics(e, src, roundCents, d).Err? <==> Panics(e, src, d)
    ensures DomainMetrics(e, src, roundCents, d).Ok? ==>
      var ms := DomainMetrics(e, src, roundCents, d).value;
      && |ms| == |CollectOrder|
      && forall k :: 0 <= k < |ms| ==>
           ms[k].desc == DescOf(e, CollectOrder[k]) && ms[k].valueType == GaugeValue
           && ms[k].labelValues == [d.domain]
  {
  }

  /** Each of a domain's seven values is the reduction of its own fetch: the
      rounded means of the hit-rate, bandwidth and origin-request series, the
      truncated means of the 4xx and 5xx totals, and the 95th-percentile
      bandwidth exactly as the data source returned it. */
  ghost predicate ValuesFromOwnSeries(e: CdnExporter, src: DataSource, roundCents: real -> real,
                                      d: DomainBaseInfo, ms: seq<ConstMetric>)
  {
    var q := QueryFor(e, d);
    var http := src.retrieveOriginHttpCode4xx(q);
    && |ms| == 7 && |http| > 0
    && ms[0].value == Rounded(FloatMean(src.retrieveHitRate(q), RequestHitRateOf), roundCents)
    && ms[1].value == Rounded(FloatMean(src.retrieveBandWidth(q), CdnBandwidthOf), roundCents)
    && ms[2].value == Finite(TruncDiv(Wrap64(TotalOf(http, Http4xxOf)), |http|) as real)
    && ms[3].value == Finite(TruncDiv(Wrap64(TotalOf(http, Http5xxOf)), |http|) as real)
    && ms[4].value == Finite(src.retrieve95BandWidth(q))
    && ms[5].value == Rounded(FloatMean(src.retrieveHitRate(q), FlowHitRateOf), roundCents)
    && ms[6].value == Rounded(FloatMean(src.retrieveDomainOriginRequestNum(q), CdnRequestOf), roundCents)
  }

  lemma DomainMetricsValues(e: CdnExporter, src: DataSource, roundCents: real -> real, d: DomainBaseInfo)
    requires DomainMetrics(e, src, roundCents, d).Ok?
    ensures ValuesFromOwnSeries(e, src, roundCents, d, DomainMetrics(e, src, roundCents, d).value)
  {
  }

  /** The two hit-rate gauges (positions 0 and 5) depend on the hit-rate
      fetch alone. */
  lemma HitRateGaugesOwnFetch(e: CdnExporter, src1: DataSource, src2: DataSource,
                              roundCents: real -> real, d: DomainBaseInfo)
    requires src1.retrieveHitRate(QueryFor(e, d)) == src2.retrieveHitRate(QueryFor(e, d))
    requires DomainMetrics(e, src1, roundCents, d).Ok? && DomainMetrics(e, src2, roundCents, d).Ok?
    ensures var ms1, ms2 := DomainMetrics(e, src1, roundCents, d).value, DomainMetrics(e, src2, roundCents, d).value;
      ms1[0] == ms2[0] && ms1[5] == ms2[5]
  {
  }

  /** The bandwidth gauge (position 1) depends on the bandwidth fetch alone. */
  lemma BandWidthGaugeOwnFetch(e: CdnExporter, src1: DataSource, src2: DataSource,
                               roundCents: real -> real, d: DomainBaseInfo)
    requires src1.retrieveBandWidth(QueryFor(e, d)) == src2.retrieveBandWidth(QueryFor(e, d))
    requires DomainMetrics(e, src1, roundCents, d).Ok? && DomainMetrics(e, src2, roundCents, d).Ok?
    ensures DomainMetrics(e, src1, roundCents, d).value[1] == DomainMetrics(e, src2, roundCents, d).value[1]
  {
  }

  /** The 95th-percentile gauge (position 4) depends on its own fetch alone. */
  lemma Percentile95GaugeOwnFetch(e: CdnExporter, src1: DataSource, src2: DataSource,
                                  roundCents: real -> real, d: DomainBaseInfo)
    requires src1.retrieve95BandWidth(QueryFor(e, d)) == src2.retrieve95BandWidth(QueryFor(e, d))
    requires DomainMetrics(e, src1, roundCents, d).Ok? && DomainMetrics(e, src2, roundCents, d).Ok?
    ensures DomainMetrics(e, src1, roundCents, d).value[4] == DomainMetrics(e, src2, roundCents, d).value[4]
  {
  }

  /** The origin-request gauge (position 6) depends on the origin-request
      fetch alone. */
  lemma RequestGaugeOwnFetch(e: CdnExporter, src1: DataSource, src2: DataSource,
                             roundCents: real -> real, d: DomainBaseInfo)
    requires src1.retrieveDomainOriginRequestNum(QueryFor(e, d))
          == src2.retrieveDomainOriginRequestNum(QueryFor(e, d))
    requires DomainMetrics(e, src1, roundCents, d).Ok? && DomainMetrics(e, src2, roundCents, d).Ok?
    ensures DomainMetrics(e, src1, roundCents, d).value[6] == DomainMetrics(e, src2, roundCents, d).value[6]
  {
  }

  /** Whether a domain panics, and its 4xx and 5xx gauges (positions 2 and 3),
      depend on the status-code fetch alone, and within it only on the length
      and the 4xx and 5xx totals. */
  lemma HttpGaugesOwnFetch(e: CdnExporter, src1: DataSource, src2: DataSource,
                           roundCents: real -> real, d: DomainBaseInfo)
    requires var h1, h2 := src1.retrieveOriginHttpCode4xx(QueryFor(e, d)), src2.retrieveOriginHttpCode4xx(QueryFor(e, d));
      && |h1| == |h2|
      && forall i :: 0 <= i < |h1| ==> h1[i].http4xx == h2[i].http4xx && h1[i].http5xx == h2[i].http5xx
    ensures DomainMetrics(e, src1, roundCents, d).Ok? == DomainMetrics(e, src2, roundCents, d).Ok?
    ensures DomainMetrics(e, src1, roundCents, d).Ok? ==>
      var ms1, ms2 := DomainMetrics(e, src1, roundCents, d).value, DomainMetrics(e, src2, roundCents, d).value;
      ms1[2] == ms2[2] && ms1[3] == ms2[3]
  {
    var q := QueryFor(e, d);
    var h1, h2 := src1.retrieveOriginHttpCode4xx(q), src2.retrieveOriginHttpCode4xx(q);
    TotalOfAgree(h1, h2, Http4xxOf, Http4xxOf);
    TotalOfAgree(h1, h2, Http5xxOf, Http5xxOf);
  }

  /** Two exact totals that agree point by point are equal. */
  lemma {:induction false} TotalOfAgree<P>(ps1: seq<P>, ps2: seq<P>, f1: P -> int, f2: P -> int)
    requires |ps1| == |ps2|
    requires forall i :: 0 <= i < |ps1| ==> f1(ps1[i]) == f2(ps2[i])
    ensures TotalOf(ps1, f1) == TotalOf(ps2, f2)
    decreases |ps1|
  {
    if ps1 != [] {
      var n := |ps1| - 1;
      assert forall i :: 0 <= i < n ==> ps1[..n][i] == ps1[i] && ps2[..n][i] == ps2[i];
      TotalOfAgree(ps1[..n], ps2[..n], f1, f2);
    }
  }

  /** The 1xx, 2xx and 3xx totals are summed but never sent: two sources that
      agree on everything but those totals give the same gauges. */
  lemma LowClassTotalsIgnored(e: CdnExporter, src1: DataSource, src2: DataSource,
                              roundCents: real -> real, d: DomainBaseInfo)
    requires var q := QueryFor(e, d);
      && src1.retrieveHitRate(q) == src2.retrieveHitRate(q)
      && src1.retrieveBandWidth(q) == src2.retrieveBandWidth(q)
      && src1.retrieveDomainOriginRequestNum(q) == src2.retrieveDomainOriginRequestNum(q)
      && src1.retrieve95BandWidth(q) == src2.retrieve95BandWidth(q)
      && |src1.retrieveOriginHttpCode4xx(q)| == |src2.retrieveOriginHttpCode4xx(q)|
      && forall i :: 0 <= i < |src1.retrieveOriginHttpCode4xx(q)| ==>
           src1.retrieveOriginHttpCode4xx(q)[i].http4xx == src2.retrieveOriginHttpCode4xx(q)[i].http4xx
           && src1.retrieveOriginHttpCode4xx(q)[i].http5xx == src2.retrieveOriginHttpCode4xx(q)[i].http5xx
    ensures DomainMetrics(e, src1, roundCents, d) == DomainMetrics(e, src2, roundCents, d)
  {
    var q := QueryFor(e, d);
    var h1, h2 := src1.retrieveOriginHttpCode4xx(q), src2.retrieveOriginHttpCode4xx(q);
    TotalOfAgree(h1, h2, Http4xxOf, Http4xxOf);
    TotalOfAgree(h1, h2, Http5xxOf, Http5xxOf);
  }

  // ---------------------------------------------------------------------
  // The whole scrape, for any per-domain step.

  /** What a step sends for `d` when it does not panic. */
  function Block(step: DomainStep, d: DomainBaseInfo): seq<ConstMetric> {
    match step(d)
    case Ok(ms) => ms
    case Err(_) => []
  }

  /** The blocks of the domains `ds`, concatenated in list order. */
  function Blocks(step: DomainStep, ds: seq<DomainBaseInfo>): seq<ConstMetric>
    decreases |ds|
  {
    if ds == [] then []
    else Blocks(step, ds[..|ds| - 1]) + Block(step, ds[|ds| - 1])
  }

  /** How the count of completed domains grows by one list element. */
  lemma CompletedStep(step: DomainStep, ds: seq<DomainBaseInfo>)
    requires ds != []
    ensures var n := |ds| - 1; var cp := Completed(step, ds[..n]);
      Completed(step, ds) == if cp < n || step(ds[n]).Err? then cp else |ds|
  {
    var n := |ds| - 1;
    assert forall j :: 0 <= j < n ==> ds[..n][j] == ds[j];
  }

  /** A scrape panics exactly when some domain's step panics; it then stops
      at the first such domain. What it has sent is the blocks of the
      domains before that one, in list order. */
  lemma {:induction false} ScrapeSpec(step: DomainStep, ds: seq<DomainBaseInfo>)
    ensures Scrape(step, ds).panicked <==> Completed(step, ds) < |ds|
    ensures Scrape(step, ds).sent == Blocks(step, ds[..Completed(step, ds)])
    decreases |ds|
  {
    if ds == [] {
      assert ds[..0] == [];
    } else {
      var n := |ds| - 1;
      var pre := ds[..n];
      ScrapeSpec(step, pre);
      CompletedStep(step, ds);
      var cp := Completed(step, pre);
      if Scrape(step, pre).panicked {
        assert ds[..cp] == pre[..cp];
      } else if step(ds[n]).Err? {
        assert ds[..n] == pre[..cp];
      } else {
        assert pre[..cp] == pre;
        assert ds[..|ds|][..n] == pre;
      }
    }
  }

  /** When every step sends seven gauges, gauge i of the blocks is gauge
      i % 7 of domain i / 7's block. */
  lemma {:induction false} BlocksAt(step: DomainStep, ds: seq<DomainBaseInfo>, i: nat)
    requires forall j :: 0 <= j < |ds| ==> step(ds[j]).Ok? && |step(ds[j]).value| == 7
    ensures |Blocks(step, ds)| == 7 * |ds|
    ensures i < 7 * |ds| ==> Blocks(step, ds)[i] == step(ds[i / 7]).value[i % 7]
    decreases |ds|
  {
    if ds != [] {
      var n := |ds| - 1;
      var pre := ds[..n];
      assert forall j :: 0 <= j < n ==> pre[j] == ds[j];
      BlocksAt(step, pre, if i < 7 * n then i else 0);
      if 7 * n <= i < 7 * |ds| {
        assert i / 7 == n && i % 7 == i - 7 * n;
      }
    }
  }

  /** The nonpanicking prefix of a scrape is made of seven-gauge blocks, and
      gauge i of what is sent is gauge i % 7 of domain i / 7's block. */
  lemma SentAt(step: DomainStep, ds: seq<DomainBaseInfo>, i: nat)
    requires forall d :: step(d).Ok? ==> |step(d).value| == 7
    ensures |Scrape(step, ds).sent| == 7 * Completed(step, ds)
    ensures i < |Scrape(step, ds).sent| ==>
      step(ds[i / 7]).Ok? && Scrape(step, ds).sent[i] == step(ds[i / 7]).value[i % 7]
  {
    ScrapeSpec(step, ds);
    var done := ds[..Completed(step, ds)];
    BlocksAt(step, done, i);
    if i < |Scrape(step, ds).sent| {
      assert done[i / 7] == ds[i / 7];
    }
  }

  /** The block of domain j before the first panic is sent whole, at
      positions 7 * j up to 7 * j + 7. */
  lemma ScrapeBlock(step: DomainStep, ds: seq<DomainBaseInfo>, j: nat)
    requires forall d :: step(d).Ok? ==> |step(d).value| == 7
    requires j < Completed(step, ds)
    ensures step(ds[j]).Ok? && 7 * j + 7 <= |Scrape(step, ds).sent|
    ensures Scrape(step, ds).sent[7 * j .. 7 * j + 7] == step(ds[j]).value
  {
    SentAt(step, ds, 0);
    var sent := Scrape(step, ds).sent;
    var ms := step(ds[j]).value;
    forall k | 0 <= k < 7 ensures sent[7 * j + k] == ms[k] {
      SentAt(step, ds, 7 * j + k);
      assert (7 * j + k) / 7 == j && (7 * j + k) % 7 == k;
    }
    assert sent[7 * j .. 7 * j + 7] == ms;
  }

  // ---------------------------------------------------------------------
  // The whole scrape of the exporter.

  /** Every step of Collect sends seven gauges or panics. */
  lemma CollectStepSendsSeven(e: CdnExporter, src: DataSource, roundCents: real -> real)
    ensures forall d :: CollectStep(e, src, roundCents)(d).Ok? ==> |CollectStep(e, src, roundCents)(d).value| == 7
  {
    forall d | CollectStep(e, src, roundCents)(d).Ok?
      ensures |CollectStep(e, src, roundCents)(d).value| == 7
    {
      DomainMetricsShape(e, src, roundCents, d);
    }
  }

  /** A scrape completes exactly when no domain's status-code series is
      empty, and then it sends exactly 7 * |ds| gauges. */
  lemma ScrapeCardinality(e: CdnExporter, src: DataSource, roundCents: real -> real,
                          ds: seq<DomainBaseInfo>)
    ensures var r := Scrape(CollectStep(e, src, roundCents), ds);
      !r.panicked <==> forall j :: 0 <= j < |ds| ==> !Panics(e, src, ds[j])
    ensures var r := Scrape(CollectStep(e, src, roundCents), ds);
      !r.panicked ==> |r.sent| == 7 * |ds|
  {
    var step := CollectStep(e, src, roundCents);
    ScrapeSpec(step, ds);
    CollectStepSendsSeven(e, src, roundCents);
    SentAt(step, ds, 0);
    var c := Completed(step, ds);
    if c < |ds| {
      DomainMetricsShape(e, src, roundCents, ds[c]);
    }
    forall j | 0 <= j < c ensures !Panics(e, src, ds[j]) {
      DomainMetricsShape(e, src, roundCents, ds[j]);
    }
  }

  /** Gauge number i of a scrape belongs to domain i / 7 of the list, is the
      metric at position i % 7 of Collect's order, is a gauge, and carries
      that domain's name as its only label value. */
  lemma ScrapeLayout(e: CdnExporter, src: DataSource, roundCents: real -> real,
                     ds: seq<DomainBaseInfo>)
    ensures |Scrape(CollectStep(e, src, roundCents), ds).sent|
            == 7 * Completed(CollectStep(e, src, roundCents), ds) <= 7 * |ds|
    ensures forall i :: 0 <= i < |Scrape(CollectStep(e, src, roundCents), ds).sent| ==>
      var m := Scrape(CollectStep(e, src, roundCents), ds).sent[i];
      && m.desc == DescOf(e, CollectOrder[i % 7])
      && m.valueType == GaugeValue
      && m.labelValues == [ds[i / 7].domain]
  {
    var step := CollectStep(e, src, roundCents);
    CollectStepSendsSeven(e, src, roundCents);
    SentAt(step, ds, 0);
    var sent := Scrape(step, ds).sent;
    forall i | 0 <= i < |sent|
      ensures sent[i].desc == DescOf(e, CollectOrder[i % 7])
      ensures sent[i].valueType == GaugeValue
      ensures sent[i].labelValues == [ds[i / 7].domain]
    {
      SentAt(step, ds, i);
      DomainMetricsShape(e, src, roundCents, ds[i / 7]);
    }
  }

  /** The block of a domain before the first panic holds the reductions of
      that domain's own fetches. */
  lemma ScrapeValues(e: CdnExporter, src: DataSource, roundCents: real -> real,
                     ds: seq<DomainBaseInfo>, j: nat)
    requires j < Completed(CollectStep(e, src, roundCents), ds)
    ensures 7 * j + 7 <= |Scrape(CollectStep(e, src, roundCents), ds).sent|
    ensures ValuesFromOwnSeries(e, src, roundCents, ds[j],
                                Scrape(CollectStep(e, src, roundCents), ds).sent[7 * j .. 7 * j + 7])
  {
    var step := CollectStep(e, src, roundCents);
    CollectStepSendsSeven(e, src, roundCents);
    ScrapeBlock(step, ds, j);
    DomainMetricsValues(e, src, roundCents, ds[j]);
  }

  /** Every gauge a constructed exporter sends has a descriptor that Describe
      announces, and as many label values as that descriptor has labels. */
  lemma SentMatchesDescribed(domainList: seq<DomainBaseInfo>, projectId: string, rangeTime: Int64,
                             delayTime: Int64, src: DataSource, roundCents: real -> real)
    ensures var e := CdnCloudExporter(domainList, projectId, rangeTime, delayTime);
      var sent := Scrape(CollectStep(e, src, roundCents), e.domainList).sent;
      forall i :: 0 <= i < |sent| ==>
        sent[i].desc in Describe(e) && |sent[i].labelValues| == |sent[i].desc.variableLabels|
  {
    var e := CdnCloudExporter(domainList, projectId, rangeTime, delayTime);
    ScrapeLayout(e, src, roundCents, e.domainList);
  }

  // ---------------------------------------------------------------------
  // An end-to-end scenario.

  function Cents(k: int): real { k as real / 100.0 }

  /** Formatting with two decimals and parsing back leaves a value that
      already has at most two decimals unchanged. */
  ghost predicate KeepsCents(roundCents: real -> real) {
    forall k: int :: roundCents(Cents(k)) == Cents(k)
  }

  /** Domain "example.com" with hit-rate samples (request 90, flow 95) and
      (request 92, flow 97) reports a request hit rate of 91.0 and a flow hit
      rate of 96.0, both labelled "example.com". */
  lemma HitRateScenario(projectId: string, src: DataSource, roundCents: real -> real)
    requires KeepsCents(roundCents)
    requires var q := Query("d1", projectId, 3600, 300);
      && src.retrieveHitRate(q) == [HitRatePoint(95.0, 90.0), HitRatePoint(97.0, 92.0)]
      && |src.retrieveOriginHttpCode4xx(q)| > 0
    ensures var e := CdnCloudExporter([DomainBaseInfo("d1", "example.com")], projectId, 3600, 300);
      var r := Scrape(CollectStep(e, src, roundCents), e.domainList);
      && !r.panicked && |r.sent| == 7
      && r.sent[0] == ConstMetric(e.cdnRequestHitRate, GaugeValue, Finite(91.0), ["example.com"])
      && r.sent[5] == ConstMetric(e.cdnFlowHitRate, GaugeValue, Finite(96.0), ["example.com"])
  {
    var e := CdnCloudExporter([DomainBaseInfo("d1", "example.com")], projectId, 3600, 300);
    var d := e.domainList[0];
    var hit := [HitRatePoint(95.0, 90.0), HitRatePoint(97.0, 92.0)];
    assert hit[..1][..0] == [];
    assert SumOf(hit, RequestHitRateOf) == 182.0;
    assert SumOf(hit, FlowHitRateOf) == 192.0;
    assert roundCents(Cents(9100)) == 91.0;
    assert roundCents(Cents(9600)) == 96.0;
    assert e.domainList[..0] == [];
    assert CollectStep(e, src, roundCents)(d) == DomainMetrics(e, src, roundCents, d);
    assert DomainMetrics(e, src, roundCents, d).Ok?;
  }
}
