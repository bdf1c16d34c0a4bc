/** The CDN exporter of exporter/ucloudexporter.go: a fixed catalog of seven
    gauge descriptors, and the scrape that fetches each monitored domain's
    statistics, reduces every series to one value and sends seven gauges per
    domain, all labelled with the domain's name. */
module Exporter {
  import opened GoNumerics

  const CdnNameSpace: string := "uCloud"
  const CdnSubsystem: string := "cdn"
  /** The one variable label every descriptor declares. */
  const InstanceIdLabel: string := "instanceId"

  /** A monitored domain: the identifier the data source is queried with and
      the name that labels every gauge sent for it. */
  datatype DomainBaseInfo = DomainBaseInfo(domainId: string, domain: string)

  /** A metric descriptor: the three parts its fully-qualified name is built
      from, its help text and its variable label names. */
  datatype Desc = Desc(namespace: string, subsystem: string, name: string,
                       help: string, variableLabels: seq<string>)

  /** The seven metrics of the catalog. */
  datatype Metric =
    | RequestHitRate | FlowHitRate | BandWidth | OriginHttpCode4xx
    | OriginHttpCode5xx | BandWidth95 | ResourceRequest

  /** The exporter record: its configuration and one descriptor per metric.
      Nothing modifies it after construction. */
  datatype CdnExporter = CdnExporter(
    domainList: seq<DomainBaseInfo>,
    rangeTime: Int64,
    delayTime: Int64,
    projectId: string,
    cdnRequestHitRate: Desc,
    cdnFlowHitRate: Desc,
    cdnBandWidth: Desc,
    cdnOriginHttpCode4xx: Desc,
    cdnOriginHttpCode5xx: Desc,
    cdn95bandwidth: Desc,
    cdnResourceRequest: Desc)

  function CdnDesc(name: string, help: string): Desc {
    Desc(CdnNameSpace, CdnSubsystem, name, help, [InstanceIdLabel])
  }

  /** Builds the exporter around a domain list and a report window. */
  function CdnCloudExporter(domainList: seq<DomainBaseInfo>, projectId: string,
                            rangeTime: Int64, delayTime: Int64): CdnExporter
  {
    CdnExporter(
      domainList, rangeTime, delayTime, projectId,
      cdnRequestHitRate := CdnDesc("request_hit_rate", "总请求命中率(%)"),
      cdnFlowHitRate := CdnDesc("flow_hit_rate", "总流量命中率(%)"),
      cdnBandWidth := CdnDesc("band_width", "域名带宽(Mbps)"),
      cdnOriginHttpCode4xx := CdnDesc("http_code_4XX", "http4XX请求数(Count)"),
      cdnOriginHttpCode5xx := CdnDesc("http_code_5XX", "http5XX请求数(Count)"),
      cdn95bandwidth := CdnDesc("95_band_width", "95带宽数据(Mbps)"),
      cdnResourceRequest := CdnDesc("resource_request", "cdn回源请求数"))
  }

  /** The exporter's descriptor of metric `m`. */
  function DescOf(e: CdnExporter, m: Metric): Desc {
    match m
    case RequestHitRate => e.cdnRequestHitRate
    case FlowHitRate => e.cdnFlowHitRate
    case BandWidth => e.cdnBandWidth
    case OriginHttpCode4xx => e.cdnOriginHttpCode4xx
    case OriginHttpCode5xx => e.cdnOriginHttpCode5xx
    case BandWidth95 => e.cdn95bandwidth
    case ResourceRequest => e.cdnResourceRequest
  }

  /** The order in which Describe sends the descriptors. */
  const DescribeOrder: seq<Metric> :=
    [RequestHitRate, FlowHitRate, BandWidth, OriginHttpCode4xx,
     BandWidth95, OriginHttpCode5xx, ResourceRequest]

  /** The order in which Collect sends one domain's gauges. */
  const CollectOrder: seq<Metric> :=
    [RequestHitRate, BandWidth, OriginHttpCode4xx, OriginHttpCode5xx,
     BandWidth95, FlowHitRate, ResourceRequest]

  /** The descriptors Describe sends, in sending order: exactly seven, one for
      every metric of the catalog. */
  function Describe(e: CdnExporter): (descs: seq<Desc>)
    ensures |descs| == 7
    ensures forall m: Metric :: DescOf(e, m) in descs
  {
    [e.cdnRequestHitRate, e.cdnFlowHitRate, e.cdnBandWidth, e.cdnOriginHttpCode4xx,
     e.cdn95bandwidth, e.cdnOriginHttpCode5xx, e.cdnResourceRequest]
  }

  // ---------------------------------------------------------------------
  // The data source: what the collector package returns for one query.

  /** The arguments every fetch of one domain is made with. */
  datatype Query = Query(domainId: string, projectId: string, rangeTime: Int64, delayTime: Int64)

  function QueryFor(e: CdnExporter, d: DomainBaseInfo): Query {
    Query(d.domainId, e.projectId, e.rangeTime, e.delayTime)
  }

  datatype HitRatePoint = HitRatePoint(flowHitRate: real, requestHitRate: real)
  datatype BandwidthPoint = BandwidthPoint(cdnBandwidth: real)
  /** One sample of origin HTTP status codes: the `Total` of each class. */
  datatype HttpCodePoint = HttpCodePoint(http1xx: Int64, http2xx: Int64, http3xx: Int64,
                                         http4xx: Int64, http5xx: Int64)
  datatype RequestPoint = RequestPoint(cdnRequest: real)

  /** The five fetches Collect makes per domain; the last one returns the
      95th-percentile bandwidth already aggregated by the data source. */
  datatype DataSource = DataSource(
    retrieveHitRate: Query -> seq<HitRatePoint>,
    retrieveBandWidth: Query -> seq<BandwidthPoint>,
    retrieveOriginHttpCode4xx: Query -> seq<HttpCodePoint>,
    retrieveDomainOriginRequestNum: Query -> seq<RequestPoint>,
    retrieve95BandWidth: Query -> real)

  function FlowHitRateOf(p: HitRatePoint): real { p.flowHitRate }
  function RequestHitRateOf(p: HitRatePoint): real { p.requestHitRate }
  function CdnBandwidthOf(p: BandwidthPoint): real { p.cdnBandwidth }
  function CdnRequestOf(p: RequestPoint): real { p.cdnRequest }
  function Http1xxOf(p: HttpCodePoint): int { p.http1xx }
  function Http2xxOf(p: HttpCodePoint): int { p.http2xx }
  function Http3xxOf(p: HttpCodePoint): int { p.http3xx }
  function Http4xxOf(p: HttpCodePoint): int { p.http4xx }
  function Http5xxOf(p: HttpCodePoint): int { p.http5xx }

  // ---------------------------------------------------------------------
  // Reductions.

  /** The exact sum of a real field over a series. */
  function SumOf<P>(points: seq<P>, field: P -> real): real
    decreases |points|
  {
    if points == [] then 0.0
    else SumOf(points[..|points| - 1], field) + field(points[|points| - 1])
  }

  /** The exact (unbounded) sum of an integer field over a series. */
  function TotalOf<P>(points: seq<P>, field: P -> int): int
    decreases |points|
  {
    if points == [] then 0
    else TotalOf(points[..|points| - 1], field) + field(points[|points| - 1])
  }

  /** Go's `sum / float64(len(points))` before rounding. */
  function FloatMean<P>(points: seq<P>, field: P -> real): Float64 {
    FloatDiv(SumOf(points, field), |points|)
  }

  /** Formatting with two decimals and parsing back: a finite value is
      rounded by `roundCents`; NaN and the infinities come back unchanged. */
  function Rounded(v: Float64, roundCents: real -> real): (r: Float64)
    ensures r.Finite? <==> v.Finite?
    ensures !v.Finite? ==> r == v
  {
    match v
    case Finite(x) => Finite(roundCents(x))
    case _ => v
  }

  /** Why a scrape stops. */
  datatype Failure = IntegerDivideByZero

  datatype Result<T> = Ok(value: T) | Err(failure: Failure)

  /** Go's `sum / len(points)` on `int`: the wrapped sum divided with
      truncation; dividing by an empty series' length panics. */
  function IntMean<P>(points: seq<P>, field: P -> int): (r: Result<int>)
    ensures r.Err? <==> |points| == 0
  {
    if |points| == 0 then Err(IntegerDivideByZero)
    else Ok(TruncDiv(Wrap64(TotalOf(points, field)), |points|))
  }

  // ---------------------------------------------------------------------
  // What one domain contributes to a scrape.

  /** Prometheus' value kinds; the exporter only ever sends gauges. */
  datatype ValueType = CounterValue | GaugeValue | UntypedValue

  /** A metric sent on the channel: descriptor, kind, value, label values. */
  datatype ConstMetric = ConstMetric(desc: Desc, valueType: ValueType, value: Float64,
                                     labelValues: seq<string>)

  function Gauge(desc: Desc, v: Float64, d: DomainBaseInfo): ConstMetric {
    ConstMetric(desc, GaugeValue, v, [d.domain])
  }

  /** Whether the HTTP status-code series fetched for `d` is empty, which
      makes Collect divide by zero. */
  predicate Panics(e: CdnExporter, src: DataSource, d: DomainBaseInfo) {
    |src.retrieveOriginHttpCode4xx(QueryFor(e, d))| == 0
  }

  /** The seven gauges Collect sends for one domain, in sending order, or the
      panic of its integer division. */
  function DomainMetrics(e: CdnExporter, src: DataSource, roundCents: real -> real,
                         d: DomainBaseInfo): (r: Result<seq<ConstMetric>>)
    ensures r.Err? <==> Panics(e, src, d)
    ensures r.Ok? ==> |r.value| == |CollectOrder|
  {
    var q := QueryFor(e, d);
    var hitRateData := src.retrieveHitRate(q);
    var bandWidthData := src.retrieveBandWidth(q);
    var httpData := src.retrieveOriginHttpCode4xx(q);
    var requestData := src.retrieveDomainOriginRequestNum(q);
    var http4xx, http5xx := IntMean(httpData, Http4xxOf), IntMean(httpData, Http5xxOf);
    if |httpData| == 0 then Err(IntegerDivideByZero)
    else
      Ok([Gauge(e.cdnRequestHitRate, Rounded(FloatMean(hitRateData, RequestHitRateOf), roundCents), d),
          Gauge(e.cdnBandWidth, Rounded(FloatMean(bandWidthData, CdnBandwidthOf), roundCents), d),
          Gauge(e.cdnOriginHttpCode4xx, Finite(http4xx.value as real), d),
          Gauge(e.cdnOriginHttpCode5xx, Finite(http5xx.value as real), d),
          Gauge(e.cdn95bandwidth, Finite(src.retrieve95BandWidth(q)), d),
          Gauge(e.cdnFlowHitRate, Rounded(FloatMean(hitRateData, FlowHitRateOf), roundCents), d),
          Gauge(e.cdnResourceRequest, Rounded(FloatMean(requestData, CdnRequestOf), roundCents), d)])
  }

  /** One domain's part of a scrape: its gauges, or the panic that stops it. */
  type DomainStep = DomainBaseInfo -> Result<seq<ConstMetric>>

  /** The part Collect's loop body plays for each domain. */
  function CollectStep(e: CdnExporter, src: DataSource, roundCents: real -> real): DomainStep {
    d => DomainMetrics(e, src, roundCents, d)
  }

  /** What a scrape has sent, and whether it stopped on a panic. */
  datatype ScrapeResult = ScrapeResult(sent: seq<ConstMetric>, panicked: bool)

  /** A scrape over the domains `ds`, in list order; the first panic stops it
      and keeps what was sent before. */
  function Scrape(step: DomainStep, ds: seq<DomainBaseInfo>): ScrapeResult
    decreases |ds|
  {
    if ds == [] then ScrapeResult([], false)
    else
      var prev := Scrape(step, ds[..|ds| - 1]);
      if prev.panicked then prev
      else match step(ds[|ds| - 1])
        case Ok(ms) => ScrapeResult(prev.sent + ms, false)
        case Err(_) => ScrapeResult(prev.sent, true)
  }

  /** The number of leading domains whose step does not panic: the index of
      the first panicking domain, or the list's length when none panics. */
  function Completed(step: DomainStep, ds: seq<DomainBaseInfo>): (c: nat)
    ensures c <= |ds|
    ensures forall j :: 0 <= j < c ==> step(ds[j]).Ok?
    ensures c < |ds| ==> step(ds[c]).Err?
    decreases |ds|
  {
    if ds == [] || step(ds[0]).Err? then 0
    else 1 + Completed(step, ds[1..])
  }

  // ---------------------------------------------------------------------
  // The scrape as the source performs it.

  /** The hit-rate loop of one domain: both sums in one pass. */
  method SumHitRates(hitRateData: seq<HitRatePoint>)
    returns (flowHitRateSum: real, requestHitRateSum: real)
    ensures flowHitRateSum == SumOf(hitRateData, FlowHitRateOf)
    ensures requestHitRateSum == SumOf(hitRateData, RequestHitRateOf)
  {
    flowHitRateSum, requestHitRateSum := 0.0, 0.0;
    var i := 0;
    while i < |hitRateData|
      invariant 0 <= i <= |hitRateData|
      invariant flowHitRateSum == SumOf(hitRateData[..i], FlowHitRateOf)
      invariant requestHitRateSum == SumOf(hitRateData[..i], RequestHitRateOf)
    {
      assert hitRateData[..i + 1][..i] == hitRateData[..i];
      flowHitRateSum := flowHitRateSum + hitRateData[i].flowHitRate;
      requestHitRateSum := requestHitRateSum + hitRateData[i].requestHitRate;
      i := i + 1;
    }
    assert hitRateData[..i] == hitRateData;
  }

  /** The bandwidth loop of one domain. */
  method SumBandWidth(bandWidthData: seq<BandwidthPoint>) returns (bandWidthSum: real)
    ensures bandWidthSum == SumOf(bandWidthData, CdnBandwidthOf)
  {
    bandWidthSum := 0.0;
    var i := 0;
    while i < |bandWidthData|
      invariant 0 <= i <= |bandWidthData|
      invariant bandWidthSum == SumOf(bandWidthData[..i], CdnBandwidthOf)
    {
      assert bandWidthData[..i + 1][..i] == bandWidthData[..i];
      bandWidthSum := bandWidthSum + bandWidthData[i].cdnBandwidth;
      i := i + 1;
    }
    assert bandWidthData[..i] == bandWidthData;
  }

  /** The status-code loop of one domain: five Go `int` accumulators, each
      wrapping on overflow, so each holds its exact total modulo 2^64. */
  method SumHttpCodes(httpData: seq<HttpCodePoint>)
    returns (http1xxSum: Int64, http2xxSum: Int64, http3xxSum: Int64,
             http4xxSum: Int64, http5xxSum: Int64)
    ensures http1xxSum == Wrap64(TotalOf(httpData, Http1xxOf))
    ensures http2xxSum == Wrap64(TotalOf(httpData, Http2xxOf))
    ensures http3xxSum == Wrap64(TotalOf(httpData, Http3xxOf))
    ensures http4xxSum == Wrap64(TotalOf(httpData, Http4xxOf))
    ensures http5xxSum == Wrap64(TotalOf(httpData, Http5xxOf))
  {
    http1xxSum, http2xxSum, http3xxSum, http4xxSum, http5xxSum := 0, 0, 0, 0, 0;
    var i := 0;
    while i < |httpData|
      invariant 0 <= i <= |httpData|
      invariant http1xxSum == Wrap64(TotalOf(httpData[..i], Http1xxOf))
      invariant http2xxSum == Wrap64(TotalOf(httpData[..i], Http2xxOf))
      invariant http3xxSum == Wrap64(TotalOf(httpData[..i], Http3xxOf))
      invariant http4xxSum == Wrap64(TotalOf(httpData[..i], Http4xxOf))
      invariant http5xxSum == Wrap64(TotalOf(httpData[..i], Http5xxOf))
    {
      http1xxSum := AddWrapped(httpData, i, Http1xxOf, http1xxSum);
      http2xxSum := AddWrapped(httpData, i, Http2xxOf, http2xxSum);
      http3xxSum := AddWrapped(httpData, i, Http3xxOf, http3xxSum);
      http4xxSum := AddWrapped(httpData, i, Http4xxOf, http4xxSum);
      http5xxSum := AddWrapped(httpData, i, Http5xxOf, http5xxSum);
      i := i + 1;
    }
    assert httpData[..i] == httpData;
  }

  /** One Go `acc += field(points[i])` on an `int` accumulator: if the
      accumulator held the wrapped total of the points before i, it then
      holds the wrapped total of the points up to and including i. */
  method AddWrapped<P>(points: seq<P>, i: nat, field: P -> int, acc: Int64) returns (r: Int64)
    requires i < |points|
    requires acc == Wrap64(TotalOf(points[..i], field))
    ensures r == Wrap64(acc + field(points[i]))
    ensures r == Wrap64(TotalOf(points[..i + 1], field))
  {
    assert points[..i + 1][..i] == points[..i];
    WrapAccumulate(TotalOf(points[..i], field), field(points[i]));
    r := Wrap64(acc + field(points[i]));
  }

  /** The origin-request loop of one domain. */
  method SumResourceRequests(resourceCdnRequestData: seq<RequestPoint>)
    returns (resourceCdnRequestSum: real)
    ensures resourceCdnRequestSum == SumOf(resourceCdnRequestData, CdnRequestOf)
  {
    resourceCdnRequestSum := 0.0;
    var i := 0;
    while i < |resourceCdnRequestData|
      invariant 0 <= i <= |resourceCdnRequestData|
      invariant resourceCdnRequestSum == SumOf(resourceCdnRequestData[..i], CdnRequestOf)
    {
      assert resourceCdnRequestData[..i + 1][..i] == resourceCdnRequestData[..i];
      resourceCdnRequestSum := resourceCdnRequestSum + resourceCdnRequestData[i].cdnRequest;
      i := i + 1;
    }
    assert resourceCdnRequestData[..i] == resourceCdnRequestData;
  }

  /** One iteration of Collect's domain loop: the fetches, the sums, the two
      integer divisions and the seven sends. */
  method CollectDomain(e: CdnExporter, src: DataSource, roundCents: real -> real,
                       domain: DomainBaseInfo)
    returns (metrics: seq<ConstMetric>, ok: bool)
    ensures ok <==> DomainMetrics(e, src, roundCents, domain).Ok?
    ensures metrics == if ok then DomainMetrics(e, src, roundCents, domain).value else []
  {
    var q := QueryFor(e, domain);
    var hitRateData := src.retrieveHitRate(q);
    var flowHitRateSum, requestHitRateSum := SumHitRates(hitRateData);
    var flowHitRateAverage := Rounded(FloatDiv(flowHitRateSum, |hitRateData|), roundCents);
    var requestHitRateAverage := Rounded(FloatDiv(requestHitRateSum, |hitRateData|), roundCents);

    var bandWidthData := src.retrieveBandWidth(q);
    var bandWidthSum := SumBandWidth(bandWidthData);
    var bandWidthAverage := Rounded(FloatDiv(bandWidthSum, |bandWidthData|), roundCents);

    var httpData := src.retrieveOriginHttpCode4xx(q);
    var http1xxSum, http2xxSum, http3xxSum, http4xxSum, http5xxSum := SumHttpCodes(httpData);
    if |httpData| == 0 {
      // integer divide by zero: Go panics before this domain sends anything
      return [], false;
    }
    var http4xxAverage := TruncDiv(http4xxSum, |httpData|);
    var http5xxAverage := TruncDiv(http5xxSum, |httpData|);

    var resourceCdnRequestData := src.retrieveDomainOriginRequestNum(q);
    var resourceCdnRequestSum := SumResourceRequests(resourceCdnRequestData);
    var resourceCdnRequestAverage :=
      Rounded(FloatDiv(resourceCdnRequestSum, |resourceCdnRequestData|), roundCents);

    metrics := [];
    metrics := metrics + [Gauge(e.cdnRequestHitRate, requestHitRateAverage, domain)];
    metrics := metrics + [Gauge(e.cdnBandWidth, bandWidthAverage, domain)];
    metrics := metrics + [Gauge(e.cdnOriginHttpCode4xx, Finite(http4xxAverage as real), domain)];
    metrics := metrics + [Gauge(e.cdnOriginHttpCode5xx, Finite(http5xxAverage as real), domain)];
    metrics := metrics + [Gauge(e.cdn95bandwidth, Finite(src.retrieve95BandWidth(q)), domain)];
    metrics := metrics + [Gauge(e.cdnFlowHitRate, flowHitRateAverage, domain)];
    metrics := metrics + [Gauge(e.cdnResourceRequest, resourceCdnRequestAverage, domain)];
    ok := true;
  }

  /** Once a scrape of a prefix has panicked, the rest of the list is never
      visited. */
  lemma {:induction false} PanicStops(step: DomainStep, ds: seq<DomainBaseInfo>, k: nat)
    requires k <= |ds|
    requires Scrape(step, ds[..k]).panicked
    ensures Scrape(step, ds) == Scrape(step, ds[..k])
    decreases |ds|
  {
    if k < |ds| {
      var pre := ds[..|ds| - 1];
      assert pre[..k] == ds[..k];
      PanicStops(step, pre, k);
    } else {
      assert ds[..k] == ds;
    }
  }

  /** Collect: every domain of the list in order, until the first panic.
      `sent` is what went out on the channel. */
  method Collect(e: CdnExporter, src: DataSource, roundCents: real -> real)
    returns (sent: seq<ConstMetric>, panicked: bool)
    ensures ScrapeResult(sent, panicked) == Scrape(CollectStep(e, src, roundCents), e.domainList)
  {
    var ds := e.domainList;
    ghost var step := CollectStep(e, src, roundCents);
    sent, panicked := [], false;
    var i := 0;
    while i < |ds|
      invariant 0 <= i <= |ds|
      invariant Scrape(step, ds[..i]) == ScrapeResult(sent, false)
    {
      var metrics, ok := CollectDomain(e, src, roundCents, ds[i]);
      assert ds[..i + 1][..i] == ds[..i];
      if !ok {
        panicked := true;
        PanicStops(step, ds, i + 1);
        return;
      }
      sent := sent + metrics;
      i := i + 1;
    }
    assert ds[..i] == ds;
  }
}
