# CDN exporter of ucloud-exporter, modelled in Dafny

The exporter publishes CDN statistics of UCloud domains as Prometheus gauges.
`CdnCloudExporter` builds a `CdnExporter`. It holds a domain list, a project,
a report window and delay, and a fixed catalog of seven descriptors (request
hit rate, flow hit rate, bandwidth, 4xx and 5xx origin status codes,
95th-percentile bandwidth, origin requests). All seven are in namespace
`uCloud` and subsystem `cdn`, and each has the one variable label
`instanceId`. `Describe` sends the seven descriptors. `Collect` walks the
domain list in order. For each domain it makes five fetches: four time
series, reduced to six values (two from the hit-rate series, two from the
status-code series), and one single number that is passed through:

- The hit rates, bandwidth and origin requests are float means,
  formatted with `%.2f` and parsed back.
- The 4xx and 5xx totals are summed in Go `int`s and divided with
  truncation.
- The 95th-percentile bandwidth comes back as one number and is passed
  through unchanged.

It then sends seven gauges, labelled with the domain's name.

The project has three modules:

- `GoNumerics` (go_numerics.dfy) covers the parts of Go's numbers the exporter
  depends on:
  - a 64-bit `int` that wraps on overflow (`Wrap64`);
  - integer division that truncates toward zero (`TruncDiv`);
  - the `float64` results of dividing by a zero length (`FloatDiv`), which
    are NaN or an infinity, not a panic. This is what the gc compiler does;
    the Go specification leaves it to the implementation.
- `Exporter` (exporter.dfy) holds the model itself:
  - the exporter record, the catalog and `Describe`;
  - the data source, as five functions of a query;
  - the specification functions. `DomainMetrics` gives one domain's seven
    gauges, or the integer divide-by-zero panic. `Scrape` is a generic
    per-domain loop that stops at the first panic. `Completed` counts the
    domains before the first panic.
  - the imperative scrape: one method per accumulation loop, `CollectDomain`
    for one loop iteration, and `Collect`. Each method is proved equal to the
    matching specification function.
- `ExporterFacts` (exporter_facts.dfy) holds the properties of that model:
  - the catalog is fixed and well formed;
  - the bounds and the truncation of each reduction;
  - the 1xx–3xx sums never matter;
  - what a whole scrape sends: how many gauges, in which order, with which
    labels and which values.

Empty series behave as the code does, not as a designed policy would:

- An empty hit-rate, bandwidth or request series gives `0.0 / 0.0`, which
  is NaN. Formatting and parsing keep it NaN, so the gauge reports NaN.
- An empty status-code series makes `http4xxSum / len(httpData)` divide an
  integer by zero. Go panics there. Nothing more is sent for that domain
  or for any later domain. The model records the gauges the earlier domains
  had already put on the channel, but the panic ends the exporter process
  (see "Left out"), so no scraper receives them.

A designed policy would be a no-data sentinel, or leaving the observation
out and carrying on. The model follows the code and proves what the code
does (`EmptySeriesIsNaN`, `IntMeanOfEmptyPanics`, `ScrapeSpec`,
`ScrapeCardinality`).

## Model

| member | source | states |
|---|---|---|
| GoNumerics.Wrap64 | exporter/ucloudexporter.go:158-162 | The value of a Go `int` after an exact result wraps: congruent to it modulo 2^64, and equal to it when it fits. |
| GoNumerics.WrapAccumulate | exporter/ucloudexporter.go:156-163 | Wrapping after every `+=` gives the same value as wrapping the exact total once. |
| GoNumerics.TruncDiv | exporter/ucloudexporter.go:165-166 | Go's `/` on `int` for a positive length. For a non-negative dividend q*n <= a < q*n + n. For a negative one q*n - n < a <= q*n <= 0, i.e. the quotient is truncated toward zero. |
| GoNumerics.FloatDiv | exporter/ucloudexporter.go:138-150 | `sum / float64(len)`: finite with r*n == x for n > 0. With n == 0 it is NaN iff x == 0, +Inf iff x > 0 and -Inf iff x < 0. |
| Exporter.CdnCloudExporter | exporter/ucloudexporter.go:30-101 | Builds the exporter around the domain list, project and window, with the seven descriptors. Its properties are stated by `CatalogWellFormed`, `DescribeIsFixed` and `SentMatchesDescribed`. |
| Exporter.SumOf | exporter/ucloudexporter.go:134-171 | The exact sum of a real field over a series, the meaning of the float `+=` loops. The loops are proved equal to it (`SumHitRates`, `SumBandWidth`, `SumResourceRequests`), and `SumOfBounds` bounds it. |
| Exporter.TotalOf | exporter/ucloudexporter.go:156-163 | The exact total of an integer field over a series. `SumHttpCodes` is proved to hold it wrapped to 64 bits; `TotalOfBounds` bounds it. |
| Exporter.FloatMean | exporter/ucloudexporter.go:138-173 | `sum / float64(len)` before rounding. `FloatMeanIsAverage`, `FloatMeanBounded` and `EmptySeriesIsNaN` state its properties. |
| Exporter.Rounded | exporter/ucloudexporter.go:138-176 | `%.2f` followed by `ParseFloat`: the result is finite iff the value is, and NaN and ±Inf come back unchanged. |
| Exporter.IntMean | exporter/ucloudexporter.go:165-166 | `sum / len` on `int`: fails (integer divide by zero) iff the series is empty. `IntMeanTruncates`, `IntMeanBounded`, `IntMeanAtMostMax` and `IntMeanOfEmptyPanics` state its properties. |
| Exporter.DomainMetrics | exporter/ucloudexporter.go:118-225 | One iteration of the domain loop: fails iff the status-code series is empty, and otherwise gives seven gauges. `DomainMetricsShape`, `DomainMetricsValues`, the five `…OwnFetch` lemmas and `LowClassTotalsIgnored` state its properties. |
| Exporter.Scrape | exporter/ucloudexporter.go:116-226 | The domain loop over any per-domain step, stopping at the first panic. `ScrapeSpec` ties it to `Completed` and to the concatenation of the completed domains' blocks; `PanicStops`, `ScrapeCardinality`, `ScrapeLayout` and `ScrapeValues` state the rest. |
| Exporter.Describe | exporter/ucloudexporter.go:103-112 | Sends exactly seven descriptors, including the descriptor of every metric of the catalog. |
| Exporter.Completed | exporter/ucloudexporter.go:116-166 | The number of leading domains that do not panic: every domain before it succeeds, and the domain at it (if any) panics. |
| Exporter.SumHitRates | exporter/ucloudexporter.go:133-137 | The loop's two accumulators end equal to the exact sums of the flow and request hit rates. |
| Exporter.SumBandWidth | exporter/ucloudexporter.go:146-149 | The accumulator ends equal to the exact sum of the bandwidth series. |
| Exporter.SumHttpCodes | exporter/ucloudexporter.go:155-163 | Each of the five `int` accumulators ends equal to its class's exact total wrapped to 64 bits. |
| Exporter.AddWrapped | exporter/ucloudexporter.go:158-162 | One wrapping `+=` extends the wrapped total of the points seen so far by one point. |
| Exporter.SumResourceRequests | exporter/ucloudexporter.go:168-171 | The accumulator ends equal to the exact sum of the origin-request series. |
| Exporter.CollectDomain | exporter/ucloudexporter.go:118-225 | One iteration of the domain loop. It succeeds iff the specification gives gauges (fails iff the status-code series is empty), and it then sends exactly those seven gauges; on failure it sends nothing. |
| Exporter.PanicStops | exporter/ucloudexporter.go:116-165 | Once a prefix of the list has panicked, the rest of the list changes nothing. |
| Exporter.Collect | exporter/ucloudexporter.go:114-228 | What goes out on the channel, and whether the scrape panicked, are exactly the scrape specification over the exporter's domain list. |
| ExporterFacts.DescribeIsFixed | exporter/ucloudexporter.go:30-112 | Describe sends the same descriptors for every domain list, project and window. |
| ExporterFacts.CatalogWellFormed | exporter/ucloudexporter.go:37-98 | The seven names are pairwise distinct. Each descriptor is in `uCloud`/`cdn` and declares only the label `instanceId`. |
| ExporterFacts.CatalogNamesValid | exporter/ucloudexporter.go:37-98 | Every descriptor's fully-qualified name `uCloud_cdn_<name>` matches Prometheus' metric-name syntax, its label names match the label-name syntax, and its help text is non-empty. |
| ExporterFacts.FQNameValid | exporter/ucloudexporter.go:38-92 | A name in `uCloud`/`cdn` built from name characters gives a valid fully-qualified metric name. |
| ExporterFacts.DescribeInOrder | exporter/ucloudexporter.go:103-112 | Position k of Describe holds the descriptor of metric k of the describe order. |
| ExporterFacts.CollectOrderPermutesDescribe | exporter/ucloudexporter.go:178-225 | Collect's per-domain order is a permutation of Describe's order, covers every metric, and differs from it. |
| ExporterFacts.SumOfBounds | exporter/ucloudexporter.go:134-137 | A float sum of points that all lie in [lo, hi] lies in [n*lo, n*hi]. |
| ExporterFacts.FloatMeanBounded | exporter/ucloudexporter.go:138-150 | The mean of a non-empty series is finite and lies within any bounds of its points (e.g. a hit rate stays in [0, 100]). |
| ExporterFacts.FloatMeanIsAverage | exporter/ucloudexporter.go:150 | The mean of a non-empty series times its length is its sum. |
| ExporterFacts.EmptySeriesIsNaN | exporter/ucloudexporter.go:138-141 | An empty float series gives NaN after rounding, not a panic. |
| ExporterFacts.IntMeanTruncates | exporter/ucloudexporter.go:165-166 | Without overflow, the 4xx/5xx mean is the exact total divided by the length and truncated toward zero. |
| ExporterFacts.IntMeanOfEmptyPanics | exporter/ucloudexporter.go:165 | An empty status-code series is an integer divide by zero. |
| ExporterFacts.TotalOfBounds | exporter/ucloudexporter.go:156-163 | A total of values in [0, hi] lies in [0, n*hi]. |
| ExporterFacts.IntMeanBounded | exporter/ucloudexporter.go:165-166 | Without overflow, a mean of non-negative totals lies between 0 and any upper bound of the per-point totals. |
| ExporterFacts.IntMeanAtMostMax | exporter/ucloudexporter.go:165-166 | Without overflow, the mean never exceeds the largest per-point total. |
| ExporterFacts.IntMeanTruncatesExample | exporter/ucloudexporter.go:165 | Totals 3, 4, 4 give mean 3. |
| ExporterFacts.IntMeanNegativeExample | exporter/ucloudexporter.go:165 | Totals -3, -4, -4 give mean -3: truncated, not floored. |
| ExporterFacts.IntMeanOverflowExample | exporter/ucloudexporter.go:161-165 | Two points of the largest `int` wrap to a total of -2, so the mean is -1. |
| ExporterFacts.DomainMetricsShape | exporter/ucloudexporter.go:155-225 | A domain fails iff its status-code series is empty. Otherwise it sends seven gauges; gauge k has the descriptor of metric k of Collect's order, and each is a gauge labelled with the domain's name alone. |
| ExporterFacts.DomainMetricsValues | exporter/ucloudexporter.go:133-225 | Each of the seven values comes from its own fetch only: the rounded float means, the truncated 4xx/5xx means, and the 95th-percentile bandwidth exactly as fetched. |
| ExporterFacts.HitRateGaugesOwnFetch | exporter/ucloudexporter.go:133-145 | Two sources that agree on the hit-rate fetch give equal request and flow hit-rate gauges. |
| ExporterFacts.BandWidthGaugeOwnFetch | exporter/ucloudexporter.go:146-153 | Two sources that agree on the bandwidth fetch give equal bandwidth gauges. |
| ExporterFacts.HttpGaugesOwnFetch | exporter/ucloudexporter.go:155-166 | Two sources whose status-code series agree in length and in 4xx and 5xx totals agree on whether the domain panics, and give equal 4xx and 5xx gauges. |
| ExporterFacts.Percentile95GaugeOwnFetch | exporter/ucloudexporter.go:206-211 | Two sources that agree on the 95th-percentile fetch give equal 95th-percentile gauges. |
| ExporterFacts.RequestGaugeOwnFetch | exporter/ucloudexporter.go:168-176 | Two sources that agree on the origin-request fetch give equal origin-request gauges. |
| ExporterFacts.LowClassTotalsIgnored | exporter/ucloudexporter.go:158-160 | Two sources that differ only in the 1xx, 2xx and 3xx totals give identical gauges. |
| ExporterFacts.ScrapeSpec | exporter/ucloudexporter.go:114-228 | A scrape panics iff some domain panics. What it has sent is the gauges of the domains before the first panic, concatenated in list order. |
| ExporterFacts.SentAt | exporter/ucloudexporter.go:116-226 | With seven gauges per domain, 7 × (completed domains) gauges are sent, and gauge i is gauge i mod 7 of domain i div 7. |
| ExporterFacts.ScrapeBlock | exporter/ucloudexporter.go:178-225 | The gauges of a completed domain j are sent whole, at positions 7j to 7j+6. |
| ExporterFacts.CollectStepSendsSeven | exporter/ucloudexporter.go:178-225 | Every domain that does not panic sends exactly seven gauges. |
| ExporterFacts.ScrapeCardinality | exporter/ucloudexporter.go:116-226 | A scrape completes iff no domain's status-code series is empty, and it then sends exactly 7 × (number of domains) gauges. |
| ExporterFacts.ScrapeLayout | exporter/ucloudexporter.go:178-225 | Gauge i of a scrape has the descriptor of metric i mod 7 of Collect's order and is a gauge. Its only label value is the name of domain i div 7 of the list. |
| ExporterFacts.ScrapeValues | exporter/ucloudexporter.go:133-225 | The seven gauges sent for a completed domain carry the reductions of that domain's own fetches. |
| ExporterFacts.SentMatchesDescribed | exporter/ucloudexporter.go:178-225 | Every gauge a constructed exporter sends has a descriptor that Describe announces, and one label value per declared label. |
| ExporterFacts.HitRateScenario | exporter/ucloudexporter.go:133-218 | One domain with request hit rates 90, 92 and flow hit rates 95, 97 sends a request hit rate of 91.0 first and a flow hit rate of 96.0 sixth, both labelled with its name. |

## Left out

- The UCloud client and the `collector.Retrieve*` calls are I/O, and the
  collector package is not part of this model. The fetches are the fields
  of `DataSource`: total functions of the query arguments alone. Any
  dependence of a fetch on the current clock or the time of the call is
  not modelled. So two list entries with the same `domainId` get identical
  series in the model. No lemma relies on this.
  `Retrieve95BandWidth` returns one number and is passed through.
- The exporter is a value (it does not change), so `Collect` cannot modify
  the configuration. No field of `CdnExporter` is ever assigned. The client
  pointer and the domain-list pointer are not modelled.
- The Prometheus library is not modelled:
  - `prometheus.NewDesc` and `BuildFQName` are not part of this model. A
    descriptor keeps its namespace, subsystem and name as separate parts,
    and the constant labels (`nil`) are dropped.
  - The channel is the sequence `Collect` returns.
  - `MustNewConstMetric` cannot fail here, for three reasons:
    - One label value is always given for the one declared label, as
      `SentMatchesDescribed` states.
    - No descriptor carries a construction error. The seven
      fully-qualified names and `instanceId` are valid Prometheus names,
      and every help text is non-empty, as `CatalogNamesValid` states.
    - A label value (a domain name) is a Dafny string, which is always
      valid Unicode. Invalid UTF-8 from the data source is not modelled.
- The `%.2f` formatting followed by `ParseFloat` is the parameter
  `roundCents`, applied to finite values. `HitRateScenario` assumes only
  that `roundCents` keeps values with two decimals. NaN and ±Inf parse back
  unchanged, so the `log.Fatal` branches cannot be taken and are not
  modelled.
- `float64` is an exact real. Binary rounding, overflow to an infinity,
  and the rounding of `float64(n)` for integers above 2^53 are not
  modelled. Only the non-finite results of dividing by a zero length are.
- Go `int` is 64 bits wide, as on the platforms the exporter is built for.
- A panic ends the scrape in the model, and `ScrapeSpec` describes what
  had been put on the channel by then. In client_golang, `Registry.Gather`
  runs `Collect` in a goroutine it starts itself. An unrecovered integer
  divide by zero there ends the whole exporter process. So the gauges put
  on the channel before the panic never reach a scraper. The model does
  not treat them as delivered output. Process termination and the HTTP
  handler are not modelled.
- The order of the fetch calls within one domain is not observable in the
  model, because the data source has no state.

