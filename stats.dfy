/**
 * The statistics function api/stats.js: per-variant metrics read from the store,
 * the conversion rate, the decision structure of the significance test, the
 * winner, the recent leads and the handler around them. Square root and the
 * normal distribution function are parameters; only the guards and decisions
 * around them are modelled.
 */
module StatsReporter {
  import opened Wrappers
  import opened JsObjects
  import opened KeyValueStore
  import opened Http
  import EventTracker

  const InsufficientData := "Insufficient data"
  const NoVariance := "No variance"
  const Significant := "Statistically significant!"
  const NotYetSignificant := "Not yet significant"
  const LeadsAllKey := "leads:all"
  const RecentLimit := 10

  /**
   * `calculateConversionRate`'s result: the number 0, or a decimal string with two
   * places, held as its integer number of hundredths.
   */
  datatype Rate = NumberZero | Fixed2(hundredths: int)

  /** `(conversions / impressions) * 100` as an exact quantity. */
  function ExactPercent(conversions: nat, impressions: nat): real
    requires impressions > 0
  {
    (conversions as real / impressions as real) * 100.0
  }

  /** `toFixed(2)` of a non-negative quantity: the nearest hundredth, a tie going up. */
  function RoundHundredths(x: real): (h: int)
    ensures h as real - 0.5 <= x * 100.0 < h as real + 0.5
  {
    (x * 100.0 + 0.5).Floor
  }

  /** Rounding to hundredths never reverses an order. */
  lemma RoundMonotone(x: real, y: real)
    requires x <= y
    ensures RoundHundredths(x) <= RoundHundredths(y)
  {
  }

  /** `calculateConversionRate(impressions, conversions)`. */
  function ConversionRate(impressions: nat, conversions: nat): (r: Rate)
    ensures r == NumberZero <==> impressions == 0
    ensures impressions > 0 ==>
              r.hundredths as real - 0.5 <= ExactPercent(conversions, impressions) * 100.0 < r.hundredths as real + 0.5
  {
    if impressions == 0 then NumberZero else Fixed2(RoundHundredths(ExactPercent(conversions, impressions)))
  }

  /** `parseFloat` of a rate, in hundredths: the number 0 reads as 0. */
  function RateHundredths(r: Rate): int {
    match r
    case NumberZero => 0
    case Fixed2(h) => h
  }

  datatype VariantMetrics = VariantMetrics(
    impressions: nat, conversions: nat, uniqueVisitors: nat, uniqueConverters: nat, conversionRate: Rate)

  /** The fallback when no store is configured or a read throws: all zero, rate `'0.00'`. */
  const NoMetrics := VariantMetrics(0, 0, 0, 0, Fixed2(0))

  /**
   * `getVariantMetrics(variant, period)`: the two counters of `metrics:<period>:<variant>`
   * (missing reads as 0) and the sizes of the period's visitor and converter sets. Both
   * branches of the source's `period === 'total'` test name the same key, so there is one.
   * `store` is `None` when no store is configured; `readFails` when a read throws.
   */
  function GetVariantMetrics(store: Option<Store>, readFails: bool, variant: string, period: string): (m: VariantMetrics)
    requires store.Some? ==> HashField(store.value, EventTracker.MetricsKey(period, variant), "impressions") >= 0
    requires store.Some? ==> HashField(store.value, EventTracker.MetricsKey(period, variant), "conversions") >= 0
    ensures store.None? || readFails ==> m == NoMetrics
    ensures store.Some? && !readFails ==>
              var s := store.value;
              && m.impressions == HashField(s, EventTracker.MetricsKey(period, variant), "impressions")
              && m.conversions == HashField(s, EventTracker.MetricsKey(period, variant), "conversions")
              && m.uniqueVisitors == |Members(s, EventTracker.PeriodKey("visitors", period, variant))|
              && m.uniqueConverters == |Members(s, EventTracker.PeriodKey("converters", period, variant))|
    ensures m.conversionRate.NumberZero? <==> store.Some? && !readFails && m.impressions == 0
    ensures store.Some? && !readFails ==> m.conversionRate == ConversionRate(m.impressions, m.conversions)
  {
    if store.None? || readFails then NoMetrics
    else
      var s := store.value;
      var impressions := HashField(s, EventTracker.MetricsKey(period, variant), "impressions");
      var conversions := HashField(s, EventTracker.MetricsKey(period, variant), "conversions");
      VariantMetrics(impressions, conversions,
                     |Members(s, EventTracker.PeriodKey("visitors", period, variant))|,
                     |Members(s, EventTracker.PeriodKey("converters", period, variant))|,
                     ConversionRate(impressions, conversions))
  }

  /**
   * A tracked impression shows up in the statistics: the variant's all-time and
   * daily impression counts grow by one and its unique visitors by at most one.
   */
  lemma ImpressionCounted(s: Store, event: Object, eventId: string, iso: string, period: string)
    requires EventTracker.HasRequiredFields(event) && EventTracker.IsDateKey(EventTracker.DatePart(iso))
    requires event["eventType"] == "impression"
    requires period == EventTracker.Total || period == EventTracker.DatePart(iso)
    requires HashField(s, EventTracker.MetricsKey(period, event["variant"]), "impressions") >= 0
    requires HashField(s, EventTracker.MetricsKey(period, event["variant"]), "conversions") >= 0
    ensures var s' := Run(s, EventTracker.TrackCommands(event, eventId, iso));
            var v := event["variant"];
            && HashField(s', EventTracker.MetricsKey(period, v), "impressions") >= 0
            && HashField(s', EventTracker.MetricsKey(period, v), "conversions") >= 0
            && var before, after := GetVariantMetrics(Some(s), false, v, period), GetVariantMetrics(Some(s'), false, v, period);
            && after.impressions == before.impressions + 1
            && after.conversions == before.conversions
            && before.uniqueVisitors <= after.uniqueVisitors <= before.uniqueVisitors + 1
  {
    var v, day := event["variant"], EventTracker.DatePart(iso);
    var s' := Run(s, EventTracker.TrackCommands(event, eventId, iso));
    EventTracker.TrackEffect(s, event, eventId, iso);
    assert HashField(s', EventTracker.MetricsKey(period, v), "impressions")
        == HashField(s, EventTracker.MetricsKey(period, v), "impressions") + 1;
    assert HashField(s', EventTracker.MetricsKey(period, v), "conversions")
        == HashField(s, EventTracker.MetricsKey(period, v), "conversions");
    var m := Members(s, EventTracker.PeriodKey("visitors", period, v));
    assert Members(s', EventTracker.PeriodKey("visitors", period, v)) == m + {event["visitorId"]};
    if event["visitorId"] in m {
      assert m + {event["visitorId"]} == m;
    } else {
      assert |m + {event["visitorId"]}| == |m| + |{event["visitorId"]}|;
    }
  }

  /** `calculateSignificance`'s result; the p-value and z-score are `null` when not computed. */
  datatype Significance = Significance(significant: bool, pValue: Option<real>, zScore: Option<real>, message: string)

  /** `(c1 + c2) / (n1 + n2)`. */
  function Pooled(a: VariantMetrics, b: VariantMetrics): real
    requires a.impressions + b.impressions > 0
  {
    (a.conversions + b.conversions) as real / (a.impressions + b.impressions) as real
  }

  /** The argument of the square root in the standard error. */
  function VarianceTerm(a: VariantMetrics, b: VariantMetrics): real
    requires a.impressions > 0 && b.impressions > 0
  {
    var p := Pooled(a, b);
    p * (1.0 - p) * (1.0 / a.impressions as real + 1.0 / b.impressions as real)
  }

  function Abs(x: real): real {
    if x < 0.0 then -x else x
  }

  /**
   * `calculateSignificance(variantA, variantB)`; `sqrt` and `normalCdf` stand for
   * `Math.sqrt` and the normal distribution approximation.
   */
  function CalculateSignificance(a: VariantMetrics, b: VariantMetrics, sqrt: real -> real, normalCdf: real -> real): (r: Significance)
    ensures r.message == InsufficientData <==> a.impressions == 0 || b.impressions == 0
    ensures r.pValue.None? <==> r.message == InsufficientData || r.message == NoVariance
    ensures r.pValue.None? <==> r.zScore.None?
    ensures r.significant <==> r.pValue.Some? && r.pValue.value < 0.05
    ensures r.message == Significant <==> r.significant
    ensures r.pValue.Some? ==> r.message == Significant || r.message == NotYetSignificant
  {
    if a.impressions == 0 || b.impressions == 0 then Significance(false, None, None, InsufficientData)
    else
      var p1 := a.conversions as real / a.impressions as real;
      var p2 := b.conversions as real / b.impressions as real;
      var se := sqrt(VarianceTerm(a, b));
      if se == 0.0 then Significance(false, None, None, NoVariance)
      else
        var z := Abs(p1 - p2) / se;
        var pValue := 2.0 * (1.0 - normalCdf(Abs(z)));
        Significance(pValue < 0.05, Some(pValue), Some(z), if pValue < 0.05 then Significant else NotYetSignificant)
  }

  /** `Math.sqrt` is zero exactly at zero (a negative argument gives NaN, which is not zero). */
  ghost predicate SqrtZeroOnlyAtZero(sqrt: real -> real) {
    forall x :: sqrt(x) == 0.0 <==> x == 0.0
  }

  /** The pooled variance vanishes exactly when the pooled rate is 0 or 1. */
  lemma VarianceTermZero(a: VariantMetrics, b: VariantMetrics)
    requires a.impressions > 0 && b.impressions > 0
    ensures VarianceTerm(a, b) == 0.0 <==>
              a.conversions + b.conversions == 0 || a.conversions + b.conversions == a.impressions + b.impressions
  {
    var p := Pooled(a, b);
    var c, n := (a.conversions + b.conversions) as real, (a.impressions + b.impressions) as real;
    var k := 1.0 / a.impressions as real + 1.0 / b.impressions as real;
    assert k > 0.0;
    assert p * n == c;
    ZeroProduct(p, n);
    assert (p - 1.0) * n == c - n;
    ZeroProduct(p - 1.0, n);
    assert p * (1.0 - p) == 0.0 <==> p == 0.0 || p == 1.0;
    ZeroProduct(p * (1.0 - p), k);
  }

  lemma ZeroProduct(x: real, k: real)
    requires k > 0.0
    ensures x * k == 0.0 <==> x == 0.0
  {
    if x > 0.0 {
      assert x * k > 0.0;
    } else if x < 0.0 {
      assert (-x) * k > 0.0;
    }
  }

  /**
   * With impressions on both sides, the test answers 'No variance' exactly when no
   * visitor converted or every impression converted.
   */
  lemma NoVarianceExactly(a: VariantMetrics, b: VariantMetrics, sqrt: real -> real, normalCdf: real -> real)
    requires a.impressions > 0 && b.impressions > 0
    requires SqrtZeroOnlyAtZero(sqrt)
    ensures CalculateSignificance(a, b, sqrt, normalCdf).message == NoVariance <==>
              a.conversions + b.conversions == 0 || a.conversions + b.conversions == a.impressions + b.impressions
  {
    VarianceTermZero(a, b);
    assert sqrt(VarianceTerm(a, b)) == 0.0 <==> VarianceTerm(a, b) == 0.0;
  }

  /** Swapping the two variants leaves the significance result unchanged. */
  lemma SignificanceSymmetric(a: VariantMetrics, b: VariantMetrics, sqrt: real -> real, normalCdf: real -> real)
    ensures CalculateSignificance(a, b, sqrt, normalCdf) == CalculateSignificance(b, a, sqrt, normalCdf)
  {
    if a.impressions > 0 && b.impressions > 0 {
      assert Pooled(a, b) == Pooled(b, a);
      assert VarianceTerm(a, b) == VarianceTerm(b, a);
      var p1 := a.conversions as real / a.impressions as real;
      var p2 := b.conversions as real / b.impressions as real;
      assert Abs(p1 - p2) == Abs(p2 - p1);
    }
  }

  /** `winner`: none unless significant, then `'A'` when A's parsed rate is strictly greater, else `'B'`. */
  function Winner(sig: Significance, a: VariantMetrics, b: VariantMetrics): Option<string> {
    if !sig.significant then None
    else if RateHundredths(a.conversionRate) > RateHundredths(b.conversionRate) then Some("A")
    else Some("B")
  }

  /**
   * On metrics as read from the store, a significant result names A only when A's
   * exact conversion rate is higher, and two rates that round to the same hundredth
   * name B.
   */
  lemma WinnerRule(sig: Significance, a: VariantMetrics, b: VariantMetrics)
    requires a.impressions > 0 && b.impressions > 0
    requires a.conversionRate == ConversionRate(a.impressions, a.conversions)
    requires b.conversionRate == ConversionRate(b.impressions, b.conversions)
    ensures Winner(sig, a, b).None? <==> !sig.significant
    ensures Winner(sig, a, b) == Some("A") ==>
              ExactPercent(a.conversions, a.impressions) > ExactPercent(b.conversions, b.impressions)
    ensures sig.significant && ExactPercent(a.conversions, a.impressions) <= ExactPercent(b.conversions, b.impressions) ==>
              Winner(sig, a, b) == Some("B")
    ensures sig.significant && a.conversionRate == b.conversionRate ==> Winner(sig, a, b) == Some("B")
  {
    var ra, rb := ExactPercent(a.conversions, a.impressions), ExactPercent(b.conversions, b.impressions);
    if ra <= rb {
      RoundMonotone(ra, rb);
    }
  }

  /** `{ id, ...lead }` for a stored record (whose own `id` wins), or `{ id }` for a missing one. */
  function LeadWithId(s: Store, id: string): (lead: Object)
    ensures "id" in lead
    ensures GetRecord(s, id).None? ==> lead == map["id" := id]
    ensures GetRecord(s, id).Some? ==> lead.Keys == GetRecord(s, id).value.Keys + {"id"}
    ensures GetRecord(s, id).Some? ==> forall k :: k in GetRecord(s, id).value ==> lead[k] == GetRecord(s, id).value[k]
    ensures GetRecord(s, id).Some? && "id" !in GetRecord(s, id).value ==> lead["id"] == id
  {
    map["id" := id] + match GetRecord(s, id) { case None => map[] case Some(r) => r }
  }

  /**
   * `getRecentLeads(10)`: the first ids of `leads:all`, newest first, each with its
   * record; empty when no store is configured or a read throws.
   */
  function GetRecentLeads(store: Option<Store>, readFails: bool): (leads: seq<Object>)
    ensures store.None? || readFails ==> leads == []
    ensures store.Some? && !readFails ==>
              var ids := List(store.value, LeadsAllKey);
              && |leads| == (if |ids| < RecentLimit then |ids| else RecentLimit)
              && forall i :: 0 <= i < |leads| ==> leads[i] == LeadWithId(store.value, ids[i])
  {
    if store.None? || readFails then []
    else
      var ids := List(store.value, LeadsAllKey);
      var n := if |ids| < RecentLimit then |ids| else RecentLimit;
      seq(n, i requires 0 <= i < n => LeadWithId(store.value, ids[i]))
  }

  const ProjectedFields := {"id", "phone", "variant", "timestamp", "callStatus"}

  /** `{ id, phone, variant, timestamp, callStatus }`; an undefined field is left out of the JSON. */
  function Project(lead: Object): (p: Object)
    ensures p.Keys == lead.Keys * ProjectedFields
    ensures forall k :: k in p ==> p[k] == lead[k]
  {
    map k | k in lead.Keys * ProjectedFields :: lead[k]
  }

  /** `req.headers['x-auth-token'] || req.query.token`; `None` stands for `undefined`. */
  function AuthToken(req: Request): Option<string> {
    if Truthy(req.headers, "x-auth-token") then Some(req.headers["x-auth-token"]) else Field(req.query, "token")
  }

  /** The request may see the statistics: no `STATS_TOKEN` is set, or the supplied token equals it. */
  predicate Authorized(req: Request, expectedToken: Option<string>) {
    !(expectedToken.Some? && expectedToken.value != "") || AuthToken(req) == expectedToken
  }

  /** `s.includes(sub)`. */
  predicate Includes(s: string, sub: string)
    decreases |s|
  {
    (|sub| <= |s| && s[..|sub|] == sub) || (s != [] && Includes(s[1..], sub))
  }

  /** Which reads throw: the metrics of A, the metrics of B, the recent leads. */
  datatype ReadFailures = ReadFailures(metricsA: bool, metricsB: bool, leads: bool)

  datatype Stats = Stats(
    period: string, lastUpdated: string, variantA: VariantMetrics, variantB: VariantMetrics,
    significance: Significance, winner: Option<string>, recentLeads: seq<Object>)

  datatype StatsReply =
    | Unauthorized            // 401 `{error: 'Unauthorized'}`
    | Dashboard(stats: Stats)  // 200 HTML page
    | Json(stats: Stats)       // 200 JSON
    | RenderFailed             // 500: the page reads `variant.toUpperCase()` of a lead without one

  /** Every counter the statistics read is non-negative, as counters only ever incremented are. */
  ghost predicate CountersNonNegative(s: Store) {
    forall k, f :: HashField(s, k, f) >= 0
  }

  /**
   * The handler: the token check first; then the period (`total` by default), the
   * metrics of both variants, the test, the winner and the projected recent leads,
   * served as a page when the `accept` header includes `text/html`.
   */
  function HandleStats(req: Request, expectedToken: Option<string>, store: Option<Store>, failures: ReadFailures,
                       clock: Clock, sqrt: real -> real, normalCdf: real -> real): (reply: StatsReply)
    requires store.Some? ==> CountersNonNegative(store.value)
    ensures reply.Unauthorized? <==> !Authorized(req, expectedToken)
    ensures (reply.Dashboard? || reply.RenderFailed?) <==>
              Authorized(req, expectedToken) && "accept" in req.headers && Includes(req.headers["accept"], "text/html")
    ensures reply.Dashboard? || reply.Json? ==>
              && reply.stats.period == OrElse(req.query, "period", "total")
              && |reply.stats.recentLeads| <= RecentLimit
              && (reply.stats.winner.Some? ==> reply.stats.significance.significant)
              && forall i :: 0 <= i < |reply.stats.recentLeads| ==> "id" in reply.stats.recentLeads[i]
    ensures reply.Dashboard? ==> forall i :: 0 <= i < |reply.stats.recentLeads| ==> "variant" in reply.stats.recentLeads[i]
    ensures (reply.Dashboard? || reply.Json?) && store.Some? ==>
              && (!failures.metricsA ==> reply.stats.variantA.conversionRate
                                         == ConversionRate(reply.stats.variantA.impressions, reply.stats.variantA.conversions))
              && (!failures.metricsB ==> reply.stats.variantB.conversionRate
                                         == ConversionRate(reply.stats.variantB.impressions, reply.stats.variantB.conversions))
  {
    if !Authorized(req, expectedToken) then Unauthorized
    else
      var period := OrElse(req.query, "period", "total");
      var a := GetVariantMetrics(store, failures.metricsA, "a", period);
      var b := GetVariantMetrics(store, failures.metricsB, "b", period);
      var significance := CalculateSignificance(a, b, sqrt, normalCdf);
      var leads := GetRecentLeads(store, failures.leads);
      var projected := seq(|leads|, i requires 0 <= i < |leads| => Project(leads[i]));
      var stats := Stats(period, clock.iso, a, b, significance, Winner(significance, a, b), projected);
      if "accept" in req.headers && Includes(req.headers["accept"], "text/html") then
        if forall i :: 0 <= i < |projected| ==> "variant" in projected[i] then Dashboard(stats) else RenderFailed
      else Json(stats)
  }
}
