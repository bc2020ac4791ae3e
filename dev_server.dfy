/**
 * The local development server's API (server.js): an in-memory storage of leads,
 * events and per-variant counters, the mocked outbound call, and the routing of
 * `handleApiRequest`. Its rules differ from the deployed functions: a submission
 * counts the conversion, and a tracked conversion counts nothing.
 */
module DevServer {
  import opened Wrappers
  import opened JsObjects
  import opened Http
  import Ids
  import StatsReporter

  const MockMessage := "Lead captured (mock mode - no real call made)"
  const NotFoundError := "API endpoint not found"
  const RecentLimit := 10

  /** `mockRetellCall`: call id `mock_call_<ms>` and status `initiated`, whatever the phone. */
  function MockRetellCall(nowMs: nat): (r: (string, string))
    ensures r.1 == "initiated"
    ensures |r.0| > 10 && r.0[..10] == "mock_call_" && r.0[10..] == Ids.Decimal(nowMs)
  {
    ("mock_call_" + Ids.Decimal(nowMs), "initiated")
  }

  /** `{ id: `lead_${Date.now()}`, ...body, createdAt }`: a body `id` wins over the generated one. */
  function NewLead(body: Object, clock: Clock): (lead: Object)
    ensures lead.Keys == body.Keys + {"id", "createdAt"}
    ensures lead["id"] == if "id" in body then body["id"] else "lead_" + Ids.Decimal(clock.nowMs)
    ensures lead["createdAt"] == clock.iso
    ensures forall k :: k in body && k != "createdAt" ==> lead[k] == body[k]
  {
    map["id" := "lead_" + Ids.Decimal(clock.nowMs)] + body["createdAt" := clock.iso]
  }

  /** `{ ...body, timestamp }`: the server time replaces any client timestamp. */
  function NewEvent(body: Object, clock: Clock): (event: Object)
    ensures event.Keys == body.Keys + {"timestamp"}
    ensures event["timestamp"] == clock.iso
    ensures forall k :: k in body && k != "timestamp" ==> event[k] == body[k]
  {
    body["timestamp" := clock.iso]
  }

  /** A counted variant: only `a` and `b` have counters. */
  predicate IsCountedVariant(body: Object) {
    "variant" in body && (body["variant"] == "a" || body["variant"] == "b")
  }

  datatype Counts = Counts(impressions: nat, conversions: nat)

  /** `calcRate`: `'0.00'` when there are no impressions, else the rate to two places. */
  function DevRate(c: Counts): (r: StatsReporter.Rate)
    ensures r.Fixed2?
    ensures c.impressions == 0 ==> r == StatsReporter.Fixed2(0)
    ensures c.impressions > 0 ==> r == StatsReporter.ConversionRate(c.impressions, c.conversions)
  {
    if c.impressions > 0 then StatsReporter.Fixed2(StatsReporter.RoundHundredths(StatsReporter.ExactPercent(c.conversions, c.impressions)))
    else StatsReporter.Fixed2(0)
  }

  /** The development rate is the deployed one except with no impressions, where it is `'0.00'` and not the number 0. */
  lemma DevRateMatchesDeployed(c: Counts)
    ensures DevRate(c) == StatsReporter.ConversionRate(c.impressions, c.conversions) <==> c.impressions > 0
    ensures StatsReporter.RateHundredths(DevRate(c)) == StatsReporter.RateHundredths(StatsReporter.ConversionRate(c.impressions, c.conversions))
  {
  }

  /** `leads.slice(-10).reverse()` projected: the newest leads first, at most ten. */
  function RecentLeadsOf(leads: seq<Object>): (r: seq<Object>)
    ensures |r| == if |leads| < RecentLimit then |leads| else RecentLimit
    ensures forall i :: 0 <= i < |r| ==> r[i] == StatsReporter.Project(leads[|leads| - 1 - i])
  {
    var n := if |leads| < RecentLimit then |leads| else RecentLimit;
    seq(n, i requires 0 <= i < n => StatsReporter.Project(leads[|leads| - 1 - i]))
  }

  /** How many of `objs` name variant `v`. */
  function CountVariant(objs: seq<Object>, v: string): (n: nat)
    ensures n <= |objs|
  {
    if objs == [] then 0
    else CountVariant(objs[..|objs| - 1], v) + if HasVariant(objs[|objs| - 1], v) then 1 else 0
  }

  predicate HasVariant(o: Object, v: string) {
    "variant" in o && o["variant"] == v
  }

  predicate IsImpressionOf(o: Object, v: string) {
    "eventType" in o && o["eventType"] == "impression" && HasVariant(o, v)
  }

  /** How many of `events` are impressions of variant `v`. */
  function CountImpressions(events: seq<Object>, v: string): (n: nat)
    ensures n <= CountVariant(events, v)
  {
    if events == [] then 0
    else CountImpressions(events[..|events| - 1], v) + if IsImpressionOf(events[|events| - 1], v) then 1 else 0
  }

  lemma CountAppend(objs: seq<Object>, o: Object, v: string)
    ensures CountVariant(objs + [o], v) == CountVariant(objs, v) + if HasVariant(o, v) then 1 else 0
  {
    assert (objs + [o])[..|objs|] == objs;
  }

  lemma ImpressionAppend(events: seq<Object>, e: Object, v: string)
    ensures CountImpressions(events + [e], v) == CountImpressions(events, v) + if IsImpressionOf(e, v) then 1 else 0
  {
    assert (events + [e])[..|events|] == events;
  }

  /** No object names two variants, so the two counts together never exceed the objects. */
  lemma {:induction false} CountsDisjoint(objs: seq<Object>)
    ensures CountVariant(objs, "a") + CountVariant(objs, "b") <= |objs|
    decreases |objs|
  {
    if objs != [] {
      CountsDisjoint(objs[..|objs| - 1]);
    }
  }

  /** The counters of `a` and `b` are the counts of their leads and of their impression events. */
  predicate CountsMatch(metrics: map<string, Counts>, leads: seq<Object>, events: seq<Object>) {
    && metrics.Keys == {"a", "b"}
    && metrics["a"] == Counts(CountImpressions(events, "a"), CountVariant(leads, "a"))
    && metrics["b"] == Counts(CountImpressions(events, "b"), CountVariant(leads, "b"))
  }

  /** `storage.metrics[body.variant].conversions++` for variant `a` or `b`; nothing otherwise. */
  function CountConversion(metrics: map<string, Counts>, body: Object): (m: map<string, Counts>)
    requires metrics.Keys == {"a", "b"}
    ensures m.Keys == metrics.Keys
    ensures forall v :: v in m ==> m[v].impressions == metrics[v].impressions
    ensures forall v :: v in m ==> m[v].conversions == metrics[v].conversions + if HasVariant(body, v) then 1 else 0
  {
    if IsCountedVariant(body) then
      var v := body["variant"];
      metrics[v := metrics[v].(conversions := metrics[v].conversions + 1)]
    else metrics
  }

  /** A stored submission keeps the counters equal to the counts, whatever its variant. */
  lemma SubmitKeepsCounts(metrics: map<string, Counts>, leads: seq<Object>, events: seq<Object>, body: Object, lead: Object)
    requires CountsMatch(metrics, leads, events)
    requires HasVariant(lead, "a") == HasVariant(body, "a") && HasVariant(lead, "b") == HasVariant(body, "b")
    ensures CountsMatch(CountConversion(metrics, body), leads + [lead], events)
  {
    CountAppend(leads, lead, "a");
    CountAppend(leads, lead, "b");
    var m := CountConversion(metrics, body);
    assert m["a"].conversions == metrics["a"].conversions + if HasVariant(body, "a") then 1 else 0;
    assert m["b"].conversions == metrics["b"].conversions + if HasVariant(body, "b") then 1 else 0;
  }

  /** `storage.metrics[variant].impressions++` for an impression of `a` or `b`; nothing otherwise. */
  function CountImpression(metrics: map<string, Counts>, body: Object): (m: map<string, Counts>)
    requires metrics.Keys == {"a", "b"}
    ensures m.Keys == metrics.Keys
    ensures forall v :: v in m ==> m[v].conversions == metrics[v].conversions
    ensures forall v :: v in m ==> m[v].impressions == metrics[v].impressions + if IsImpressionOf(body, v) then 1 else 0
  {
    if "eventType" in body && body["eventType"] == "impression" && IsCountedVariant(body) then
      var v := body["variant"];
      metrics[v := metrics[v].(impressions := metrics[v].impressions + 1)]
    else metrics
  }

  /** A stored event keeps the counters equal to the counts, whatever its type and variant. */
  lemma TrackKeepsCounts(metrics: map<string, Counts>, leads: seq<Object>, events: seq<Object>, body: Object, event: Object)
    requires CountsMatch(metrics, leads, events)
    requires IsImpressionOf(event, "a") == IsImpressionOf(body, "a") && IsImpressionOf(event, "b") == IsImpressionOf(body, "b")
    ensures CountsMatch(CountImpression(metrics, body), leads, events + [event])
  {
    ImpressionAppend(events, event, "a");
    ImpressionAppend(events, event, "b");
    var m := CountImpression(metrics, body);
    assert m["a"].impressions == metrics["a"].impressions + if IsImpressionOf(body, "a") then 1 else 0;
    assert m["b"].impressions == metrics["b"].impressions + if IsImpressionOf(body, "b") then 1 else 0;
  }

  /** A stored lead: an object the server keeps a reference to and changes after storing it. */
  class Lead {
    var fields: Object

    constructor (fields: Object)
      ensures this.fields == fields
    {
      this.fields := fields;
    }
  }

  /** The server's `storage` object. */
  class MemoryStorage {
    var leads: seq<Lead>
    var events: seq<Object>
    var metrics: map<string, Counts>

    /**
     * Counters exist for `a` and `b` only, and each counts what is stored: the
     * conversions of a variant are its leads, its impressions its impression events.
     */
    ghost predicate Valid()
      reads this, leads
    {
      CountsMatch(metrics, LeadFields(), events)
    }

    constructor ()
      ensures Valid() && leads == [] && events == []
      ensures metrics == map["a" := Counts(0, 0), "b" := Counts(0, 0)]
    {
      leads := [];
      events := [];
      metrics := map["a" := Counts(0, 0), "b" := Counts(0, 0)];
    }

    /** The fields of every stored lead, oldest first. */
    function LeadFields(): (r: seq<Object>)
      reads this, leads
      ensures |r| == |leads|
      ensures forall i :: 0 <= i < |r| ==> r[i] == leads[i].fields
    {
      var stored := leads;
      seq(|stored|, i reads stored requires 0 <= i < |stored| => stored[i].fields)
    }

    /** Each lead adds at most one conversion and each event at most one impression. */
    lemma CountersBounded()
      requires Valid()
      ensures metrics["a"].conversions + metrics["b"].conversions <= |leads|
      ensures metrics["a"].impressions + metrics["b"].impressions <= |events|
    {
      CountsDisjoint(LeadFields());
      CountsDisjoint(events);
    }

    /** After pushing a new lead, the stored fields are the earlier ones followed by the new lead's. */
    lemma StoredLeadsGrow(before: seq<Object>, last: Object)
      requires |leads| == |before| + 1 && leads[|before|].fields == last
      requires forall i :: 0 <= i < |before| ==> leads[i].fields == before[i]
      ensures LeadFields() == before + [last]
    {
    }

    /**
     * The `/api/submit` route: push the lead, call the mock, then set `callId` and
     * `callStatus` on the stored lead, and count a conversion for `a` or `b`.
     */
    method Submit(body: Object, clock: Clock, callMs: nat) returns (leadId: string, callId: string)
      requires Valid()
      modifies this
      ensures Valid()
      ensures |leads| == |old(leads)| + 1 && leads[..|old(leads)|] == old(leads) && fresh(leads[|old(leads)|])
      ensures leads[|old(leads)|].fields == NewLead(body, clock)["callId" := callId]["callStatus" := "initiated"]
      ensures leadId == NewLead(body, clock)["id"] && callId == MockRetellCall(callMs).0
      ensures events == old(events)
      ensures metrics == CountConversion(old(metrics), body)
    {
      ghost var before := LeadFields();
      var (id, status) := MockRetellCall(callMs);
      var lead := new Lead(NewLead(body, clock));
      lead.fields := lead.fields["callId" := id]["callStatus" := status];
      SubmitKeepsCounts(metrics, before, events, body, lead.fields);
      metrics := CountConversion(metrics, body);
      leads := leads + [lead];
      StoredLeadsGrow(before, lead.fields);
      return lead.fields["id"], id;
    }

    /** The `/api/track` route: push the stamped event; count an impression of `a` or `b`. */
    method Track(body: Object, clock: Clock)
      requires Valid()
      modifies this
      ensures Valid()
      ensures events == old(events) + [NewEvent(body, clock)] && leads == old(leads)
      ensures metrics == CountImpression(old(metrics), body)
    {
      ghost var stored := LeadFields();
      var event := NewEvent(body, clock);
      TrackKeepsCounts(metrics, stored, events, body, event);
      metrics := CountImpression(metrics, body);
      events := events + [event];
      assert LeadFields() == stored;
    }
  }

  /** `req.method`, the path, and the POST body as parsed (`None` when it is not valid JSON). */
  datatype DevRequest = DevRequest(httpMethod: string, pathname: string, parsedBody: Option<Object>)

  /** The body the routes see: the parsed POST body, `{}` for malformed JSON and for other methods. */
  function Body(req: DevRequest): (body: Object)
    ensures req.httpMethod != "POST" || req.parsedBody.None? ==> body == map[]
    ensures req.httpMethod == "POST" && req.parsedBody.Some? ==> body == req.parsedBody.value
  {
    if req.httpMethod == "POST" && req.parsedBody.Some? then req.parsedBody.value else map[]
  }

  predicate StartsWith(s: string, prefix: string) {
    |prefix| <= |s| && s[..|prefix|] == prefix
  }

  datatype DevStats = DevStats(period: string, lastUpdated: string, a: Counts, rateA: StatsReporter.Rate,
                               b: Counts, rateB: StatsReporter.Rate, recentLeads: seq<Object>)

  /** `generateDashboard` can render every recent lead: each has a `variant` to upper-case. */
  predicate Renderable(recent: seq<Object>) {
    forall i :: 0 <= i < |recent| ==> "variant" in recent[i]
  }

  /**
   * The newest lead decides whether the page can be rendered at all: a submission whose
   * body has no `variant` makes every following stats request fail until ten newer
   * leads have pushed it out.
   */
  lemma NewestLeadWithoutVariant(before: seq<Object>, body: Object, clock: Clock, callId: string)
    requires "variant" !in body
    ensures !Renderable(RecentLeadsOf(before + [NewLead(body, clock)["callId" := callId]["callStatus" := "initiated"]]))
  {
    var leads := before + [NewLead(body, clock)["callId" := callId]["callStatus" := "initiated"]];
    assert "variant" !in leads[|leads| - 1];
    assert "variant" !in RecentLeadsOf(leads)[0];
  }

  datatype DevReply =
    | Preflight                                  // 200, empty
    | LeadCaptured(leadId: string, callId: string)  // 200 `{success, leadId, callId, message: MockMessage}`
    | EventTracked                               // 200 `{success: true}`
    | StatsPage(stats: DevStats)                 // 200 HTML page
    | DashboardFailed                            // no response: the page reads `variant.toUpperCase()` of a lead without one
    | NotFound                                   // 404 `{error: NotFoundError}`

  /**
   * `handleApiRequest`: `OPTIONS` first, then `/api/submit`, `/api/track`, any path
   * starting `/api/stats`, and 404 for the rest.
   */
  method HandleApiRequest(storage: MemoryStorage, req: DevRequest, clock: Clock, callMs: nat) returns (reply: DevReply)
    requires storage.Valid()
    modifies storage
    ensures storage.Valid()
    ensures req.httpMethod == "OPTIONS" ==>
              && reply == Preflight
              && storage.leads == old(storage.leads) && storage.events == old(storage.events)
              && storage.metrics == old(storage.metrics)
    ensures req.httpMethod != "OPTIONS" && req.pathname == "/api/submit" ==>
              && reply.LeadCaptured?
              && |storage.leads| == |old(storage.leads)| + 1
              && storage.leads[..|old(storage.leads)|] == old(storage.leads)
              && fresh(storage.leads[|old(storage.leads)|])
              && storage.leads[|old(storage.leads)|].fields
                 == NewLead(Body(req), clock)["callId" := reply.callId]["callStatus" := "initiated"]
              && reply.leadId == NewLead(Body(req), clock)["id"] && reply.callId == MockRetellCall(callMs).0
              && storage.events == old(storage.events)
              && storage.metrics == CountConversion(old(storage.metrics), Body(req))
    ensures req.httpMethod != "OPTIONS" && req.pathname == "/api/track" ==>
              && reply == EventTracked
              && storage.events == old(storage.events) + [NewEvent(Body(req), clock)]
              && storage.leads == old(storage.leads)
              && storage.metrics == CountImpression(old(storage.metrics), Body(req))
    ensures req.httpMethod != "OPTIONS" && req.pathname != "/api/submit" && req.pathname != "/api/track" ==>
              && storage.leads == old(storage.leads) && storage.events == old(storage.events)
              && storage.metrics == old(storage.metrics)
              && (StartsWith(req.pathname, "/api/stats") ==> reply.StatsPage? || reply.DashboardFailed?)
              && (StartsWith(req.pathname, "/api/stats") ==>
                    (reply.StatsPage? <==> Renderable(RecentLeadsOf(storage.LeadFields()))))
              && (!StartsWith(req.pathname, "/api/stats") ==> reply == NotFound)
    ensures reply.StatsPage? ==>
              && reply.stats.a == storage.metrics["a"] && reply.stats.b == storage.metrics["b"]
              && reply.stats.rateA == DevRate(storage.metrics["a"]) && reply.stats.rateB == DevRate(storage.metrics["b"])
              && reply.stats.recentLeads == RecentLeadsOf(storage.LeadFields())
  {
    if req.httpMethod == "OPTIONS" {
      return Preflight;
    }
    var body := Body(req);
    if req.pathname == "/api/submit" {
      var leadId, callId := storage.Submit(body, clock, callMs);
      reply := LeadCaptured(leadId, callId);
    } else if req.pathname == "/api/track" {
      storage.Track(body, clock);
      reply := EventTracked;
    } else if StartsWith(req.pathname, "/api/stats") {
      var a, b := storage.metrics["a"], storage.metrics["b"];
      var recent := RecentLeadsOf(storage.LeadFields());
      if Renderable(recent) {
        reply := StatsPage(DevStats("total", clock.iso, a, DevRate(a), b, DevRate(b), recent));
      } else {
        reply := DashboardFailed;
      }
    } else {
      reply := NotFound;
    }
  }
}
