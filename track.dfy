/**
 * The tracking function api/track.js: request validation, server metadata, and
 * the fixed sequence of single-key store commands an event issues.
 */
module EventTracker {
  import opened Wrappers
  import opened JsObjects
  import opened Digits
  import opened KeyValueStore
  import opened Http
  import Ids

  const EventsListKey := "events:all"
  const Total := "total"
  const MissingFieldsError := "Missing required fields: eventType, variant, visitorId"

  /** `<family>:<period>:<variant>`, the layout of every aggregate key. */
  function PeriodKey(family: string, period: string, variant: string): string {
    family + ":" + period + ":" + variant
  }

  /** `metrics:<period>:<variant>`, a hash with fields `impressions` and `conversions`. */
  function MetricsKey(period: string, variant: string): string {
    PeriodKey("metrics", period, variant)
  }

  /** The hash field and the set family an event type counts into, if any. */
  function Counted(eventType: string): Option<(string, string)> {
    if eventType == "impression" then Some(("impressions", "visitors"))
    else if eventType == "conversion" then Some(("conversions", "converters"))
    else None
  }

  /** `iso.split('T')[0]`: everything before the first `T`. */
  function DatePart(iso: string): (d: string)
    ensures |d| <= |iso| && d == iso[..|d|]
    ensures forall i :: 0 <= i < |d| ==> d[i] != 'T'
    ensures |d| < |iso| ==> iso[|d|] == 'T'
  {
    if iso == [] || iso[0] == 'T' then [] else [iso[0]] + DatePart(iso[1..])
  }

  /** A `YYYY-MM-DD` day, as `toISOString` produces for years 0000 to 9999. */
  predicate IsDateKey(d: string) {
    && |d| == 10 && d[4] == '-' && d[7] == '-'
    && forall i :: 0 <= i < 10 && i != 4 && i != 7 ==> IsDigit(d[i])
  }

  /** `!eventData.eventType || !eventData.variant || !eventData.visitorId` is false. */
  predicate HasRequiredFields(event: Object) {
    Truthy(event, "eventType") && Truthy(event, "variant") && Truthy(event, "visitorId")
  }

  /** `event_${Date.now()}_${suffix}`. */
  function EventId(clock: Clock, suffix: string): string {
    Ids.GeneratedId("event", clock.nowMs, suffix)
  }

  /**
   * The counting commands of one event: the field is incremented in the day's and the
   * all-time hash, and the visitor is added to the day's and the all-time set of the
   * family (`visitors` for an impression, `converters` for a conversion).
   */
  function CountingCommands(eventType: string, variant: string, visitorId: string, day: string): seq<Command> {
    match Counted(eventType)
    case None => []
    case Some((field, family)) =>
      [HIncrBy(MetricsKey(day, variant), field, 1), HIncrBy(MetricsKey(Total, variant), field, 1),
       SAdd(PeriodKey(family, day, variant), visitorId), SAdd(PeriodKey(family, Total, variant), visitorId)]
  }

  /** Every command `trackEvent` issues, in order: store the raw event, list its id, then count it. */
  function TrackCommands(event: Object, eventId: string, iso: string): seq<Command>
    requires HasRequiredFields(event)
  {
    [SetRecord(eventId, event["storedAt" := iso]), LPush(EventsListKey, eventId)]
    + CountingCommands(event["eventType"], event["variant"], event["visitorId"], DatePart(iso))
  }

  datatype TrackResult = TrackResult(success: bool, eventId: string)

  /**
   * `trackEvent(eventData)`. `client` is `null` when no store is configured; the
   * store throws from command `failFrom` on. Every path answers success.
   */
  method TrackEvent(client: Client?, event: Object, clock: Clock, suffix: string, failFrom: nat) returns (r: TrackResult)
    requires HasRequiredFields(event)
    modifies client
    ensures r == TrackResult(true, EventId(clock, suffix))
    ensures client != null ==> client.state == RunUntil(old(client.state), TrackCommands(event, r.eventId, clock.iso), failFrom)
  {
    var eventId := EventId(clock, suffix);
    r := TrackResult(true, eventId);
    if client == null {
      return;
    }
    ghost var cmds := TrackCommands(event, eventId, clock.iso);
    ghost var s0 := client.state;
    var eventType, variant, visitorId := event["eventType"], event["variant"], event["visitorId"];
    var day := DatePart(clock.iso);

    assert cmds[0] == SetRecord(eventId, event["storedAt" := clock.iso]);
    assert cmds[1] == LPush(EventsListKey, eventId);
    var ok := client.Issue(s0, cmds, SetRecord(eventId, event["storedAt" := clock.iso]), 0, failFrom);
    if !ok { return; }
    ok := client.Issue(s0, cmds, LPush(EventsListKey, eventId), 1, failFrom);
    if !ok { return; }

    match Counted(eventType)
    case None =>
      assert cmds[..2] == cmds;
    case Some((field, family)) =>
      IssueCounting(client, s0, cmds, field, family, variant, visitorId, day, failFrom);
  }

  /** The counting part of `trackEvent`: commands 2 to 5 of `cmds`, for a counted event type. */
  method IssueCounting(client: Client, ghost s0: Store, ghost cmds: seq<Command>,
                       field: string, family: string, variant: string, visitorId: string, day: string, failFrom: nat)
    requires |cmds| == 6
    requires cmds[2] == HIncrBy(MetricsKey(day, variant), field, 1)
    requires cmds[3] == HIncrBy(MetricsKey(Total, variant), field, 1)
    requires cmds[4] == SAdd(PeriodKey(family, day, variant), visitorId)
    requires cmds[5] == SAdd(PeriodKey(family, Total, variant), visitorId)
    requires 2 <= failFrom && client.state == Run(s0, cmds[..2])
    modifies client
    ensures client.state == RunUntil(s0, cmds, failFrom)
  {
    var ok := client.Issue(s0, cmds, HIncrBy(MetricsKey(day, variant), field, 1), 2, failFrom);
    if !ok { return; }
    ok := client.Issue(s0, cmds, HIncrBy(MetricsKey(Total, variant), field, 1), 3, failFrom);
    if !ok { return; }
    ok := client.Issue(s0, cmds, SAdd(PeriodKey(family, day, variant), visitorId), 4, failFrom);
    if !ok { return; }
    ok := client.Issue(s0, cmds, SAdd(PeriodKey(family, Total, variant), visitorId), 5, failFrom);
    if !ok { return; }
    assert cmds[..6] == cmds;
  }

  /** Keys of equal-length periods are equal only for equal period and variant. */
  lemma PeriodKeyInjective(family: string, p: string, v: string, p': string, v': string)
    requires |p| == |p'|
    ensures PeriodKey(family, p, v) == PeriodKey(family, p', v') <==> p == p' && v == v'
  {
    var k, k' := PeriodKey(family, p, v), PeriodKey(family, p', v');
    if k == k' {
      var n := |family| + 1;
      assert k == (family + ":") + p + (":" + v);
      assert k' == (family + ":") + p' + (":" + v');
      assert p == k[n..n + |p|] == k'[n..n + |p'|] == p';
      assert v == k[n + |p| + 1..] == k'[n + |p'| + 1..] == v';
    }
  }

  /** An all-time key never names a day. */
  lemma TotalIsNotADay(family: string, d: string, v: string, v': string)
    requires IsDateKey(d)
    ensures PeriodKey(family, Total, v) != PeriodKey(family, d, v')
  {
    var n := |family| + 1;
    assert PeriodKey(family, Total, v)[n] == 't';
    assert PeriodKey(family, d, v')[n] == d[0];
  }

  /** How much one event raises field `f` of hash `k`. */
  function Bump(event: Object, iso: string, k: string, f: string): int
    requires HasRequiredFields(event)
  {
    match Counted(event["eventType"])
    case None => 0
    case Some((field, _)) =>
      if f == field && (k == MetricsKey(DatePart(iso), event["variant"]) || k == MetricsKey(Total, event["variant"]))
      then 1 else 0
  }

  lemma RunTrackCommands(s: Store, event: Object, eventId: string, iso: string)
    requires HasRequiredFields(event)
    ensures var cmds := TrackCommands(event, eventId, iso);
            |cmds| >= 2 &&
            Run(s, cmds) == Run(Apply(Apply(s, cmds[0]), cmds[1]), cmds[2..])
  {
    var cmds := TrackCommands(event, eventId, iso);
    assert cmds == [cmds[0]] + ([cmds[1]] + cmds[2..]);
    RunCons(s, cmds[0], [cmds[1]] + cmds[2..]);
    RunCons(Apply(s, cmds[0]), cmds[1], cmds[2..]);
  }

  lemma RunFour(s: Store, cmds: seq<Command>)
    requires |cmds| == 4
    ensures Run(s, cmds) == Apply(Apply(Apply(Apply(s, cmds[0]), cmds[1]), cmds[2]), cmds[3])
  {
    var s1 := Apply(s, cmds[0]);
    var s2 := Apply(s1, cmds[1]);
    var s3 := Apply(s2, cmds[2]);
    assert cmds == [cmds[0]] + cmds[1..];
    RunCons(s, cmds[0], cmds[1..]);
    assert cmds[1..] == [cmds[1]] + cmds[2..];
    RunCons(s1, cmds[1], cmds[2..]);
    assert cmds[2..] == [cmds[2]] + cmds[3..];
    RunCons(s2, cmds[2], cmds[3..]);
    assert cmds[3..] == [cmds[3]] + [];
    RunCons(s3, cmds[3], []);
  }

  /** The counting commands raise the field in exactly the two hashes and add the visitor to exactly the two sets. */
  lemma CountingEffect(s: Store, field: string, family: string, v: string, vid: string, day: string)
    requires IsDateKey(day)
    ensures var s' := Run(s, [HIncrBy(MetricsKey(day, v), field, 1), HIncrBy(MetricsKey(Total, v), field, 1),
                              SAdd(PeriodKey(family, day, v), vid), SAdd(PeriodKey(family, Total, v), vid)]);
            && s'.records == s.records && s'.lists == s.lists
            && (forall k, f :: HashField(s', k, f) == HashField(s, k, f)
                                 + (if f == field && (k == MetricsKey(day, v) || k == MetricsKey(Total, v)) then 1 else 0))
            && (forall k :: Members(s', k) == if k == PeriodKey(family, day, v) || k == PeriodKey(family, Total, v)
                                             then Members(s, k) + {vid} else Members(s, k))
  {
    var c0, c1 := HIncrBy(MetricsKey(day, v), field, 1), HIncrBy(MetricsKey(Total, v), field, 1);
    var c2, c3 := SAdd(PeriodKey(family, day, v), vid), SAdd(PeriodKey(family, Total, v), vid);
    var s1 := Apply(s, c0);
    var s2 := Apply(s1, c1);
    var s3 := Apply(s2, c2);
    RunFour(s, [c0, c1, c2, c3]);
    ApplyViews(s, c0);
    ApplyViews(s1, c1);
    ApplyViews(s2, c2);
    ApplyViews(s3, c3);
    TotalIsNotADay("metrics", day, v, v);
    TotalIsNotADay(family, day, v, v);
  }

  /**
   * What one fully stored event does: the raw event is stored under its id, the id is
   * pushed on `events:all`, an impression or conversion adds one to its field in the
   * day's and the all-time hash of its variant and adds the visitor to the two sets
   * of its family, and no other hash field, set, list or record changes.
   */
  lemma TrackEffect(s: Store, event: Object, eventId: string, iso: string)
    requires HasRequiredFields(event) && IsDateKey(DatePart(iso))
    ensures var s' := Run(s, TrackCommands(event, eventId, iso));
            && s'.records == s.records[eventId := event["storedAt" := iso]]
            && s'.lists == s.lists[EventsListKey := [eventId] + List(s, EventsListKey)]
            && (forall k, f :: HashField(s', k, f) == HashField(s, k, f) + Bump(event, iso, k, f))
            && (Counted(event["eventType"]).None? ==> s'.hashes == s.hashes && s'.sets == s.sets)
            && (Counted(event["eventType"]).Some? ==>
                  var family, v, day := Counted(event["eventType"]).value.1, event["variant"], DatePart(iso);
                  && Members(s', PeriodKey(family, day, v)) == Members(s, PeriodKey(family, day, v)) + {event["visitorId"]}
                  && Members(s', PeriodKey(family, Total, v)) == Members(s, PeriodKey(family, Total, v)) + {event["visitorId"]}
                  && forall k :: k != PeriodKey(family, day, v) && k != PeriodKey(family, Total, v) ==> Members(s', k) == Members(s, k))
  {
    var cmds := TrackCommands(event, eventId, iso);
    var v, vid, day := event["variant"], event["visitorId"], DatePart(iso);
    RunTrackCommands(s, event, eventId, iso);
    var s1 := Apply(s, cmds[0]);
    var s2 := Apply(s1, cmds[1]);
    ApplyViews(s, cmds[0]);
    ApplyViews(s1, cmds[1]);
    assert s2.hashes == s.hashes && s2.sets == s.sets;
    match Counted(event["eventType"])
    case None =>
      assert cmds[2..] == [];
    case Some((field, family)) =>
      CountingEffect(s2, field, family, v, vid, day);
  }

  /** A visitor already in a set leaves its size as it was; a new one grows it by one. */
  lemma RepeatVisitor(s: Store, event: Object, eventId: string, iso: string)
    requires HasRequiredFields(event) && IsDateKey(DatePart(iso)) && Counted(event["eventType"]).Some?
    ensures var s' := Run(s, TrackCommands(event, eventId, iso));
            var key := PeriodKey(Counted(event["eventType"]).value.1, DatePart(iso), event["variant"]);
            |Members(s', key)| == |Members(s, key)| + (if event["visitorId"] in Members(s, key) then 0 else 1)
  {
    TrackEffect(s, event, eventId, iso);
    var key := PeriodKey(Counted(event["eventType"]).value.1, DatePart(iso), event["variant"]);
    var m, x := Members(s, key), event["visitorId"];
    if x in m {
      assert m + {x} == m;
    } else {
      assert |m + {x}| == |m| + |{x}|;
    }
  }

  lemma TrackBumps(s: Store, event: Object, eventId: string, iso: string)
    requires HasRequiredFields(event) && IsDateKey(DatePart(iso))
    ensures forall k, f :: HashField(Run(s, TrackCommands(event, eventId, iso)), k, f) == HashField(s, k, f) + Bump(event, iso, k, f)
  {
    TrackEffect(s, event, eventId, iso);
  }

  /** The sum of field `f` of variant `v` over the daily hashes of `days`. */
  function DailySum(s: Store, days: seq<string>, v: string, f: string): int {
    if days == [] then 0 else DailySum(s, days[..|days| - 1], v, f) + HashField(s, MetricsKey(days[|days| - 1], v), f)
  }

  /**
   * The aggregate invariant: `days` lists without repetition every day that has a
   * daily hash, and each all-time field is the sum of that field over those days.
   */
  ghost predicate TotalsAreDailySums(s: Store, days: seq<string>) {
    && (forall i, j :: 0 <= i < j < |days| ==> days[i] != days[j])
    && (forall i :: 0 <= i < |days| ==> IsDateKey(days[i]))
    && (forall d, v, f :: IsDateKey(d) && d !in days ==> HashField(s, MetricsKey(d, v), f) == 0)
    && (forall v, f :: HashField(s, MetricsKey(Total, v), f) == DailySum(s, days, v, f))
  }

  /** The empty store satisfies the invariant with no days. */
  lemma EmptyTotals()
    ensures TotalsAreDailySums(Empty, [])
  {
  }

  /** When the hashes move by one event's bump, a sum over days that are all date keys moves by the bump of each day. */
  lemma {:induction false} DailySumBump(s: Store, s': Store, days: seq<string>, event: Object, iso: string, v: string, f: string)
    requires HasRequiredFields(event) && IsDateKey(DatePart(iso))
    requires forall i, j :: 0 <= i < j < |days| ==> days[i] != days[j]
    requires forall i :: 0 <= i < |days| ==> IsDateKey(days[i])
    requires forall k, f :: HashField(s', k, f) == HashField(s, k, f) + Bump(event, iso, k, f)
    ensures DailySum(s', days, v, f) == DailySum(s, days, v, f)
              + (if DatePart(iso) in days then Bump(event, iso, MetricsKey(DatePart(iso), v), f) else 0)
    decreases |days|
  {
    if days != [] {
      var init, last := days[..|days| - 1], days[|days| - 1];
      DailySumBump(s, s', init, event, iso, v, f);
      var day, ev := DatePart(iso), event["variant"];
      PeriodKeyInjective("metrics", last, v, day, ev);
      TotalIsNotADay("metrics", last, ev, v);
      assert MetricsKey(last, v) != MetricsKey(Total, ev);
      assert Bump(event, iso, MetricsKey(last, v), f) == (if last == day then Bump(event, iso, MetricsKey(day, v), f) else 0);
      assert day in days <==> day in init || day == last;
      if day == last {
        assert day !in init;
      }
    }
  }

  /**
   * Every fully stored event keeps the invariant: the all-time hash and the day's hash
   * move together, and a new day joins the list with its hash starting from zero.
   */
  lemma TrackKeepsTotals(s: Store, days: seq<string>, event: Object, eventId: string, iso: string)
    requires TotalsAreDailySums(s, days)
    requires HasRequiredFields(event) && IsDateKey(DatePart(iso))
    ensures TotalsAreDailySums(Run(s, TrackCommands(event, eventId, iso)),
                               if DatePart(iso) in days then days else days + [DatePart(iso)])
  {
    var s' := Run(s, TrackCommands(event, eventId, iso));
    var day := DatePart(iso);
    var days' := if day in days then days else days + [day];
    TrackBumps(s, event, eventId, iso);
    forall v, f
      ensures HashField(s', MetricsKey(Total, v), f) == DailySum(s', days', v, f)
    {
      TotalMovesWithDay(s, s', days, event, iso, v, f);
    }
    forall d, v, f | IsDateKey(d) && d !in days'
      ensures HashField(s', MetricsKey(d, v), f) == 0
    {
      PeriodKeyInjective("metrics", d, v, day, event["variant"]);
      TotalIsNotADay("metrics", d, event["variant"], v);
    }
  }

  lemma TotalMovesWithDay(s: Store, s': Store, days: seq<string>, event: Object, iso: string, v: string, f: string)
    requires HasRequiredFields(event) && IsDateKey(DatePart(iso))
    requires forall i, j :: 0 <= i < j < |days| ==> days[i] != days[j]
    requires forall i :: 0 <= i < |days| ==> IsDateKey(days[i])
    requires HashField(s, MetricsKey(Total, v), f) == DailySum(s, days, v, f)
    requires DatePart(iso) !in days ==> HashField(s, MetricsKey(DatePart(iso), v), f) == 0
    requires forall k, f :: HashField(s', k, f) == HashField(s, k, f) + Bump(event, iso, k, f)
    ensures var day := DatePart(iso);
            HashField(s', MetricsKey(Total, v), f) == DailySum(s', if day in days then days else days + [day], v, f)
  {
    var day, ev := DatePart(iso), event["variant"];
    DailySumBump(s, s', days, event, iso, v, f);
    TotalIsNotADay("metrics", day, v, ev);
    TotalIsNotADay("metrics", day, ev, v);
    PeriodKeyInjective("metrics", day, v, day, ev);
    PeriodKeyInjective("metrics", Total, v, Total, ev);
    assert Bump(event, iso, MetricsKey(Total, v), f) == Bump(event, iso, MetricsKey(day, v), f);
    if day !in days {
      var days' := days + [day];
      assert days'[..|days'| - 1] == days;
      assert DailySum(s', days', v, f) == DailySum(s', days, v, f) + HashField(s', MetricsKey(day, v), f);
    }
  }

  /**
   * The totals are kept only when every command succeeds: a store that throws at the
   * all-time `hIncrBy` (command 3) has already raised the day's field, so the all-time
   * field now lags the sum of the days by one.
   */
  lemma TotalLagsOnPartialFailure(s: Store, event: Object, eventId: string, iso: string)
    requires HasRequiredFields(event) && IsDateKey(DatePart(iso)) && Counted(event["eventType"]).Some?
    ensures var s' := RunUntil(s, TrackCommands(event, eventId, iso), 3);
            var field, v, day := Counted(event["eventType"]).value.0, event["variant"], DatePart(iso);
            && HashField(s', MetricsKey(day, v), field) == HashField(s, MetricsKey(day, v), field) + 1
            && HashField(s', MetricsKey(Total, v), field) == HashField(s, MetricsKey(Total, v), field)
  {
    var cmds := TrackCommands(event, eventId, iso);
    var field, v, day := Counted(event["eventType"]).value.0, event["variant"], DatePart(iso);
    assert |cmds| == 6;
    var s1 := Apply(s, cmds[0]);
    var s2 := Apply(s1, cmds[1]);
    assert Run(s, cmds[..1]) == s1 by { assert cmds[..1][..0] == []; }
    assert Run(s, cmds[..2]) == s2 by { assert cmds[..2][..1] == cmds[..1]; }
    assert Run(s, cmds[..3]) == Apply(s2, cmds[2]) by { assert cmds[..3][..2] == cmds[..2]; }
    assert cmds[2] == HIncrBy(MetricsKey(day, v), field, 1);
    TotalIsNotADay("metrics", day, v, v);
    ApplyViews(s, cmds[0]);
    ApplyViews(s1, cmds[1]);
    ApplyViews(s2, cmds[2]);
  }

  /** The answers of the tracking handler. */
  datatype TrackReply =
    | Preflight                    // 200, empty body
    | MethodNotAllowed             // 405 `{error: 'Method not allowed'}`
    | MissingFields                // 400 `{error: MissingFieldsError}`
    | Tracked(eventId: string)     // 200 `{success: true, eventId}`

  function TrackStatus(r: TrackReply): (code: int)
    ensures code == 200 <==> r.Preflight? || r.Tracked?
  {
    match r
    case Preflight => 200
    case MethodNotAllowed => 405
    case MissingFields => 400
    case Tracked(_) => 200
  }

  /** The body with the server-side data set: `ip` from the client address and `serverTimestamp`. */
  function Stamped(req: Request, clock: Clock): (e: Object)
    ensures e.Keys == req.body.Keys + {"ip", "serverTimestamp"}
    ensures e["ip"] == ClientIp(req) && e["serverTimestamp"] == clock.iso
    ensures forall k :: k in req.body && k != "ip" && k != "serverTimestamp" ==> e[k] == req.body[k]
    ensures HasRequiredFields(req.body) ==> HasRequiredFields(e)
  {
    req.body["ip" := ClientIp(req)]["serverTimestamp" := clock.iso]
  }

  /**
   * The handler of `api/track`: preflight, then the method check, then the required
   * fields; a valid event is stamped and tracked and always answered with its id.
   * Nothing is written on the three early paths.
   */
  method HandleTrack(client: Client?, req: Request, clock: Clock, suffix: string, failFrom: nat) returns (reply: TrackReply)
    modifies client
    ensures req.httpMethod == "OPTIONS" ==> reply == Preflight
    ensures req.httpMethod != "OPTIONS" && req.httpMethod != "POST" ==> reply == MethodNotAllowed
    ensures req.httpMethod == "POST" && !HasRequiredFields(req.body) ==> reply == MissingFields
    ensures req.httpMethod == "POST" && HasRequiredFields(req.body) ==> reply == Tracked(EventId(clock, suffix))
    ensures client != null && !reply.Tracked? ==> client.state == old(client.state)
    ensures client != null && reply.Tracked? ==>
              client.state == RunUntil(old(client.state), TrackCommands(Stamped(req, clock), reply.eventId, clock.iso), failFrom)
  {
    if req.httpMethod == "OPTIONS" {
      return Preflight;
    }
    if req.httpMethod != "POST" {
      return MethodNotAllowed;
    }
    if !HasRequiredFields(req.body) {
      return MissingFields;
    }
    var eventData := Stamped(req, clock);
    var result := TrackEvent(client, eventData, clock, suffix, failFrom);
    return Tracked(result.eventId);
  }

  /**
   * A request answered `Tracked` whose commands all succeed leaves the stamped event,
   * with `storedAt`, under the answered id, at the head of `events:all`.
   */
  lemma TrackedEventStored(s: Store, req: Request, clock: Clock, suffix: string)
    requires HasRequiredFields(req.body) && IsDateKey(DatePart(clock.iso))
    ensures var s' := Run(s, TrackCommands(Stamped(req, clock), EventId(clock, suffix), clock.iso));
            && GetRecord(s', EventId(clock, suffix)) == Some(Stamped(req, clock)["storedAt" := clock.iso])
            && List(s', EventsListKey) == [EventId(clock, suffix)] + List(s, EventsListKey)
            && GetRecord(s', EventId(clock, suffix)).value["visitorId"] == req.body["visitorId"]
  {
    TrackEffect(s, Stamped(req, clock), EventId(clock, suffix), clock.iso);
  }
}
