/**
 * The older A/B script public/old-backup/ab-test.js: `getVisitorId`,
 * `getVariant`, `loadVariant` without its DOM work, the payload of `trackEvent`,
 * `trackConversion` and `getABTestInfo`, each reading and writing `localStorage`.
 */
module LegacyABTest {
  import opened Wrappers
  import opened JsObjects
  import opened VariantAssignment
  import opened Browser
  import ABTestHook

  /** `getVisitorId()`: the stored id when truthy, else a fresh one, persisted. */
  method GetVisitorId(storage: LocalStorage, nowMs: nat, suffix: string) returns (visitorId: string)
    modifies storage
    ensures visitorId == VisitorIdOf(old(storage.items), FreshVisitorId(nowMs, suffix))
    ensures storage.items == AfterVisitorId(old(storage.items), FreshVisitorId(nowMs, suffix))
    ensures visitorId != "" && storage.items[VisitorIdKey] == visitorId
  {
    var stored := storage.GetItem(VisitorIdKey);
    if stored.None? || stored.value == "" {
      visitorId := FreshVisitorId(nowMs, suffix);
      storage.SetItem(VisitorIdKey, visitorId);
    } else {
      visitorId := stored.value;
    }
  }

  /** `getVariant()`: the stored variant when it is a label, else a random label, persisted. */
  method GetVariant(storage: LocalStorage, random: real) returns (variant: string)
    requires 0.0 <= random < 1.0
    modifies storage
    ensures variant == VariantOf(old(storage.items), random)
    ensures storage.items == AfterVariant(old(storage.items), random)
    ensures IsVariant(variant) && storage.items[VariantKey] == variant
  {
    var stored := storage.GetItem(VariantKey);
    if stored.None? || stored.value == "" || !IsVariant(stored.value) {
      variant := RandomVariant(random);
      storage.SetItem(VariantKey, variant);
    } else {
      variant := stored.value;
    }
  }

  /**
   * The payload object literal of `trackEvent`: six computed defaults followed by
   * `...data`, so every field present in `data` wins. `variant` and `visitorId` are
   * what `getVariant()` and `getVisitorId()` returned, or anything when not called.
   */
  function Payload(eventType: string, data: Object, variant: string, visitorId: string, env: Env): Object {
    map["eventType" := eventType,
        "variant" := OrElse(data, "variant", variant),
        "visitorId" := OrElse(data, "visitorId", visitorId),
        "timestamp" := OrElse(data, "timestamp", env.nowIso),
        "userAgent" := OrElse(data, "userAgent", env.userAgent),
        "referrer" := OrElse(data, "referrer", if env.referrer != "" then env.referrer else "direct")]
    + data
  }

  /**
   * The payload holds every field of `data` with its value, and otherwise the six
   * defaults, where a falsy field of `data` falls back to the computed value.
   */
  lemma PayloadFields(eventType: string, data: Object, variant: string, visitorId: string, env: Env)
    ensures var p := Payload(eventType, data, variant, visitorId, env);
            && p.Keys == data.Keys + {"eventType", "variant", "visitorId", "timestamp", "userAgent", "referrer"}
            && (forall k :: k in data ==> p[k] == data[k])
            && p["eventType"] == (if "eventType" in data then data["eventType"] else eventType)
            && ("variant" !in data ==> p["variant"] == variant)
            && ("visitorId" !in data ==> p["visitorId"] == visitorId)
            && ("referrer" !in data ==> p["referrer"] == (if env.referrer != "" then env.referrer else "direct"))
  {
  }

  /**
   * `trackEvent(eventType, data)`: `getVariant()` runs only when `data.variant` is
   * falsy and `getVisitorId()` only when `data.visitorId` is, in that order (the `||`
   * short-circuits). The returned payload is what is posted, not awaited.
   */
  method TrackEvent(storage: LocalStorage, eventType: string, data: Object, env: Env, suffix: string, random: real)
    returns (payload: Object)
    requires 0.0 <= random < 1.0
    modifies storage
    ensures var afterVariant := if Truthy(data, "variant") then old(storage.items) else AfterVariant(old(storage.items), random);
            storage.items == (if Truthy(data, "visitorId") then afterVariant
                              else AfterVisitorId(afterVariant, FreshVisitorId(env.nowMs, suffix)))
    ensures payload == Payload(eventType, data, VariantOf(old(storage.items), random),
                               VisitorIdOf(old(storage.items), FreshVisitorId(env.nowMs, suffix)), env)
  {
    var variant := "";
    if !Truthy(data, "variant") {
      variant := GetVariant(storage, random);
    }
    var visitorId := "";
    if !Truthy(data, "visitorId") {
      ghost var before := storage.items;
      visitorId := GetVisitorId(storage, env.nowMs, suffix);
      StepsCommute(before, FreshVisitorId(env.nowMs, suffix), random);
    }
    payload := Payload(eventType, data, variant, visitorId, env);
  }

  /** `window.trackConversion(data)`. */
  method TrackConversion(storage: LocalStorage, data: Object, env: Env, suffix: string, random: real)
    returns (payload: Object)
    requires 0.0 <= random < 1.0
    modifies storage
    ensures var afterVariant := if Truthy(data, "variant") then old(storage.items) else AfterVariant(old(storage.items), random);
            storage.items == (if Truthy(data, "visitorId") then afterVariant
                              else AfterVisitorId(afterVariant, FreshVisitorId(env.nowMs, suffix)))
    ensures payload == Payload("conversion", data, VariantOf(old(storage.items), random),
                               VisitorIdOf(old(storage.items), FreshVisitorId(env.nowMs, suffix)), env)
    ensures "eventType" !in data ==> payload["eventType"] == "conversion"
  {
    payload := TrackEvent(storage, "conversion", data, env, suffix, random);
    PayloadFields("conversion", data, VariantOf(old(storage.items), random),
                  VisitorIdOf(old(storage.items), FreshVisitorId(env.nowMs, suffix)), env);
  }

  /** `window.getABTestInfo()`: `getVariant()` then `getVisitorId()`. */
  method GetABTestInfo(storage: LocalStorage, nowMs: nat, suffix: string, random: real)
    returns (variant: string, visitorId: string)
    requires 0.0 <= random < 1.0
    modifies storage
    ensures variant == VariantOf(old(storage.items), random)
    ensures visitorId == VisitorIdOf(old(storage.items), FreshVisitorId(nowMs, suffix))
    ensures storage.items == Assigned(old(storage.items), FreshVisitorId(nowMs, suffix), random)
  {
    ghost var before := storage.items;
    variant := GetVariant(storage, random);
    visitorId := GetVisitorId(storage, nowMs, suffix);
    StepsCommute(before, FreshVisitorId(nowMs, suffix), random);
  }

  /** Once storage is populated, a second `getABTestInfo()` returns the same pair and writes nothing. */
  method GetABTestInfoTwice(storage: LocalStorage, nowMs: nat, suffix: string, random: real,
                            nowMs': nat, suffix': string, random': real)
    returns (first: (string, string), second: (string, string))
    requires 0.0 <= random < 1.0 && 0.0 <= random' < 1.0
    modifies storage
    ensures first == second
    ensures storage.items == Assigned(old(storage.items), FreshVisitorId(nowMs, suffix), random)
  {
    var v, id := GetABTestInfo(storage, nowMs, suffix, random);
    first := (v, id);
    v, id := GetABTestInfo(storage, nowMs', suffix', random');
    second := (v, id);
    AssignmentIdempotent(old(storage.items), FreshVisitorId(nowMs, suffix), random, FreshVisitorId(nowMs', suffix'), random');
  }

  /** The `data` that `loadVariant()` hands to `trackEvent('impression', data)`. */
  function ImpressionData(variant: string, visitorId: string, env: Env): Object {
    map["variant" := variant, "visitorId" := visitorId, "timestamp" := env.nowIso,
        "userAgent" := env.userAgent, "referrer" := if env.referrer != "" then env.referrer else "direct"]
  }

  /** The impression the older script tracks is the body the React hook posts. */
  lemma ImpressionAgrees(variant: string, visitorId: string, env: Env, v: string, id: string)
    ensures Payload("impression", ImpressionData(variant, visitorId, env), v, id, env)
            == ABTestHook.ImpressionPayload(variant, visitorId, env)
  {
    var p := Payload("impression", ImpressionData(variant, visitorId, env), v, id, env);
    var q := ABTestHook.ImpressionPayload(variant, visitorId, env);
    assert p.Keys == q.Keys;
    assert forall k :: k in p ==> p[k] == q[k];
  }

  /**
   * `loadVariant()`: variant first, then visitor id; when the page has the variant's
   * template (`templateFound`), one impression is tracked, and its payload is the one
   * the React hook sends. A missing template ends the function before tracking.
   */
  method LoadVariant(storage: LocalStorage, env: Env, suffix: string, random: real, templateFound: bool)
    returns (impression: Option<Object>)
    requires 0.0 <= random < 1.0
    modifies storage
    ensures storage.items == Assigned(old(storage.items), FreshVisitorId(env.nowMs, suffix), random)
    ensures impression.Some? <==> templateFound
    ensures templateFound ==>
              impression.value == ABTestHook.ImpressionPayload(VariantOf(old(storage.items), random),
                                                               VisitorIdOf(old(storage.items), FreshVisitorId(env.nowMs, suffix)), env)
  {
    ghost var before := storage.items;
    var variant := GetVariant(storage, random);
    var visitorId := GetVisitorId(storage, env.nowMs, suffix);
    StepsCommute(before, FreshVisitorId(env.nowMs, suffix), random);
    if !templateFound {
      return None;
    }
    var data := ImpressionData(variant, visitorId, env);
    assert Truthy(data, "variant") && Truthy(data, "visitorId");
    var payload := TrackEvent(storage, "impression", data, env, suffix, random);
    ImpressionAgrees(variant, visitorId, env, VariantOf(storage.items, random),
                     VisitorIdOf(storage.items, FreshVisitorId(env.nowMs, suffix)));
    return Some(payload);
  }
}
