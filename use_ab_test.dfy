/**
 * The `useABTest` hook (hooks/useABTest.ts): React state initialised to
 * `('a', '', false)`, and the mount effect that assigns the visitor id and
 * variant, publishes them and fires one impression event.
 */
module ABTestHook {
  import opened JsObjects
  import opened VariantAssignment
  import opened Browser

  /** The body the effect posts to `/api/track`, `document.referrer || 'direct'` included. */
  function ImpressionPayload(variant: string, visitorId: string, env: Env): (p: Object)
    ensures p.Keys == {"eventType", "variant", "visitorId", "timestamp", "userAgent", "referrer"}
    ensures p["eventType"] == "impression" && p["variant"] == variant && p["visitorId"] == visitorId
    ensures p["referrer"] == (if env.referrer == "" then "direct" else env.referrer)
  {
    map["eventType" := "impression", "variant" := variant, "visitorId" := visitorId,
        "timestamp" := env.nowIso, "userAgent" := env.userAgent,
        "referrer" := if env.referrer != "" then env.referrer else "direct"]
  }

  /** The hook's three state cells. */
  class ABTestState {
    var variant: string
    var visitorId: string
    var isLoaded: bool

    constructor ()
      ensures variant == "a" && visitorId == "" && !isLoaded
    {
      variant, visitorId, isLoaded := "a", "", false;
    }

    /**
     * The effect body. `suffix` is the random base-36 suffix of a new visitor id and
     * `random` the draw of `Math.random()`. The impression request is returned; it is
     * sent without being awaited and its failure is only logged, so no outcome of it
     * can reach the state.
     */
    method RunEffect(storage: LocalStorage, env: Env, suffix: string, random: real) returns (impression: Object)
      requires 0.0 <= random < 1.0
      modifies this, storage
      ensures storage.items == Assigned(old(storage.items), FreshVisitorId(env.nowMs, suffix), random)
      ensures visitorId == VisitorIdOf(old(storage.items), FreshVisitorId(env.nowMs, suffix))
      ensures variant == VariantOf(old(storage.items), random)
      ensures isLoaded && IsVariant(variant) && visitorId != ""
      ensures impression == ImpressionPayload(variant, visitorId, env)
    {
      var vid := storage.GetItem(VisitorIdKey);
      var id: string;
      if vid.None? || vid.value == "" {
        id := FreshVisitorId(env.nowMs, suffix);
        storage.SetItem(VisitorIdKey, id);
      } else {
        id := vid.value;
      }

      var stored := storage.GetItem(VariantKey);
      var v: string;
      if stored.None? || stored.value == "" || !IsVariant(stored.value) {
        v := RandomVariant(random);
        storage.SetItem(VariantKey, v);
      } else {
        v := stored.value;
      }

      variant := v;
      visitorId := id;
      isLoaded := true;

      impression := ImpressionPayload(v, id, env);
    }
  }
}
