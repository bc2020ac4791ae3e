/**
 * The sticky visitor and variant assignment shared by hooks/useABTest.ts and
 * public/old-backup/ab-test.js, as functions of the stored items. The fresh
 * visitor id and `Math.random()` are parameters.
 */
module VariantAssignment {
  import Ids

  const VariantKey := "ab_variant"
  const VisitorIdKey := "visitor_id"
  const Variants: seq<string> := ["a", "b"]

  /** `VARIANTS.includes(v)`. */
  predicate IsVariant(v: string) {
    v in Variants
  }

  /** `visitor_${Date.now()}_${suffix}`. */
  function FreshVisitorId(nowMs: nat, suffix: string): (id: string)
    ensures id != ""
  {
    Ids.GeneratedIdShape("visitor", nowMs, suffix);
    Ids.GeneratedId("visitor", nowMs, suffix)
  }

  /** `VARIANTS[Math.floor(random * VARIANTS.length)]` for `random` in [0, 1). */
  function RandomVariant(random: real): (v: string)
    requires 0.0 <= random < 1.0
    ensures IsVariant(v)
    ensures v == "a" <==> random < 0.5
  {
    Variants[(random * |Variants| as real).Floor]
  }

  /** The stored visitor id is reused when it is truthy. */
  predicate HasVisitorId(items: map<string, string>) {
    VisitorIdKey in items && items[VisitorIdKey] != ""
  }

  /** The stored variant is reused when it is one of the two labels. */
  predicate HasVariant(items: map<string, string>) {
    VariantKey in items && IsVariant(items[VariantKey])
  }

  /** The visitor id the assignment yields. */
  function VisitorIdOf(items: map<string, string>, freshId: string): string {
    if HasVisitorId(items) then items[VisitorIdKey] else freshId
  }

  /** The variant the assignment yields. */
  function VariantOf(items: map<string, string>, random: real): string
    requires 0.0 <= random < 1.0
  {
    if HasVariant(items) then items[VariantKey] else RandomVariant(random)
  }

  /** Storage after the visitor-id step: written only when no usable id was stored. */
  function AfterVisitorId(items: map<string, string>, freshId: string): map<string, string> {
    if HasVisitorId(items) then items else items[VisitorIdKey := freshId]
  }

  /** Storage after the variant step: written only when no usable variant was stored. */
  function AfterVariant(items: map<string, string>, random: real): map<string, string>
    requires 0.0 <= random < 1.0
  {
    if HasVariant(items) then items else items[VariantKey := RandomVariant(random)]
  }

  /** Storage after a full assignment, visitor id first (the order of the hook). */
  function Assigned(items: map<string, string>, freshId: string, random: real): map<string, string>
    requires 0.0 <= random < 1.0
  {
    AfterVariant(AfterVisitorId(items, freshId), random)
  }

  /**
   * What the assignment promises: the variant is a label, the visitor id is non-empty
   * when the fresh one is, a usable stored value is returned as stored, and storage
   * afterwards holds exactly the returned pair, with every other key unchanged.
   */
  lemma AssignmentOutcome(items: map<string, string>, freshId: string, random: real)
    requires 0.0 <= random < 1.0
    requires freshId != ""
    ensures IsVariant(VariantOf(items, random))
    ensures VisitorIdOf(items, freshId) != ""
    ensures HasVariant(items) ==> VariantOf(items, random) == items[VariantKey]
    ensures HasVisitorId(items) ==> VisitorIdOf(items, freshId) == items[VisitorIdKey]
    ensures var after := Assigned(items, freshId, random);
            && after[VariantKey] == VariantOf(items, random)
            && after[VisitorIdKey] == VisitorIdOf(items, freshId)
            && after.Keys == items.Keys + {VariantKey, VisitorIdKey}
            && forall k :: k in items && k != VariantKey && k != VisitorIdKey ==> after[k] == items[k]
  {
  }

  /**
   * Assigning again on the storage an assignment produced yields the same pair and
   * writes nothing, whatever the new clock and random draws.
   */
  lemma AssignmentIdempotent(items: map<string, string>, freshId: string, random: real, freshId': string, random': real)
    requires 0.0 <= random < 1.0 && 0.0 <= random' < 1.0
    requires freshId != ""
    ensures var after := Assigned(items, freshId, random);
            && VariantOf(after, random') == VariantOf(items, random)
            && VisitorIdOf(after, freshId') == VisitorIdOf(items, freshId)
            && Assigned(after, freshId', random') == after
  {
    var mid := AfterVisitorId(items, freshId);
    var after := Assigned(items, freshId, random);
    assert HasVisitorId(mid);
    assert mid[VisitorIdKey] == VisitorIdOf(items, freshId);
    assert after[VisitorIdKey] == mid[VisitorIdKey];
    assert HasVisitorId(after);
    assert HasVariant(after);
  }

  /** Running the variant step before the visitor-id step (as ab-test.js does) ends in the same storage. */
  lemma StepsCommute(items: map<string, string>, freshId: string, random: real)
    requires 0.0 <= random < 1.0
    ensures AfterVisitorId(AfterVariant(items, random), freshId) == Assigned(items, freshId, random)
    ensures VisitorIdOf(AfterVariant(items, random), freshId) == VisitorIdOf(items, freshId)
    ensures VariantOf(AfterVisitorId(items, freshId), random) == VariantOf(items, random)
  {
  }
}
