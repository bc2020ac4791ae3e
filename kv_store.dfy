/**
 * The key-value backend the serverless functions write to, reduced to the
 * single-key commands they issue: record `set`, list `lPush`, hash-field
 * `hIncrBy`, set `sAdd`, and the get-then-set of a record with extra fields.
 * Each kind of value lives in its own map.
 */
module KeyValueStore {
  import opened Wrappers
  import opened JsObjects

  datatype Store = Store(
    records: map<string, Object>,
    hashes: map<string, map<string, int>>,
    sets: map<string, set<string>>,
    lists: map<string, seq<string>>)

  const Empty := Store(map[], map[], map[], map[])

  /** `hGet(key, field)` read as a number; a missing hash or field counts as 0. */
  function HashField(s: Store, key: string, field: string): int {
    if key in s.hashes && field in s.hashes[key] then s.hashes[key][field] else 0
  }

  /** `sMembers(key)`; a missing set is empty. */
  function Members(s: Store, key: string): set<string> {
    if key in s.sets then s.sets[key] else {}
  }

  /** `lRange(key, 0, -1)`; a missing list is empty. Index 0 is the most recently pushed. */
  function List(s: Store, key: string): seq<string> {
    if key in s.lists then s.lists[key] else []
  }

  /** `get(key)` of a record. */
  function GetRecord(s: Store, key: string): Option<Object> {
    if key in s.records then Some(s.records[key]) else None
  }

  datatype Command =
    | SetRecord(key: string, value: Object)
    | LPush(key: string, element: string)
    | HIncrBy(key: string, field: string, amount: int)
    | SAdd(key: string, member: string)
      /** `set(key, { ...(await get(key)), ...fields })`; a missing record reads as `{}`. */
    | MergeRecord(key: string, fields: Object)

  function Apply(s: Store, c: Command): Store {
    match c
    case SetRecord(k, v) => s.(records := s.records[k := v])
    case LPush(k, e) => s.(lists := s.lists[k := [e] + List(s, k)])
    case HIncrBy(k, f, n) =>
      var h := if k in s.hashes then s.hashes[k] else map[];
      s.(hashes := s.hashes[k := h[f := HashField(s, k, f) + n]])
    case SAdd(k, m) => s.(sets := s.sets[k := Members(s, k) + {m}])
    case MergeRecord(k, fields) =>
      var prior := if k in s.records then s.records[k] else map[];
      s.(records := s.records[k := prior + fields])
  }

  /** What one command does to each view of the store: it changes only its own key. */
  lemma ApplyViews(s: Store, c: Command)
    ensures forall k, f :: HashField(Apply(s, c), k, f)
                           == HashField(s, k, f) + (if c.HIncrBy? && c.key == k && c.field == f then c.amount else 0)
    ensures forall k :: Members(Apply(s, c), k) == if c.SAdd? && c.key == k then Members(s, k) + {c.member} else Members(s, k)
    ensures c.LPush? ==> Apply(s, c).lists == s.lists[c.key := [c.element] + List(s, c.key)]
    ensures !c.LPush? ==> Apply(s, c).lists == s.lists
    ensures !c.HIncrBy? ==> Apply(s, c).hashes == s.hashes
    ensures !c.SAdd? ==> Apply(s, c).sets == s.sets
    ensures c.SetRecord? ==> Apply(s, c).records == s.records[c.key := c.value]
    ensures c.MergeRecord? ==>
              Apply(s, c).records == s.records[c.key := (if c.key in s.records then s.records[c.key] else map[]) + c.fields]
    ensures !c.SetRecord? && !c.MergeRecord? ==> Apply(s, c).records == s.records
  {
  }

  /** The commands applied in order. */
  function Run(s: Store, cmds: seq<Command>): Store
    decreases |cmds|
  {
    if cmds == [] then s else Apply(Run(s, cmds[..|cmds| - 1]), cmds[|cmds| - 1])
  }

  /** The commands before index `failFrom`: the one at `failFrom` throws and the caller stops. */
  function RunUntil(s: Store, cmds: seq<Command>, failFrom: nat): Store {
    Run(s, cmds[..if failFrom < |cmds| then failFrom else |cmds|])
  }

  lemma {:induction false} RunConcat(s: Store, a: seq<Command>, b: seq<Command>)
    ensures Run(s, a + b) == Run(Run(s, a), b)
    decreases |b|
  {
    if b == [] {
      assert a + b == a;
    } else {
      assert (a + b)[..|a + b| - 1] == a + b[..|b| - 1];
      RunConcat(s, a, b[..|b| - 1]);
    }
  }

  lemma {:induction false} RunCons(s: Store, c: Command, rest: seq<Command>)
    ensures Run(s, [c] + rest) == Run(Apply(s, c), rest)
    decreases |rest|
  {
    if rest == [] {
      assert [c] + rest == [c];
      assert [c][..0] == [];
    } else {
      assert ([c] + rest)[..|[c] + rest| - 1] == [c] + rest[..|rest| - 1];
      RunCons(s, c, rest[..|rest| - 1]);
    }
  }

  lemma RunStep(s: Store, cmds: seq<Command>, i: nat)
    requires i < |cmds|
    ensures Run(s, cmds[..i + 1]) == Apply(Run(s, cmds[..i]), cmds[i])
  {
    assert cmds[..i + 1][..i] == cmds[..i];
  }

  /** The store as a client object: each command changes its state in place. */
  class Client {
    var state: Store

    constructor (initial: Store)
      ensures state == initial
    {
      state := initial;
    }

    /**
     * Issues command number `index` of a request whose store throws from command
     * `failFrom` on: it takes effect exactly when it comes before that one.
     */
    method Attempt(c: Command, index: nat, failFrom: nat) returns (ok: bool)
      modifies this
      ensures ok == (index < failFrom)
      ensures state == if ok then Apply(old(state), c) else old(state)
    {
      ok := index < failFrom;
      if ok {
        state := Apply(state, c);
      }
    }

    /**
     * Issues command `i` of the sequence `cmds` started from `s0`, all earlier ones
     * having succeeded. Afterwards the state is that of the commands before index
     * `i + 1`, or, when this one throws, that of the commands before `failFrom`.
     */
    method Issue(ghost s0: Store, ghost cmds: seq<Command>, c: Command, i: nat, failFrom: nat) returns (ok: bool)
      requires i < |cmds| && cmds[i] == c && i <= failFrom
      requires state == Run(s0, cmds[..i])
      modifies this
      ensures ok == (i < failFrom)
      ensures ok ==> state == Run(s0, cmds[..i + 1])
      ensures !ok ==> state == RunUntil(s0, cmds, failFrom)
    {
      ok := Attempt(c, i, failFrom);
      RunStep(s0, cmds, i);
    }
  }
}
