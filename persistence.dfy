/**
 * The persistence options of a client: `defaultPersistence`, and the
 * `pick(merge({}, base, options), keys)` computation of the constructor and of
 * `updatePersistence`.
 */
module Persistence {
  import opened Wrappers

  /**
   * An option value. JavaScript functions (the lifecycle hooks and a computed
   * `interval`) carry an identity, which is what `!==` compares.
   */
  datatype OptionValue =
    | Bool(b: bool)
    | Num(n: int)
    | Func(id: nat, call: int -> int)

  type Options = map<string, OptionValue>

  function Noop(x: int): int { 0 }

  /** The names of the five lifecycle hooks. */
  const Hooks: set<string> := {"onDisconnect", "onConnecting", "onConnection", "onReconnect", "onTimeout"}

  /** `defaultPersistence`: enabled, each hook a distinct no-op, 10 attempts, 3000 ms apart. */
  function Defaults(): Options {
    map[
      "enabled" := Bool(true),
      "onDisconnect" := Func(0, Noop),
      "onConnecting" := Func(1, Noop),
      "onConnection" := Func(2, Noop),
      "onReconnect" := Func(3, Noop),
      "onTimeout" := Func(4, Noop),
      "attempts" := Num(10),
      "interval" := Num(3000)]
  }

  /** The defaults are exactly these eight keys, and the five hooks are distinct functions. */
  lemma DefaultsMeaning()
    ensures Defaults().Keys == Hooks + {"enabled", "attempts", "interval"}
    ensures Defaults()["enabled"] == Bool(true) && Defaults()["attempts"] == Num(10)
    ensures Defaults()["interval"] == Num(3000)
    ensures forall h :: h in Hooks ==> Defaults()[h].Func?
    ensures forall h, k :: h in Hooks && k in Hooks && h != k ==> Defaults()[h].id != Defaults()[k].id
  {
  }

  /** `merge({}, base, over)` on flat values: a supplied key wins, an `undefined` one is absent. */
  function Merge(base: Options, over: Options): Options {
    base + over
  }

  /** `pick(obj, keys)`: keep exactly the listed keys that `obj` has. */
  function Pick(obj: Options, keys: set<string>): Options {
    map k | k in obj && k in keys :: obj[k]
  }

  /** `pick(merge({}, base, options), Object.keys(base))`. */
  function Update(base: Options, options: Options): Options {
    Pick(Merge(Merge(map[], base), options), base.Keys)
  }

  /**
   * The option keys never change, a supplied value for a known key wins, the
   * old value stays otherwise, and unknown keys are dropped.
   */
  lemma UpdateMeaning(base: Options, options: Options)
    ensures Update(base, options).Keys == base.Keys
    ensures forall k :: k in base && k in options ==> Update(base, options)[k] == options[k]
    ensures forall k :: k in base && k !in options ==> Update(base, options)[k] == base[k]
  {
  }

  /** Applying the same options twice is the same as applying them once. */
  lemma UpdateIdempotent(base: Options, options: Options)
    ensures Update(Update(base, options), options) == Update(base, options)
  {
    UpdateMeaning(base, options);
    UpdateMeaning(Update(base, options), options);
  }

  /** Two successive updates are one update with the later options winning. */
  lemma UpdateCompose(base: Options, first: Options, second: Options)
    ensures Update(Update(base, first), second) == Update(base, Merge(first, second))
  {
    UpdateMeaning(base, first);
    UpdateMeaning(Update(base, first), second);
    UpdateMeaning(base, Merge(first, second));
  }

  /** Strict inequality `a !== b` of two option reads; `None` is `undefined`. */
  predicate Differs(a: Option<OptionValue>, b: Option<OptionValue>) {
    match (a, b)
    case (None, None) => false
    case (Some(Bool(x)), Some(Bool(y))) => x != y
    case (Some(Num(x)), Some(Num(y))) => x != y
    case (Some(Func(x, _)), Some(Func(y, _))) => x != y
    case _ => true
  }

  function Get(p: Options, key: string): Option<OptionValue> {
    if key in p then Some(p[key]) else None
  }
}
