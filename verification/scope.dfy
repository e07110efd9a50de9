/** The ambient context merged into every event: user, tags, extra data and
    a bounded breadcrumb history. A scope is an immutable value here; each
    mutating method of the SDK's `Scope` becomes a function returning the new
    scope, so a clone can never share state with its original. */
module Scopes {
  import opened Wrappers
  import opened Json
  import opened Levels
  import opened Breadcrumbs

  /** The breadcrumb capacity this model assumes when none is configured;
      the tests never rely on its value. */
  const DefaultMaxBreadcrumbs: nat := 100

  /** The level `add_breadcrumb` records when the caller gives none. */
  const DefaultBreadcrumbLevel: Level := Info

  datatype Scope = Scope(
    user: Option<Payload>,
    tags: map<string, string>,
    extra: Payload,
    breadcrumbs: seq<Breadcrumb>,
    maxBreadcrumbs: nat)
  {
    /** The history never holds more than the capacity. */
    predicate Valid() {
      |breadcrumbs| <= maxBreadcrumbs
    }
  }

  /** `Scope(max_breadcrumbs=cap)`: no user, no tags, no extra, no breadcrumbs. */
  function NewScope(cap: nat): (s: Scope)
    ensures s.user.None? && s.tags == map[] && s.extra == map[] && s.breadcrumbs == []
    ensures s.maxBreadcrumbs == cap && s.Valid()
  {
    Scope(None, map[], map[], [], cap)
  }

  /** Replaces the user as a whole (last write wins); nothing else changes. */
  function SetUser(s: Scope, fields: Payload): (r: Scope)
    ensures r.user == Some(fields)
    ensures r.tags == s.tags && r.extra == s.extra && r.breadcrumbs == s.breadcrumbs
    ensures r.maxBreadcrumbs == s.maxBreadcrumbs
  {
    s.(user := Some(fields))
  }

  /** Sets one tag, overwriting an earlier value for the same key and keeping
      every other tag. */
  function SetTag(s: Scope, key: string, value: string): (r: Scope)
    ensures r.tags.Keys == s.tags.Keys + {key}
    ensures r.tags[key] == value
    ensures forall k :: k in s.tags && k != key ==> r.tags[k] == s.tags[k]
    ensures r.user == s.user && r.extra == s.extra && r.breadcrumbs == s.breadcrumbs
    ensures r.maxBreadcrumbs == s.maxBreadcrumbs
  {
    s.(tags := s.tags[key := value])
  }

  /** Merges a mapping into the tags: every given pair is set, every other
      existing tag is kept. */
  function SetTags(s: Scope, tags: map<string, string>): (r: Scope)
    ensures r.tags.Keys == s.tags.Keys + tags.Keys
    ensures forall k :: k in tags ==> r.tags[k] == tags[k]
    ensures forall k :: k in s.tags && k !in tags ==> r.tags[k] == s.tags[k]
    ensures r.user == s.user && r.extra == s.extra && r.breadcrumbs == s.breadcrumbs
    ensures r.maxBreadcrumbs == s.maxBreadcrumbs
  {
    s.(tags := s.tags + tags)
  }

  /** Sets one extra entry, with the same overwrite rule as tags. */
  function SetExtra(s: Scope, key: string, value: Json): (r: Scope)
    ensures r.extra.Keys == s.extra.Keys + {key}
    ensures r.extra[key] == value
    ensures forall k :: k in s.extra && k != key ==> r.extra[k] == s.extra[k]
    ensures r.user == s.user && r.tags == s.tags && r.breadcrumbs == s.breadcrumbs
    ensures r.maxBreadcrumbs == s.maxBreadcrumbs
  {
    s.(extra := s.extra[key := value])
  }

  /** Records a breadcrumb built from the arguments (the timestamp is passed
      in). When the history is full the oldest entry is evicted. */
  function AddBreadcrumb(s: Scope, timestamp: string, message: Option<string>, category: Option<string>,
                         level: Level, data: Option<Payload>): (r: Scope)
    requires s.Valid()
    ensures r.Valid()
    ensures r.breadcrumbs == LastN(s.breadcrumbs + [Breadcrumb(timestamp, message, category, level, data)], s.maxBreadcrumbs)
    ensures s.maxBreadcrumbs > 0 ==>
      r.breadcrumbs[|r.breadcrumbs| - 1] == Breadcrumb(timestamp, message, category, level, data)
    ensures r.user == s.user && r.tags == s.tags && r.extra == s.extra
    ensures r.maxBreadcrumbs == s.maxBreadcrumbs
  {
    s.(breadcrumbs := Push(s.breadcrumbs, s.maxBreadcrumbs, Breadcrumb(timestamp, message, category, level, data)))
  }

  /** An independent copy. Scopes are values, so the copy shares nothing
      mutable with the original: a later change to either is a new value. */
  function Clone(s: Scope): (c: Scope)
    ensures c.user == s.user && c.tags == s.tags && c.extra == s.extra
    ensures c.breadcrumbs == s.breadcrumbs && c.maxBreadcrumbs == s.maxBreadcrumbs
  {
    Scope(s.user, s.tags, s.extra, s.breadcrumbs, s.maxBreadcrumbs)
  }

  /** Back to the empty initial state; only the capacity survives. */
  function Clear(s: Scope): (r: Scope)
    ensures r.user.None? && r.tags == map[] && r.extra == map[] && r.breadcrumbs == []
    ensures r.maxBreadcrumbs == s.maxBreadcrumbs && r.Valid()
  {
    s.(user := None, tags := map[], extra := map[], breadcrumbs := [])
  }

  /** The operations a caller can apply to a scope, for reasoning about
      arbitrary histories of them. */
  datatype ScopeOp =
    | SetUserOp(fields: Payload)
    | SetTagOp(key: string, value: string)
    | SetTagsOp(tags: map<string, string>)
    | SetExtraOp(extraKey: string, extraValue: Json)
    | AddBreadcrumbOp(timestamp: string, message: Option<string>, category: Option<string>,
                      level: Level, data: Option<Payload>)
    | ClearOp

  function Apply(s: Scope, op: ScopeOp): Scope
    requires s.Valid()
  {
    match op
    case SetUserOp(fields) => SetUser(s, fields)
    case SetTagOp(k, v) => SetTag(s, k, v)
    case SetTagsOp(m) => SetTags(s, m)
    case SetExtraOp(k, v) => SetExtra(s, k, v)
    case AddBreadcrumbOp(t, m, c, l, d) => AddBreadcrumb(s, t, m, c, l, d)
    case ClearOp => Clear(s)
  }

  /** Applies the operations in order. Every result is a valid scope with the
      capacity it started with. */
  function Run(s: Scope, ops: seq<ScopeOp>): (r: Scope)
    requires s.Valid()
    ensures r.Valid() && r.maxBreadcrumbs == s.maxBreadcrumbs
    decreases |ops|
  {
    if ops == [] then s else Run(Apply(s, ops[0]), ops[1..])
  }

  /** Whatever happened to a scope, clearing it yields a fresh scope of the
      same capacity. */
  lemma ClearForgetsHistory(s: Scope, ops: seq<ScopeOp>)
    requires s.Valid()
    ensures Clear(Run(s, ops)) == NewScope(s.maxBreadcrumbs)
  {
  }

  /** A clone goes through any later history exactly as the original would,
      and the original keeps its own state. */
  lemma CloneBehavesAsOriginal(s: Scope, ops: seq<ScopeOp>)
    requires s.Valid()
    ensures Clone(s).Valid()
    ensures Run(Clone(s), ops) == Run(s, ops)
  {
  }

  /** `set_tag(k, v)` then `set_tags(m)`: the earlier tag survives unless `m`
      overrides it, and every pair of `m` is present. */
  lemma SetTagThenSetTags(s: Scope, key: string, value: string, tags: map<string, string>)
    ensures var r := SetTags(SetTag(s, key, value), tags);
      && key in r.tags
      && r.tags[key] == (if key in tags then tags[key] else value)
      && forall k :: k in tags ==> k in r.tags && r.tags[k] == tags[k]
  {
  }

  /** Sets the tags one pair at a time, in the given order. */
  function SetTagEach(s: Scope, pairs: seq<(string, string)>): Scope
    decreases |pairs|
  {
    if pairs == [] then s else SetTagEach(SetTag(s, pairs[0].0, pairs[0].1), pairs[1..])
  }

  predicate DistinctKeys(pairs: seq<(string, string)>) {
    forall i, j :: 0 <= i < j < |pairs| ==> pairs[i].0 != pairs[j].0
  }

  /** The mapping a list of pairs with distinct keys denotes. */
  function PairsToMap(pairs: seq<(string, string)>): (m: map<string, string>)
    decreases |pairs|
  {
    if pairs == [] then map[] else PairsToMap(pairs[1..])[pairs[0].0 := pairs[0].1]
  }

  /** `set_tags(m)` is `set_tag` applied to each pair of `m`: with distinct
      keys the order of the pairs does not matter. */
  lemma {:induction false} SetTagsIsSetTagEach(s: Scope, pairs: seq<(string, string)>)
    requires DistinctKeys(pairs)
    ensures SetTagEach(s, pairs) == SetTags(s, PairsToMap(pairs))
    decreases |pairs|
  {
    if pairs == [] {
      assert s.tags + map[] == s.tags;
    } else {
      var (k, v) := pairs[0];
      var rest := pairs[1..];
      assert DistinctKeys(rest) by {
        forall i, j | 0 <= i < j < |rest|
          ensures rest[i].0 != rest[j].0
        {
          assert rest[i] == pairs[i + 1] && rest[j] == pairs[j + 1];
        }
      }
      SetTagsIsSetTagEach(SetTag(s, k, v), rest);
      forall i | 0 <= i < |rest|
        ensures rest[i].0 != k
      {
        assert rest[i] == pairs[i + 1];
      }
      KeyNotInPairsToMap(k, rest);
      MergeAfterUpdate(s.tags, k, v, PairsToMap(rest));
    }
  }

  lemma {:induction false} KeyNotInPairsToMap(k: string, pairs: seq<(string, string)>)
    requires forall i :: 0 <= i < |pairs| ==> pairs[i].0 != k
    ensures k !in PairsToMap(pairs)
    decreases |pairs|
  {
    if pairs != [] {
      var rest := pairs[1..];
      forall i | 0 <= i < |rest|
        ensures rest[i].0 != k
      {
        assert rest[i] == pairs[i + 1];
      }
      KeyNotInPairsToMap(k, rest);
    }
  }

  /** Setting `k` first and merging `n` afterwards equals merging `n` with
      `k` added, when `n` does not mention `k`. */
  lemma MergeAfterUpdate(m: map<string, string>, k: string, v: string, n: map<string, string>)
    requires k !in n
    ensures m[k := v] + n == m + n[k := v]
  {
    var a := m[k := v] + n;
    var b := m + n[k := v];
    assert a.Keys == b.Keys;
    forall x | x in a
      ensures a[x] == b[x]
    {
    }
  }

  function AddBreadcrumbs(s: Scope, bs: seq<Breadcrumb>): Scope
    requires s.Valid()
    decreases |bs|
  {
    if bs == [] then s
    else
      var b := bs[0];
      AddBreadcrumbs(AddBreadcrumb(s, b.timestamp, b.message, b.category, b.level, b.data), bs[1..])
  }

  /** Adding breadcrumbs one by one through the scope is appending them to
      its bounded history, and nothing else. */
  lemma {:induction false} AddBreadcrumbsIsPushAll(s: Scope, bs: seq<Breadcrumb>)
    requires s.Valid()
    ensures AddBreadcrumbs(s, bs) == s.(breadcrumbs := PushAll(s.breadcrumbs, s.maxBreadcrumbs, bs))
    decreases |bs|
  {
    if bs != [] {
      var b := bs[0];
      var next := AddBreadcrumb(s, b.timestamp, b.message, b.category, b.level, b.data);
      assert next == s.(breadcrumbs := Push(s.breadcrumbs, s.maxBreadcrumbs, b));
      AddBreadcrumbsIsPushAll(next, bs[1..]);
    }
  }

  /** After any number of `add_breadcrumb` calls the scope holds the most
      recent `max_breadcrumbs` of everything added, oldest first, and its
      length is the smaller of the two. Nothing else in the scope changes. */
  lemma AddBreadcrumbsKeepsMostRecent(s: Scope, bs: seq<Breadcrumb>)
    requires s.Valid()
    ensures var r := AddBreadcrumbs(s, bs);
      && r.breadcrumbs == LastN(s.breadcrumbs + bs, s.maxBreadcrumbs)
      && |r.breadcrumbs| == Min(|s.breadcrumbs| + |bs|, s.maxBreadcrumbs)
      && r.user == s.user && r.tags == s.tags && r.extra == s.extra
      && r.maxBreadcrumbs == s.maxBreadcrumbs
  {
    AddBreadcrumbsIsPushAll(s, bs);
    PushAllKeepsMostRecent(s.breadcrumbs, s.maxBreadcrumbs, bs);
  }

  /** The capacity example: from an empty scope of capacity `cap`, adding at
      least `cap` breadcrumbs leaves exactly `cap`, the first of which is the
      one added `cap` from the end (with capacity 5 and ten additions, the
      sixth one added). */
  lemma FirstRetainedBreadcrumb(cap: nat, bs: seq<Breadcrumb>)
    requires 0 < cap <= |bs|
    ensures var r := AddBreadcrumbs(NewScope(cap), bs);
      |r.breadcrumbs| == cap && r.breadcrumbs[0] == bs[|bs| - cap]
  {
    AddBreadcrumbsKeepsMostRecent(NewScope(cap), bs);
    assert [] + bs == bs;
  }
}
