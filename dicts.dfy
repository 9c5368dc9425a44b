/**
 * Python dicts as the normalizers use them: `pop`, which removes an entry in
 * place, `get`, and the three pop helpers `_pop_int`, `_pop_float` and
 * `_pop_or_get` of shade/_normalize.py.
 * Also the `setdefault` / assignment loops with which every normalizer
 * folds its overflow properties back onto the record, and the list
 * wrappers' "normalize each, stop at the first exception".
 */
module Dicts {
  import opened Values

  /** `d.get(key, default)` on a dict's entries. */
  function Lookup(m: Record, key: string, default: Value): Value {
    if key in m then m[key] else default
  }

  /**
   * A Python dict a caller holds: what a normalizer does to the dict it is
   * handed is visible to the caller through this object. The normalizers
   * work on their copy as a `Record` value, so `d.copy()` is `d.entries`.
   */
  class Dict {
    var entries: Record

    constructor (entries: Record)
      ensures this.entries == entries
    {
      this.entries := entries;
    }
  }

  // In-place pops on a dict held in a local variable: each returns what the
  // pop returns and what the dict holds afterwards.

  /** `d.pop(key, default)` */
  method PopOr(d: Record, key: string, default: Value) returns (v: Value, rest: Record)
    ensures v == Lookup(d, key, default)
    ensures rest == d - {key} && key !in rest
  {
    v := Lookup(d, key, default);
    rest := d - {key};
  }

  /** `d.pop(key)`: raises KeyError, and removes nothing, when key is absent. */
  method Pop(d: Record, key: string) returns (r: Result<Value>, rest: Record)
    ensures key in d <==> r.Ok?
    ensures key in d ==> r.value == d[key] && rest == d - {key}
    ensures key !in d ==> r.error == MissingKey(key) && rest == d
  {
    if key in d {
      r, rest := Ok(d[key]), d - {key};
    } else {
      r, rest := Err(MissingKey(key)), d;
    }
  }

  /** `_pop_int`: pops key (default 0) and converts `value or 0` with `int()`. */
  method PopInt(d: Record, key: string) returns (r: Result<int>, rest: Record)
    ensures rest == d - {key}
    ensures r == IntOrZero(Lookup(d, key, Int(0)))
  {
    var v;
    v, rest := PopOr(d, key, Int(0));
    r := IntOrZero(v);
  }

  /** `_pop_float`: pops key (default 0) and converts `value or 0` with `float()`. */
  method PopFloat(d: Record, key: string) returns (r: Result<real>, rest: Record)
    ensures rest == d - {key}
    ensures r == FloatOrZero(Lookup(d, key, Int(0)))
  {
    var v;
    v, rest := PopOr(d, key, Int(0));
    r := FloatOrZero(v);
  }

  /**
   * `_pop_or_get`: the value or the default in either mode; the key is
   * removed only in strict mode.
   */
  method PopOrGet(d: Record, key: string, default: Value, strict: bool) returns (v: Value, rest: Record)
    ensures v == Lookup(d, key, default)
    ensures rest == if strict then d - {key} else d
  {
    if strict {
      v, rest := PopOr(d, key, default);
    } else {
      v, rest := Lookup(d, key, default), d;
    }
  }

  /**
   * `d.pop(key, d.pop(fallback, default))`: the inner pop runs first, so the
   * fallback key is removed even when key is present.
   */
  method PopFallback(d: Record, key: string, fallback: string, default: Value) returns (v: Value, rest: Record)
    ensures v == Lookup(d, key, Lookup(d, fallback, default))
    ensures rest == d - {key, fallback}
  {
    var inner;
    inner, rest := PopOr(d, fallback, default);
    assert Lookup(rest, key, inner) == Lookup(d, key, inner);
    v, rest := PopOr(rest, key, inner);
  }

  /**
   * The owning project every normalizer but the image one reads:
   * `d.pop('project_id', d.pop('tenant_id', ''))`.
   */
  function ProjectOf(d: Record): Value {
    Lookup(d, "project_id", Lookup(d, "tenant_id", Str("")))
  }

  /** The legacy project aliases added outside strict mode. */
  function ProjectAliases(project: Value): Record {
    map["tenant_id" := project, "project_id" := project]
  }

  /**
   * A record outside strict mode: the legacy aliases are assigned over the
   * canonical record, then every property is added with `setdefault`.
   */
  function Flattened(canonical: Record, legacy: Record, properties: Record): Record {
    properties + (canonical + legacy)
  }

  /**
   * Flattening keeps every canonical field and every legacy alias, and adds
   * exactly the properties neither of them already has.
   */
  lemma FlattenedFields(canonical: Record, legacy: Record, properties: Record)
    requires canonical.Keys !! legacy.Keys
    ensures var r := Flattened(canonical, legacy, properties);
      && r.Keys == canonical.Keys + legacy.Keys + properties.Keys
      && (forall k :: k in canonical ==> r[k] == canonical[k])
      && (forall k :: k in legacy ==> r[k] == legacy[k])
      && (forall k :: k in properties && k !in canonical && k !in legacy ==> r[k] == properties[k])
  {
  }

  /** Merging two dicts with no key in common keeps every entry of both. */
  lemma MergedDisjoint(a: Record, b: Record)
    requires a.Keys !! b.Keys
    ensures (a + b).Keys == a.Keys + b.Keys
    ensures forall k :: k in a ==> (a + b)[k] == a[k]
    ensures forall k :: k in b ==> (a + b)[k] == b[k]
  {
  }

  /** Flattening with just the project aliases, on a record that has neither alias. */
  lemma FlattenedProjectFields(canonical: Record, project: Value, properties: Record)
    requires "tenant_id" !in canonical && "project_id" !in canonical
    ensures var r := Flattened(canonical, ProjectAliases(project), properties);
      && r.Keys == canonical.Keys + {"tenant_id", "project_id"} + properties.Keys
      && r["tenant_id"] == project && r["project_id"] == project
      && (forall k :: k in canonical ==> r[k] == canonical[k])
      && (forall k :: k in properties && k !in canonical && k !in {"tenant_id", "project_id"} ==> r[k] == properties[k])
  {
  }

  /** A canonical field that is not an alias keeps its value under flattening. */
  lemma FlattenedKeeps(canonical: Record, legacy: Record, properties: Record, k: string)
    requires k in canonical && k !in legacy
    ensures k in Flattened(canonical, legacy, properties)
    ensures Flattened(canonical, legacy, properties)[k] == canonical[k]
  {
  }

  /** Assigning the two project aliases, then `setdefault` of every property. */
  lemma FlattenedProject(canonical: Record, project: Value, properties: Record)
    ensures Flattened(canonical, ProjectAliases(project), properties)
      == properties + canonical["tenant_id" := project]["project_id" := project]
  {
  }

  /** The backwards-compatible project aliases, then `setdefault` of every property. */
  method AddProjectAliases(canonical: Record, project: Value, properties: Record) returns (r: Record)
    ensures r == Flattened(canonical, ProjectAliases(project), properties)
  {
    FlattenedProject(canonical, project, properties);
    r := canonical["tenant_id" := project];
    r := r["project_id" := project];
    r := SetDefaults(r, properties);
  }

  /** The keys every copying normalizer discards first as noise. */
  const Noise: set<string> := {"links", "NAME_ATTR", "HUMAN_ID", "human_id"}

  /** `d.pop('links', None)` ... `d.pop('human_id', None)`. */
  method DropNoise(d: Record) returns (rest: Record)
    ensures rest == d - Noise
  {
    var noise;
    noise, rest := PopOr(d, "links", Null);
    noise, rest := PopOr(rest, "NAME_ATTR", Null);
    noise, rest := PopOr(rest, "HUMAN_ID", Null);
    noise, rest := PopOr(rest, "human_id", Null);
  }

  /** `{k: d.get(k, absent) for k in keys}` */
  function Picked(d: Record, keys: set<string>, absent: Value): (r: Record)
    ensures r.Keys == keys
    ensures forall k :: k in keys && k in d ==> r[k] == d[k]
    ensures forall k :: k in keys && k !in d ==> r[k] == absent
  {
    map k | k in keys :: Lookup(d, k, absent)
  }

  /** A fallback read after popping keys it does not involve reads what it read before. */
  lemma FallbackMinus(d: Record, gone: set<string>, key: string, fallback: string, default: Value)
    requires key !in gone && fallback !in gone
    ensures Lookup(d - gone, key, Lookup(d - gone, fallback, default)) == Lookup(d, key, Lookup(d, fallback, default))
  {
  }

  /** Popping one set of keys and then another is popping both. */
  lemma MinusMinus(d: Record, first: set<string>, second: set<string>)
    ensures d - first - second == d - (first + second)
  {
  }

  /** What is picked from keys the copy has not lost is what the original holds. */
  lemma PickedMinus(d: Record, keys: set<string>, gone: set<string>, absent: Value)
    requires keys !! gone
    ensures Picked(d - gone, keys, absent) == Picked(d, keys, absent)
  {
  }

  /** Assigning after a merge is assigning in the right-hand dict. */
  lemma UnionUpdate(a: Record, b: Record, k: string, v: Value)
    ensures (a + b)[k := v] == a + b[k := v]
  {
  }

  /** No key of the list occurs twice. */
  predicate Distinct(keys: seq<string>) {
    forall i, j :: 0 <= i < j < |keys| ==> keys[i] != keys[j]
  }

  /** The keys of a list, as a set. */
  function KeysOf(keys: seq<string>): (s: set<string>)
    ensures forall k :: k in s <==> k in keys
  {
    if keys == [] then {} else KeysOf(keys[..|keys| - 1]) + {keys[|keys| - 1]}
  }

  lemma PickedStep(d: Record, keys: set<string>, k: string, absent: Value, into: Record)
    ensures into + Picked(d, keys + {k}, absent) == (into + Picked(d, keys, absent))[k := Lookup(d, k, absent)]
  {
  }

  /** One turn of the loop of PopEach moves the next key. */
  lemma PopEachStep(d: Record, keys: seq<string>, i: nat, into: Record, absent: Value, r: Record, rest: Record)
    requires Distinct(keys) && i < |keys|
    requires r == into + Picked(d, KeysOf(keys[..i]), absent)
    requires rest == d - KeysOf(keys[..i])
    ensures r[keys[i] := Lookup(rest, keys[i], absent)] == into + Picked(d, KeysOf(keys[..i + 1]), absent)
    ensures rest - {keys[i]} == d - KeysOf(keys[..i + 1])
  {
    var before := KeysOf(keys[..i]);
    KeysOfStep(keys, i);
    DistinctFresh(keys, i);
    assert Lookup(rest, keys[i], absent) == Lookup(d, keys[i], absent);
    PickedStep(d, before, keys[i], absent, into);
    MinusMinus(d, before, {keys[i]});
  }

  lemma KeysOfStep(keys: seq<string>, i: nat)
    requires i < |keys|
    ensures KeysOf(keys[..i + 1]) == KeysOf(keys[..i]) + {keys[i]}
  {
    assert keys[..i + 1][..i] == keys[..i];
  }

  /** In a list without repeats, no key occurs before its own position. */
  lemma DistinctFresh(keys: seq<string>, i: nat)
    requires Distinct(keys) && i < |keys|
    ensures keys[i] !in KeysOf(keys[..i])
  {
  }

  /**
   * `for k in keys: into[k] = d.pop(k, absent)`: every key is moved from d to
   * into, the absent ones with the default.
   */
  method PopEach(d: Record, keys: seq<string>, into: Record, absent: Value) returns (r: Record, rest: Record)
    requires Distinct(keys)
    ensures r == into + Picked(d, KeysOf(keys), absent)
    ensures rest == d - KeysOf(keys)
  {
    r, rest := into, d;
    for i := 0 to |keys|
      invariant r == into + Picked(d, KeysOf(keys[..i]), absent)
      invariant rest == d - KeysOf(keys[..i])
    {
      PopEachStep(d, keys, i, into, absent, r, rest);
      var v;
      v, rest := PopOr(rest, keys[i], absent);
      r := r[keys[i] := v];
    }
    assert keys[..|keys|] == keys;
  }

  /**
   * `for k, v in source.items(): target.setdefault(k, v)`: every key of
   * source is added, but no key target already has is overwritten.
   */
  method SetDefaults(target: Record, source: Record) returns (r: Record)
    ensures r.Keys == target.Keys + source.Keys
    ensures forall k :: k in target ==> r[k] == target[k]
    ensures forall k :: k in source && k !in target ==> r[k] == source[k]
    ensures r == source + target
  {
    r := target;
    var todo := source.Keys;
    while todo != {}
      invariant todo <= source.Keys
      invariant r.Keys == target.Keys + (source.Keys - todo)
      invariant forall k :: k in target ==> r[k] == target[k]
      invariant forall k :: k in r && k !in target ==> r[k] == source[k]
      decreases todo
    {
      var k :| k in todo;
      if k !in r {
        r := r[k := source[k]];
      }
      todo := todo - {k};
    }
  }

  /**
   * `for k, v in source.items(): target[k] = v`: every key of source is
   * added and overwrites what target had.
   */
  method Update(target: Record, source: Record) returns (r: Record)
    ensures r.Keys == target.Keys + source.Keys
    ensures forall k :: k in source ==> r[k] == source[k]
    ensures forall k :: k in target && k !in source ==> r[k] == target[k]
    ensures r == target + source
  {
    r := target;
    var todo := source.Keys;
    while todo != {}
      invariant todo <= source.Keys
      invariant r.Keys == target.Keys + (source.Keys - todo)
      invariant forall k :: k in source - todo ==> r[k] == source[k]
      invariant forall k :: k in r && k !in source - todo ==> r[k] == target[k]
      decreases todo
    {
      var k :| k in todo;
      r := r[k := source[k]];
      todo := todo - {k};
    }
  }

  /** The entries of each dict of a list, in order. */
  function Entries(ds: seq<Dict>): (ms: seq<Record>)
    reads ds
    ensures |ms| == |ds| && forall i :: 0 <= i < |ds| ==> ms[i] == ds[i].entries
  {
    seq(|ds|, i requires 0 <= i < |ds| reads ds => ds[i].entries)
  }

  /** A list of dicts no two of which are the same object. */
  predicate Separate(ds: seq<Dict>) {
    forall i, j :: 0 <= i < j < |ds| ==> ds[i] != ds[j]
  }

  /**
   * Position k of a list is reached when no element before it raises: the
   * elements reached are those up to the first that raises, that one
   * included.
   */
  predicate Reached<A>(f: A -> Result<Record>, xs: seq<A>, k: int) {
    forall m :: 0 <= m < k && m < |xs| ==> f(xs[m]).Ok?
  }

  /** A dict of the list is visited when it sits at some position reached. */
  predicate Visited<A>(f: A -> Result<Record>, xs: seq<A>, ds: seq<Dict>, d: Dict) {
    exists k :: 0 <= k < |ds| && ds[k] == d && Reached(f, xs, k)
  }

  /** A dict sits at one of the first n positions. */
  predicate Seen(ds: seq<Dict>, n: int, d: Dict) {
    exists k :: 0 <= k < n && k < |ds| && ds[k] == d
  }

  /** One position more: the dict at that position is seen too. */
  lemma SeenStep(ds: seq<Dict>, i: nat, d: Dict)
    requires i < |ds|
    ensures Seen(ds, i + 1, d) <==> Seen(ds, i, d) || ds[i] == d
  {
  }

  /**
   * When the positions reached are exactly the first n, the dicts visited
   * are those at the first n positions.
   */
  lemma VisitedSeen<A>(f: A -> Result<Record>, xs: seq<A>, ds: seq<Dict>, n: nat, d: Dict)
    requires |xs| == |ds| && n <= |ds|
    requires forall k :: 0 <= k < |ds| ==> (Reached(f, xs, k) <==> k < n)
    ensures Visited(f, xs, ds, d) <==> Seen(ds, n, d)
  {
    if Seen(ds, n, d) {
      var k :| 0 <= k < n && k < |ds| && ds[k] == d;
      assert Reached(f, xs, k);
    }
  }

  /** Past an element that does not raise, the next position is reached too. */
  lemma ReachedStep<A>(f: A -> Result<Record>, xs: seq<A>, i: nat)
    requires i < |xs| && Reached(f, xs, i) && f(xs[i]).Ok?
    ensures Reached(f, xs, i + 1)
  {
  }

  /**
   * The positions reached are exactly the first n: all of them when no
   * element raises (n the length), else those up to the first that raises.
   */
  lemma ReachedExactly<A>(f: A -> Result<Record>, xs: seq<A>, n: nat)
    requires n <= |xs| && Reached(f, xs, n)
    requires n < |xs| ==> f(xs[n]).Err?
    ensures forall k :: 0 <= k < |xs| ==> (Reached(f, xs, k) <==> k <= n)
  {
    forall k | 0 <= k < |xs| && k > n
      ensures !Reached(f, xs, k)
    {
      assert !f(xs[n]).Ok?;
    }
  }

  /**
   * In a list whose dicts are all distinct, a dict is visited exactly when
   * its own position is reached.
   */
  lemma VisitedSeparate<A>(f: A -> Result<Record>, xs: seq<A>, ds: seq<Dict>, j: nat)
    requires Separate(ds) && |xs| == |ds| && j < |ds|
    ensures Visited(f, xs, ds, ds[j]) <==> Reached(f, xs, j)
  {
    if Visited(f, xs, ds, ds[j]) {
      var k :| 0 <= k < |ds| && ds[k] == ds[j] && Reached(f, xs, k);
      assert k == j;
    }
  }

  /**
   * In a list whose dicts are all distinct, the dicts visited are those up
   * to position n when n is where the first element raises, or every one
   * when n is the length.
   */
  lemma VisitedExactly<A>(f: A -> Result<Record>, xs: seq<A>, ds: seq<Dict>, n: nat)
    requires Separate(ds) && |xs| == |ds| && n <= |xs| && Reached(f, xs, n)
    requires n < |xs| ==> f(xs[n]).Err?
    ensures forall j :: 0 <= j < |ds| ==> (Visited(f, xs, ds, ds[j]) <==> j <= n)
  {
    ReachedExactly(f, xs, n);
    forall j | 0 <= j < |ds| {
      VisitedSeparate(f, xs, ds, j);
    }
  }

  /**
   * Normalizing every element of a list in order: the list of results, or
   * the exception of the first element that raises.
   */
  function MapResults<A>(f: A -> Result<Record>, xs: seq<A>): (r: Result<seq<Record>>)
    ensures r.Ok? ==> |r.value| == |xs|
  {
    if xs == [] then Ok([])
    else
      var init :- MapResults(f, xs[..|xs| - 1]);
      var last :- f(xs[|xs| - 1]);
      Ok(init + [last])
  }

  /**
   * The list of results holds each element's result in order, and the
   * exception raised is that of the first element that raises.
   */
  lemma {:induction false} MapResultsMeaning<A>(f: A -> Result<Record>, xs: seq<A>)
    ensures var r := MapResults(f, xs);
      && (r.Ok? <==> forall i :: 0 <= i < |xs| ==> f(xs[i]).Ok?)
      && (r.Ok? ==> forall i :: 0 <= i < |xs| ==> f(xs[i]) == Ok(r.value[i]))
      && (r.Err? ==> exists i :: 0 <= i < |xs| && f(xs[i]) == Err(r.error) && forall j :: 0 <= j < i ==> f(xs[j]).Ok?)
  {
    if xs != [] {
      var init := xs[..|xs| - 1];
      MapResultsMeaning(f, init);
      assert forall i :: 0 <= i < |init| ==> init[i] == xs[i];
      var r := MapResults(f, xs);
      if MapResults(f, init).Err? {
        var i :| 0 <= i < |init| && f(init[i]) == Err(MapResults(f, init).error) && forall j :: 0 <= j < i ==> f(init[j]).Ok?;
        assert f(xs[i]) == Err(r.error);
      } else if f(xs[|xs| - 1]).Err? {
        assert f(xs[|xs| - 1]) == Err(r.error);
      }
    }
  }

  /** One more element: its exception, or its result appended. */
  lemma MapResultsStep<A>(f: A -> Result<Record>, xs: seq<A>, i: nat, acc: seq<Record>)
    requires i < |xs| && MapResults(f, xs[..i]) == Ok(acc)
    ensures MapResults(f, xs[..i + 1]) == if f(xs[i]).Err? then Err(f(xs[i]).error) else Ok(acc + [f(xs[i]).value])
  {
    assert xs[..i + 1][..i] == xs[..i];
  }

  /** Once a prefix raises, the whole list raises the same exception. */
  lemma {:induction false} MapResultsPrefixErr<A>(f: A -> Result<Record>, xs: seq<A>, i: nat)
    requires i <= |xs|
    requires MapResults(f, xs[..i]).Err?
    ensures MapResults(f, xs) == MapResults(f, xs[..i])
  {
    if i < |xs| {
      assert xs[..|xs| - 1][..i] == xs[..i];
      MapResultsPrefixErr(f, xs[..|xs| - 1], i);
    } else {
      assert xs[..i] == xs;
    }
  }
}
