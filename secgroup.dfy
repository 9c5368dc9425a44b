/**
 * `Normalizer._normalize_secgroup` and `_normalize_secgroups`
 * (shade/_normalize.py:179-220): nova's security groups rewritten to look
 * like neutron's, with their rules normalized by the Rules module.
 */
module Secgroups {
  import opened Values
  import opened Dicts
  import opened Ambient
  import Rules

  /** The canonical fields of a normalized security group. */
  const Fields: set<string> :=
    {"location", "id", "name", "security_group_rules", "description", "properties"}

  /** Every key the normalizer pops from its copy. */
  const Claimed: set<string> :=
    {"security_group_rules", "rules", "project_id", "tenant_id", "id", "name", "description"}

  /** The rule list: neutron's `security_group_rules`, else nova's `rules`, else empty. */
  function RulesValue(raw: Record): Value {
    Lookup(raw, "security_group_rules", Lookup(raw, "rules", List([])))
  }

  /** What the normalized group keeps in `properties`: every key not popped. */
  function Properties(raw: Record): Record {
    raw - Claimed
  }

  /** The normalized rules as the list value stored in the group. */
  function Wrapped(rules: seq<Record>): (vs: seq<Value>)
    ensures |vs| == |rules| && forall i :: 0 <= i < |rules| ==> vs[i] == Map(rules[i])
  {
    seq(|rules|, i requires 0 <= i < |rules| => Map(rules[i]))
  }

  /** The canonical record, before strict mode decides about flattening. */
  function Canonical(ctx: Context, raw: Record, rules: seq<Record>): Record
    requires "id" in raw && "name" in raw && "description" in raw
  {
    map[
      "location" := ctx.locationOf(ProjectOf(raw), Null),
      "id" := raw["id"],
      "name" := raw["name"],
      "security_group_rules" := List(Wrapped(rules)),
      "description" := raw["description"],
      "properties" := Map(Properties(raw))]
  }

  /**
   * The normalized group, stated on the caller's dict. Exceptions come in
   * source order: the rules first, then a missing `id`, `name` or
   * `description`.
   */
  function Spec(ctx: Context, raw: Record): Result<Record> {
    var rules :- Rules.RulesSpec(ctx, RulesValue(raw));
    if "id" !in raw then Err(MissingKey("id"))
    else if "name" !in raw then Err(MissingKey("name"))
    else if "description" !in raw then Err(MissingKey("description"))
    else
      var canonical := Canonical(ctx, raw, rules);
      Ok(if ctx.strictMode then canonical
         else Flattened(canonical, ProjectAliases(ProjectOf(raw)), Properties(raw)))
  }

  // ---------------------------------------------------------------------
  // What a normalized security group is

  /**
   * A group fails exactly when its rules fail or `id`, `name` or
   * `description` is missing; a failing rule is reported first.
   */
  lemma GroupErrors(ctx: Context, raw: Record)
    ensures Spec(ctx, raw).Err? <==>
      Rules.RulesSpec(ctx, RulesValue(raw)).Err? || "id" !in raw || "name" !in raw || "description" !in raw
    ensures Rules.RulesSpec(ctx, RulesValue(raw)).Err? ==>
      Spec(ctx, raw) == Err(Rules.RulesSpec(ctx, RulesValue(raw)).error)
    ensures Rules.RulesSpec(ctx, RulesValue(raw)).Ok? && "id" !in raw ==> Spec(ctx, raw) == Err(MissingKey("id"))
    ensures Rules.RulesSpec(ctx, RulesValue(raw)).Ok? && "id" in raw && "name" !in raw ==>
      Spec(ctx, raw) == Err(MissingKey("name"))
    ensures Rules.RulesSpec(ctx, RulesValue(raw)).Ok? && "id" in raw && "name" in raw && "description" !in raw ==>
      Spec(ctx, raw) == Err(MissingKey("description"))
  {
  }

  /** The canonical record has the canonical fields, each holding its stage's result. */
  lemma CanonicalFields(ctx: Context, raw: Record, rules: seq<Record>)
    requires "id" in raw && "name" in raw && "description" in raw
    ensures var c := Canonical(ctx, raw, rules);
      && c.Keys == Fields && "tenant_id" !in c && "project_id" !in c
      && c["location"] == ctx.locationOf(ProjectOf(raw), Null)
      && c["id"] == raw["id"] && c["name"] == raw["name"] && c["description"] == raw["description"]
      && c["security_group_rules"] == List(Wrapped(rules))
      && c["properties"] == Map(Properties(raw))
  {
  }

  /** A normalized group is its canonical record, flattened outside strict mode. */
  lemma GroupShape(ctx: Context, raw: Record) returns (rules: seq<Record>)
    requires Spec(ctx, raw).Ok?
    ensures Rules.RulesSpec(ctx, RulesValue(raw)) == Ok(rules)
    ensures "id" in raw && "name" in raw && "description" in raw
    ensures var c := Canonical(ctx, raw, rules);
      Spec(ctx, raw).value ==
        if ctx.strictMode then c else Flattened(c, ProjectAliases(ProjectOf(raw)), Properties(raw))
  {
    rules := Rules.RulesSpec(ctx, RulesValue(raw)).value;
  }

  /**
   * `id`, `name` and `description` are copied; the location is that of the
   * group's project: `project_id`, else `tenant_id`, else empty.
   */
  lemma GroupIdentity(ctx: Context, raw: Record)
    requires Spec(ctx, raw).Ok?
    ensures "id" in raw && "name" in raw && "description" in raw
    ensures var v := Spec(ctx, raw).value;
      && v["id"] == raw["id"] && v["name"] == raw["name"] && v["description"] == raw["description"]
      && v["location"] == ctx.locationOf(Lookup(raw, "project_id", Lookup(raw, "tenant_id", Str(""))), Null)
  {
    var rules := GroupShape(ctx, raw);
    CanonicalFields(ctx, raw, rules);
    if !ctx.strictMode {
      FlattenedProjectFields(Canonical(ctx, raw, rules), ProjectOf(raw), Properties(raw));
    }
  }

  /**
   * `security_group_rules` holds, in order, the normalized form of each rule
   * dict of the neutron list, or else of the nova list.
   */
  lemma GroupRules(ctx: Context, raw: Record)
    requires Spec(ctx, raw).Ok?
    ensures Rules.Items(RulesValue(raw)).Ok?
    ensures var items := Rules.Items(RulesValue(raw)).value;
      var listed := Spec(ctx, raw).value["security_group_rules"];
      && listed.List? && |listed.items| == |items|
      && forall i :: 0 <= i < |items| ==>
        items[i].Map? && Rules.Spec(ctx, items[i].fields).Ok? &&
        listed.items[i] == Map(Rules.Spec(ctx, items[i].fields).value)
  {
    var rules := GroupShape(ctx, raw);
    CanonicalFields(ctx, raw, rules);
    if !ctx.strictMode {
      FlattenedProjectFields(Canonical(ctx, raw, rules), ProjectOf(raw), Properties(raw));
    }
    Rules.RulesMeaning(ctx, RulesValue(raw));
  }

  /** `properties` holds every key not popped: both rule-list names and both project names are removed. */
  lemma GroupProperties(ctx: Context, raw: Record)
    requires Spec(ctx, raw).Ok?
    ensures Spec(ctx, raw).value["properties"] == Map(raw - Claimed)
  {
    var rules := GroupShape(ctx, raw);
    CanonicalFields(ctx, raw, rules);
    if !ctx.strictMode {
      FlattenedKeeps(Canonical(ctx, raw, rules), ProjectAliases(ProjectOf(raw)), Properties(raw), "properties");
    }
  }

  /** In strict mode the group has exactly the canonical fields. */
  lemma GroupStrictKeys(ctx: Context, raw: Record)
    requires ctx.strictMode && Spec(ctx, raw).Ok?
    ensures Spec(ctx, raw).value.Keys == Fields
  {
    var rules := GroupShape(ctx, raw);
    CanonicalFields(ctx, raw, rules);
  }

  /**
   * Outside strict mode the project aliases are added and every property
   * becomes a top-level key.
   */
  lemma GroupFlattening(ctx: Context, raw: Record)
    requires !ctx.strictMode && Spec(ctx, raw).Ok?
    ensures var v := Spec(ctx, raw).value;
      && v.Keys == Fields + {"tenant_id", "project_id"} + Properties(raw).Keys
      && v["tenant_id"] == ProjectOf(raw) && v["project_id"] == ProjectOf(raw)
  {
    var rules := GroupShape(ctx, raw);
    CanonicalFields(ctx, raw, rules);
    FlattenedProjectFields(Canonical(ctx, raw, rules), ProjectOf(raw), Properties(raw));
  }

  /** A property that is neither a canonical field nor an alias keeps its value at the top level. */
  lemma GroupPropertiesFlattened(ctx: Context, raw: Record)
    requires !ctx.strictMode && Spec(ctx, raw).Ok?
    ensures forall k :: k in Properties(raw) && k !in Fields && k !in {"tenant_id", "project_id"} ==>
      k in Spec(ctx, raw).value && Spec(ctx, raw).value[k] == raw[k]
  {
    var rules := GroupShape(ctx, raw);
    CanonicalFields(ctx, raw, rules);
    FlattenedProjectFields(Canonical(ctx, raw, rules), ProjectOf(raw), Properties(raw));
  }

  /**
   * Flattening never overwrites a canonical field. (The strict-mode value is
   * not the reference here: the nested rules are flattened too.)
   */
  lemma GroupFieldsKept(ctx: Context, raw: Record)
    requires !ctx.strictMode && Spec(ctx, raw).Ok?
    ensures Rules.RulesSpec(ctx, RulesValue(raw)).Ok? && "id" in raw && "name" in raw && "description" in raw
    ensures var c := Canonical(ctx, raw, Rules.RulesSpec(ctx, RulesValue(raw)).value);
      forall k :: k in Fields ==> Spec(ctx, raw).value[k] == c[k]
  {
    var rules := GroupShape(ctx, raw);
    CanonicalFields(ctx, raw, rules);
    FlattenedProjectFields(Canonical(ctx, raw, rules), ProjectOf(raw), Properties(raw));
  }

  // ---------------------------------------------------------------------
  // The normalizer on its copy

  /** What the copy reads after each pop is what the caller's dict holds. */
  lemma GroupCopy(raw: Record)
    ensures var d := raw - {"security_group_rules", "rules"};
      var f := d - {"project_id", "tenant_id"};
      && ProjectOf(d) == ProjectOf(raw)
      && ("id" in f <==> "id" in raw) && ("id" in raw ==> f["id"] == raw["id"])
      && ("name" in f - {"id"} <==> "name" in raw) && ("name" in raw ==> (f - {"id"})["name"] == raw["name"])
      && ("description" in f - {"id"} - {"name"} <==> "description" in raw)
      && ("description" in raw ==> (f - {"id"} - {"name"})["description"] == raw["description"])
      && f - {"id"} - {"name"} - {"description"} == Properties(raw)
  {
    var d := raw - {"security_group_rules", "rules"};
    assert Lookup(d, "tenant_id", Str("")) == Lookup(raw, "tenant_id", Str(""));
  }

  /** `_normalize_secgroup`: it works on a copy, so the caller's dict is not modified. */
  method NormalizeSecgroup(ctx: Context, group: Dict) returns (r: Result<Record>)
    ensures r == Spec(ctx, group.entries)
  {
    var raw := group.entries;
    GroupCopy(raw);
    var d := raw;
    var rulesValue, project, id, name, description;
    rulesValue, d := PopFallback(d, "security_group_rules", "rules", List([]));
    var rules :- Rules.NormalizeRules(ctx, rulesValue);
    project, d := PopFallback(d, "project_id", "tenant_id", Str(""));

    var ret: Record := map["location" := ctx.locationOf(project, Null)];
    id, d :- Pop(d, "id");
    ret := ret["id" := id];
    name, d :- Pop(d, "name");
    ret := ret["name" := name];
    ret := ret["security_group_rules" := List(Wrapped(rules))];
    description, d :- Pop(d, "description");
    ret := ret["description" := description];
    ret := ret["properties" := Map(d)];
    assert ret == Canonical(ctx, raw, rules);

    // Backwards compatibility with neutron.
    if !ctx.strictMode {
      ret := AddProjectAliases(ret, project, d);
    }
    return Ok(ret);
  }

  /** Spec as a function value, for the list wrapper. */
  function SpecOf(ctx: Context): Record -> Result<Record> {
    raw => Spec(ctx, raw)
  }

  /** `_normalize_secgroups` */
  method NormalizeSecgroups(ctx: Context, groups: seq<Dict>) returns (r: Result<seq<Record>>)
    ensures r == MapResults(SpecOf(ctx), Entries(groups))
  {
    ghost var raws := Entries(groups);
    var ret: seq<Record> := [];
    for i := 0 to |groups|
      invariant MapResults(SpecOf(ctx), raws[..i]) == Ok(ret)
    {
      var n := NormalizeSecgroup(ctx, groups[i]);
      MapResultsStep(SpecOf(ctx), raws, i, ret);
      if n.Err? {
        MapResultsPrefixErr(SpecOf(ctx), raws, i + 1);
        return Err(n.error);
      }
      ret := ret + [n.value];
    }
    assert raws[..|groups|] == raws;
    return Ok(ret);
  }
}
