/**
 * `Normalizer._normalize_floating_ip` and `_normalize_floating_ips`
 * (shade/_normalize.py:360-441): the attributes nova's and neutron's
 * floating IPs have in common, under neutron's names.
 */
module FloatingIps {
  import opened Values
  import opened Dicts
  import opened Ambient

  /** The canonical fields of a normalized floating IP. */
  const Fields: set<string> :=
    {"attached", "fixed_ip_address", "floating_ip_address", "id", "location", "network", "port",
     "router", "status", "properties"}

  /** The legacy keys added outside strict mode. */
  const LegacyKeys: set<string> := {"port_id", "router_id", "project_id", "tenant_id", "floating_network_id"}

  /** The address and network keys, popped first. */
  const AddressKeys: set<string> :=
    {"fixed_ip_address", "fixed_ip", "floating_ip_address", "ip", "floating_network_id", "network", "pool"}

  /** The project, instance and router keys, popped next. */
  const OwnerKeys: set<string> := {"tenant_id", "project_id", "instance_id", "router_id"}

  /** The keys the normalizer pops whichever service the cloud uses. */
  const Popped: set<string> := AddressKeys + OwnerKeys + {"id", "port_id"}

  /** Every key the normalizer pops: `status` too when the floating IP comes from neutron. */
  function Claimed(neutron: bool): set<string> {
    if neutron then Popped + {"status"} else Popped
  }

  /** What the normalized floating IP keeps in `properties`: every key not popped. */
  function Properties(neutron: bool, raw: Record): Record {
    raw - Claimed(neutron)
  }

  /** `fixed_ip_address`, else nova's `fixed_ip`, else None. */
  function FixedAddress(raw: Record): Value {
    Lookup(raw, "fixed_ip_address", Lookup(raw, "fixed_ip", Null))
  }

  /** `floating_ip_address`, else nova's `ip`, else None. */
  function FloatingAddress(raw: Record): Value {
    Lookup(raw, "floating_ip_address", Lookup(raw, "ip", Null))
  }

  /** `floating_network_id`, else `network`, else nova's `pool`, else None. */
  function Network(raw: Record): Value {
    Lookup(raw, "floating_network_id", Lookup(raw, "network", Lookup(raw, "pool", Null)))
  }

  /** Attached: neutron's port, or nova's instance, is truthy. */
  function Attached(neutron: bool, raw: Record): Value {
    if neutron then Bool(Truthy(Lookup(raw, "port_id", Null)))
    else Bool(Truthy(Lookup(raw, "instance_id", Null)))
  }

  /** Neutron's status, `UNKNOWN` when absent; a nova floating IP is always `ACTIVE`. */
  function Status(neutron: bool, raw: Record): Value {
    if neutron then Lookup(raw, "status", Str("UNKNOWN")) else Str("ACTIVE")
  }

  /** The canonical record, before strict mode decides about flattening. */
  function Canonical(ctx: Context, raw: Record): Record
    requires "id" in raw
  {
    Assembled(ctx, raw, Properties(ctx.neutronFloating, raw))
  }

  /** The canonical fields read from raw, around the given properties. */
  function Assembled(ctx: Context, raw: Record, properties: Record): Record
    requires "id" in raw
  {
    map[
      "attached" := Attached(ctx.neutronFloating, raw),
      "fixed_ip_address" := FixedAddress(raw),
      "floating_ip_address" := FloatingAddress(raw),
      "id" := raw["id"],
      "location" := ctx.locationOf(ProjectOf(raw), Null),
      "network" := Network(raw),
      "port" := Lookup(raw, "port_id", Null),
      "router" := Lookup(raw, "router_id", Null),
      "status" := Status(ctx.neutronFloating, raw),
      "properties" := Map(properties)]
  }

  /** Where each canonical field comes from. */
  lemma AssembledFields(ctx: Context, raw: Record, properties: Record)
    requires "id" in raw
    ensures var c := Assembled(ctx, raw, properties);
      && c.Keys == Fields
      && c["attached"] == Attached(ctx.neutronFloating, raw)
      && c["fixed_ip_address"] == FixedAddress(raw)
      && c["floating_ip_address"] == FloatingAddress(raw)
      && c["id"] == raw["id"]
      && c["location"] == ctx.locationOf(ProjectOf(raw), Null)
      && c["network"] == Network(raw)
      && c["port"] == Lookup(raw, "port_id", Null)
      && c["router"] == Lookup(raw, "router_id", Null)
      && c["status"] == Status(ctx.neutronFloating, raw)
      && c["properties"] == Map(properties)
  {
  }

  /**
   * The legacy keys: the port, router and project under their raw names,
   * and `floating_network_id` holding the network as a one-element tuple.
   */
  function Legacy(raw: Record): Record {
    map[
      "port_id" := Lookup(raw, "port_id", Null),
      "router_id" := Lookup(raw, "router_id", Null),
      "project_id" := ProjectOf(raw),
      "tenant_id" := ProjectOf(raw),
      "floating_network_id" := Tuple([Network(raw)])]
  }

  /** The normalized floating IP, stated on the caller's dict. The only exception is a missing `id`. */
  function Spec(ctx: Context, raw: Record): Result<Record> {
    if "id" !in raw then Err(MissingKey("id"))
    else
      var canonical := Canonical(ctx, raw);
      Ok(if ctx.strictMode then canonical
         else Flattened(canonical, Legacy(raw), Properties(ctx.neutronFloating, raw)))
  }

  // ---------------------------------------------------------------------
  // What a normalized floating IP is

  /** A floating IP fails exactly when it has no `id`, with a KeyError for `id`. */
  lemma FloatingIpErrors(ctx: Context, raw: Record)
    ensures Spec(ctx, raw).Err? <==> "id" !in raw
    ensures Spec(ctx, raw).Err? ==> Spec(ctx, raw).error == MissingKey("id")
  {
  }

  /** The canonical record has the canonical fields, none of them a legacy key. */
  lemma CanonicalKeys(ctx: Context, raw: Record)
    requires "id" in raw
    ensures Canonical(ctx, raw).Keys == Fields
    ensures Fields !! LegacyKeys
  {
    AssembledFields(ctx, raw, Properties(ctx.neutronFloating, raw));
    FieldsNotLegacy();
  }

  lemma FieldsNotLegacy()
    ensures Fields !! LegacyKeys
  {
  }

  /** The legacy record has the legacy keys. */
  lemma LegacyKeysOf(raw: Record)
    ensures Legacy(raw).Keys == LegacyKeys
  {
  }

  /** A normalized floating IP is its canonical record, flattened outside strict mode. */
  lemma FloatingIpShape(ctx: Context, raw: Record)
    requires Spec(ctx, raw).Ok?
    ensures "id" in raw
    ensures Spec(ctx, raw).value ==
      if ctx.strictMode then Canonical(ctx, raw)
      else Flattened(Canonical(ctx, raw), Legacy(raw), Properties(ctx.neutronFloating, raw))
  {
  }

  /**
   * Every canonical field of the result is that of the canonical record:
   * flattening never overwrites one.
   */
  lemma FloatingIpAt(ctx: Context, raw: Record, k: string) returns (v: Record)
    requires Spec(ctx, raw).Ok? && k in Fields
    ensures Spec(ctx, raw) == Ok(v)
    ensures "id" in raw && k in Canonical(ctx, raw)
    ensures k in v && v[k] == Canonical(ctx, raw)[k]
  {
    v := Spec(ctx, raw).value;
    FloatingIpShape(ctx, raw);
    CanonicalKeys(ctx, raw);
    if !ctx.strictMode {
      LegacyKeysOf(raw);
      FlattenedKeeps(Canonical(ctx, raw), Legacy(raw), Properties(ctx.neutronFloating, raw), k);
    }
  }

  /** The value of the first of keys present in raw, else None. */
  function FirstOf(raw: Record, keys: seq<string>): Value {
    if keys == [] then Null
    else if keys[0] in raw then raw[keys[0]]
    else FirstOf(raw, keys[1..])
  }

  /** Each address, and the network, is the first of its names present, else None. */
  lemma FirstNames(raw: Record)
    ensures FixedAddress(raw) == FirstOf(raw, ["fixed_ip_address", "fixed_ip"])
    ensures FloatingAddress(raw) == FirstOf(raw, ["floating_ip_address", "ip"])
    ensures Network(raw) == FirstOf(raw, ["floating_network_id", "network", "pool"])
    ensures ProjectOf(raw) == if "project_id" in raw || "tenant_id" in raw then FirstOf(raw, ["project_id", "tenant_id"]) else Str("")
  {
    FirstOfPair(raw, "fixed_ip_address", "fixed_ip");
    FirstOfPair(raw, "floating_ip_address", "ip");
    FirstOfPair(raw, "network", "pool");
    FirstOfPair(raw, "project_id", "tenant_id");
    var keys := ["floating_network_id", "network", "pool"];
    assert keys[0] == "floating_network_id" && keys[1..] == ["network", "pool"];
  }

  lemma FirstOfPair(raw: Record, a: string, b: string)
    ensures FirstOf(raw, [a, b]) == Lookup(raw, a, Lookup(raw, b, Null))
  {
    assert [b][1..] == [];
    assert FirstOf(raw, [b]) == Lookup(raw, b, Null);
    assert [a, b][1..] == [b];
  }

  /** The fixed address: `fixed_ip_address`, else nova's `fixed_ip`, else None. */
  lemma FloatingIpFixedAddress(ctx: Context, raw: Record) returns (v: Record)
    requires Spec(ctx, raw).Ok?
    ensures Spec(ctx, raw) == Ok(v)
    ensures "fixed_ip_address" in v && v["fixed_ip_address"] == FirstOf(raw, ["fixed_ip_address", "fixed_ip"])
  {
    v := FloatingIpAt(ctx, raw, "fixed_ip_address");
    AssembledFields(ctx, raw, Properties(ctx.neutronFloating, raw));
    FirstOfPair(raw, "fixed_ip_address", "fixed_ip");
  }

  /** The floating address: `floating_ip_address`, else nova's `ip`, else None. */
  lemma FloatingIpFloatingAddress(ctx: Context, raw: Record) returns (v: Record)
    requires Spec(ctx, raw).Ok?
    ensures Spec(ctx, raw) == Ok(v)
    ensures "floating_ip_address" in v && v["floating_ip_address"] == FirstOf(raw, ["floating_ip_address", "ip"])
  {
    v := FloatingIpAt(ctx, raw, "floating_ip_address");
    AssembledFields(ctx, raw, Properties(ctx.neutronFloating, raw));
    FirstOfPair(raw, "floating_ip_address", "ip");
  }

  /** The network: `floating_network_id`, else `network`, else `pool`, else None. */
  lemma FloatingIpNetwork(ctx: Context, raw: Record) returns (v: Record)
    requires Spec(ctx, raw).Ok?
    ensures Spec(ctx, raw) == Ok(v)
    ensures "network" in v && v["network"] == FirstOf(raw, ["floating_network_id", "network", "pool"])
  {
    v := FloatingIpAt(ctx, raw, "network");
    AssembledFields(ctx, raw, Properties(ctx.neutronFloating, raw));
    FirstNames(raw);
  }

  /** A neutron floating IP is attached when its port is set; a nova one when its instance is set. */
  lemma AttachedMeaning(neutron: bool, raw: Record)
    ensures Attached(neutron, raw).Bool?
    ensures neutron ==> (Attached(neutron, raw).b <==> "port_id" in raw && Truthy(raw["port_id"]))
    ensures !neutron ==> (Attached(neutron, raw).b <==> "instance_id" in raw && Truthy(raw["instance_id"]))
  {
  }

  /** `attached` is `bool()` of the port (neutron) or of the instance (nova), None when absent. */
  lemma FloatingIpAttached(ctx: Context, raw: Record) returns (v: Record)
    requires Spec(ctx, raw).Ok?
    ensures Spec(ctx, raw) == Ok(v)
    ensures "attached" in v
    ensures ctx.neutronFloating ==> v["attached"] == Bool(Truthy(Lookup(raw, "port_id", Null)))
    ensures !ctx.neutronFloating ==> v["attached"] == Bool(Truthy(Lookup(raw, "instance_id", Null)))
  {
    v := FloatingIpAt(ctx, raw, "attached");
    AssembledFields(ctx, raw, Properties(ctx.neutronFloating, raw));
  }

  /** A neutron floating IP keeps its status, `UNKNOWN` when absent; a nova one is `ACTIVE`. */
  lemma FloatingIpStatus(ctx: Context, raw: Record) returns (v: Record)
    requires Spec(ctx, raw).Ok?
    ensures Spec(ctx, raw) == Ok(v)
    ensures "status" in v
    ensures ctx.neutronFloating && "status" in raw ==> v["status"] == raw["status"]
    ensures ctx.neutronFloating && "status" !in raw ==> v["status"] == Str("UNKNOWN")
    ensures !ctx.neutronFloating ==> v["status"] == Str("ACTIVE")
  {
    v := FloatingIpAt(ctx, raw, "status");
    AssembledFields(ctx, raw, Properties(ctx.neutronFloating, raw));
  }

  /** `id` is copied, and the port and router are copied (None when absent). */
  lemma FloatingIpLinks(ctx: Context, raw: Record) returns (v: Record)
    requires Spec(ctx, raw).Ok?
    ensures Spec(ctx, raw) == Ok(v)
    ensures "id" in raw && "id" in v && v["id"] == raw["id"]
    ensures "port" in v && v["port"] == Lookup(raw, "port_id", Null)
    ensures "router" in v && v["router"] == Lookup(raw, "router_id", Null)
  {
    v := FloatingIpAt(ctx, raw, "id");
    v := FloatingIpAt(ctx, raw, "port");
    v := FloatingIpAt(ctx, raw, "router");
    AssembledFields(ctx, raw, Properties(ctx.neutronFloating, raw));
  }

  /** The location is that of the project: `project_id`, else `tenant_id`, else empty. */
  lemma FloatingIpLocation(ctx: Context, raw: Record) returns (v: Record)
    requires Spec(ctx, raw).Ok?
    ensures Spec(ctx, raw) == Ok(v)
    ensures "location" in v
    ensures "project_id" in raw || "tenant_id" in raw ==>
      v["location"] == ctx.locationOf(FirstOf(raw, ["project_id", "tenant_id"]), Null)
    ensures "project_id" !in raw && "tenant_id" !in raw ==> v["location"] == ctx.locationOf(Str(""), Null)
  {
    v := FloatingIpAt(ctx, raw, "location");
    AssembledFields(ctx, raw, Properties(ctx.neutronFloating, raw));
    FirstNames(raw);
  }

  /** A nova floating IP's `status` is not popped, so it stays among the properties; neutron's is popped. */
  lemma StatusProperty(neutron: bool, raw: Record)
    ensures !neutron && "status" in raw ==> "status" in Properties(neutron, raw) && Properties(neutron, raw)["status"] == raw["status"]
    ensures neutron ==> "status" !in Properties(neutron, raw)
  {
    assert "status" !in Popped;
  }

  /** `properties` holds every key not popped, a nova floating IP's `status` among them. */
  lemma FloatingIpProperties(ctx: Context, raw: Record) returns (v: Record)
    requires Spec(ctx, raw).Ok?
    ensures Spec(ctx, raw) == Ok(v)
    ensures "properties" in v && v["properties"] == Map(raw - Claimed(ctx.neutronFloating))
    ensures !ctx.neutronFloating && "status" in raw ==>
      "status" in v["properties"].fields && v["properties"].fields["status"] == raw["status"]
    ensures ctx.neutronFloating ==> "status" !in v["properties"].fields
  {
    v := FloatingIpAt(ctx, raw, "properties");
    AssembledFields(ctx, raw, Properties(ctx.neutronFloating, raw));
    StatusProperty(ctx.neutronFloating, raw);
  }

  /** In strict mode the floating IP has exactly the canonical fields. */
  lemma FloatingIpStrictKeys(ctx: Context, raw: Record)
    requires ctx.strictMode && Spec(ctx, raw).Ok?
    ensures Spec(ctx, raw).value.Keys == Fields
  {
    CanonicalKeys(ctx, raw);
  }

  /**
   * Outside strict mode the legacy keys are added (the network as a
   * one-element tuple) and every property becomes a top-level key unless a
   * field or legacy key already has its name.
   */
  lemma FloatingIpFlattening(ctx: Context, raw: Record) returns (v: Record)
    requires !ctx.strictMode && Spec(ctx, raw).Ok?
    ensures Spec(ctx, raw) == Ok(v)
    ensures v.Keys == Fields + LegacyKeys + Properties(ctx.neutronFloating, raw).Keys
    ensures forall k :: k in Properties(ctx.neutronFloating, raw) && k !in Fields && k !in LegacyKeys ==>
      v[k] == raw[k]
  {
    v := Spec(ctx, raw).value;
    CanonicalKeys(ctx, raw);
    LegacyKeysOf(raw);
    FlattenedFields(Canonical(ctx, raw), Legacy(raw), Properties(ctx.neutronFloating, raw));
  }

  /** The legacy values: the port, router and project under their raw names, the network as a one-element tuple. */
  lemma LegacyFields(raw: Record)
    ensures var l := Legacy(raw);
      && l.Keys == LegacyKeys
      && l["port_id"] == Lookup(raw, "port_id", Null) && l["router_id"] == Lookup(raw, "router_id", Null)
      && l["project_id"] == ProjectOf(raw) && l["tenant_id"] == ProjectOf(raw)
      && l["floating_network_id"] == Tuple([Network(raw)])
  {
  }

  /**
   * Outside strict mode the port, router and project are also stored under
   * their raw names, and `floating_network_id` holds the network as a
   * one-element tuple.
   */
  lemma FloatingIpLegacy(ctx: Context, raw: Record) returns (v: Record)
    requires !ctx.strictMode && Spec(ctx, raw).Ok?
    ensures Spec(ctx, raw) == Ok(v)
    ensures "port_id" in v && v["port_id"] == Lookup(raw, "port_id", Null)
    ensures "router_id" in v && v["router_id"] == Lookup(raw, "router_id", Null)
    ensures "project_id" in v && v["project_id"] == ProjectOf(raw)
    ensures "tenant_id" in v && v["tenant_id"] == ProjectOf(raw)
    ensures "floating_network_id" in v && v["floating_network_id"] == Tuple([Network(raw)])
  {
    v := Spec(ctx, raw).value;
    CanonicalKeys(ctx, raw);
    LegacyFields(raw);
    FlattenedFields(Canonical(ctx, raw), Legacy(raw), Properties(ctx.neutronFloating, raw));
  }

  /**
   * `floating_network_id` is set to a tuple holding the network rather than
   * the network itself (a trailing comma in the source): it never equals the
   * `network` field.
   */
  lemma FloatingNetworkIdIsTuple(ctx: Context, raw: Record)
    requires !ctx.strictMode && Spec(ctx, raw).Ok?
    ensures "network" in Spec(ctx, raw).value && "floating_network_id" in Spec(ctx, raw).value
    ensures Spec(ctx, raw).value["floating_network_id"] != Spec(ctx, raw).value["network"]
  {
    var v := FloatingIpLegacy(ctx, raw);
    v := FloatingIpAt(ctx, raw, "network");
    AssembledFields(ctx, raw, Properties(ctx.neutronFloating, raw));
    TupleNotItem(Network(raw));
  }

  lemma TupleNotItem(x: Value)
    ensures Tuple([x]) != x
  {
    assert [x][0] == x;
    assert x < Tuple([x]);
  }

  // ---------------------------------------------------------------------
  // The normalizer on its copy

  /** The address fields: `x.pop(a, x.pop(b, None))` pops both names. */
  method PopAddresses(raw: Record) returns (fixed: Value, floating: Value, network: Value, rest: Record)
    ensures fixed == FixedAddress(raw) && floating == FloatingAddress(raw) && network == Network(raw)
    ensures rest == raw - AddressKeys
  {
    fixed, rest := PopFallback(raw, "fixed_ip_address", "fixed_ip", Null);
    floating, rest := PopFallback(rest, "floating_ip_address", "ip", Null);
    FallbackMinus(raw, {"fixed_ip_address", "fixed_ip"}, "floating_ip_address", "ip", Null);
    MinusMinus(raw, {"fixed_ip_address", "fixed_ip"}, {"floating_ip_address", "ip"});
    network, rest := PopFallback(rest, "network", "pool", Null);
    MinusMinus(raw, {"fixed_ip_address", "fixed_ip", "floating_ip_address", "ip"}, {"network", "pool"});
    network, rest := PopOr(rest, "floating_network_id", network);
    MinusMinus(raw, {"fixed_ip_address", "fixed_ip", "floating_ip_address", "ip", "network", "pool"}, {"floating_network_id"});
  }

  /** The project (`project_id`, else `tenant_id`, else empty), then the instance and the router. */
  method PopOwners(d: Record) returns (project: Value, instance: Value, router: Value, rest: Record)
    ensures project == ProjectOf(d)
    ensures instance == Lookup(d, "instance_id", Null) && router == Lookup(d, "router_id", Null)
    ensures rest == d - OwnerKeys
  {
    project, rest := PopFallback(d, "project_id", "tenant_id", Str(""));
    instance, rest := PopOr(rest, "instance_id", Null);
    router, rest := PopOr(rest, "router_id", Null);
  }

  /** What the owner pops read from the copy is what the caller's dict holds. */
  lemma OwnerCopy(raw: Record)
    ensures var d := raw - AddressKeys;
      && ProjectOf(d) == ProjectOf(raw)
      && Lookup(d, "instance_id", Null) == Lookup(raw, "instance_id", Null)
      && Lookup(d, "router_id", Null) == Lookup(raw, "router_id", Null)
  {
  }

  /** What the last pops read from the copy is what the caller's dict holds. */
  lemma LinkCopy(raw: Record)
    ensures var d := raw - AddressKeys - OwnerKeys;
      && ("id" in d <==> "id" in raw) && ("id" in raw ==> d["id"] == raw["id"])
      && Lookup(d - {"id"}, "port_id", Null) == Lookup(raw, "port_id", Null)
      && Lookup(d - {"id"} - {"port_id"}, "status", Str("UNKNOWN")) == Lookup(raw, "status", Str("UNKNOWN"))
      && d - {"id"} - {"port_id"} == raw - Popped
  {
    var d := raw - AddressKeys - OwnerKeys;
    MinusMinus(raw, AddressKeys, OwnerKeys);
    MinusMinus(d, {"id"}, {"port_id"});
    MinusMinus(raw, AddressKeys + OwnerKeys, {"id", "port_id"});
  }

  /** `_normalize_floating_ip`: it works on a copy, so the caller's dict is not modified. */
  method NormalizeFloatingIp(ctx: Context, ip: Dict) returns (r: Result<Record>)
    ensures r == Spec(ctx, ip.entries)
  {
    var raw := ip.entries;
    var fixed, floating, network, d := PopAddresses(raw);
    OwnerCopy(raw);
    var project, instance, router;
    project, instance, router, d := PopOwners(d);
    LinkCopy(raw);
    var id, port;
    id, d :- Pop(d, "id");
    port, d := PopOr(d, "port_id", Null);

    var attached, status;
    if ctx.neutronFloating {
      attached := Bool(Truthy(port));
      status, d := PopOr(d, "status", Str("UNKNOWN"));
      MinusMinus(raw, Popped, {"status"});
    } else {
      attached := Bool(Truthy(instance));
      status := Str("ACTIVE");
    }
    assert attached == Attached(ctx.neutronFloating, raw) && status == Status(ctx.neutronFloating, raw);
    assert d == Properties(ctx.neutronFloating, raw);

    var ret: Record := map[
      "attached" := attached,
      "fixed_ip_address" := fixed,
      "floating_ip_address" := floating,
      "id" := id,
      "location" := ctx.locationOf(project, Null),
      "network" := network,
      "port" := port,
      "router" := router,
      "status" := status,
      "properties" := Map(d)];
    assert ret == Assembled(ctx, raw, d);

    // Backwards compatibility.
    if !ctx.strictMode {
      ret := AddLegacy(ret, raw, port, router, project, network, d);
    }
    return Ok(ret);
  }

  /** The legacy keys assigned over the record, then `setdefault` of every property. */
  method AddLegacy(ret: Record, ghost raw: Record, port: Value, router: Value, project: Value, network: Value,
                   properties: Record) returns (r: Record)
    requires port == Lookup(raw, "port_id", Null) && router == Lookup(raw, "router_id", Null)
    requires project == ProjectOf(raw) && network == Network(raw)
    ensures r == Flattened(ret, Legacy(raw), properties)
  {
    r := ret["port_id" := port];
    assert r == ret + map["port_id" := port];
    UnionUpdate(ret, map["port_id" := port], "router_id", router);
    r := r["router_id" := router];
    UnionUpdate(ret, map["port_id" := port, "router_id" := router], "project_id", project);
    r := r["project_id" := project];
    UnionUpdate(ret, map["port_id" := port, "router_id" := router, "project_id" := project], "tenant_id", project);
    r := r["tenant_id" := project];
    UnionUpdate(ret, map["port_id" := port, "router_id" := router, "project_id" := project, "tenant_id" := project],
                "floating_network_id", Tuple([network]));
    r := r["floating_network_id" := Tuple([network])];
    r := SetDefaults(r, properties);
  }

  /** Spec as a function value, for the list wrapper. */
  function SpecOf(ctx: Context): Record -> Result<Record> {
    raw => Spec(ctx, raw)
  }

  /** `_normalize_floating_ips` */
  method NormalizeFloatingIps(ctx: Context, ips: seq<Dict>) returns (r: Result<seq<Record>>)
    ensures r == MapResults(SpecOf(ctx), Entries(ips))
  {
    ghost var raws := Entries(ips);
    var ret: seq<Record> := [];
    for i := 0 to |ips|
      invariant MapResults(SpecOf(ctx), raws[..i]) == Ok(ret)
    {
      var n := NormalizeFloatingIp(ctx, ips[i]);
      MapResultsStep(SpecOf(ctx), raws, i, ret);
      if n.Err? {
        MapResultsPrefixErr(SpecOf(ctx), raws, i + 1);
        return Err(n.error);
      }
      ret := ret + [n.value];
    }
    assert raws[..|ips|] == raws;
    return Ok(ret);
  }
}
