/**
 * `Normalizer._normalize_secgroup_rule` and `_normalize_secgroup_rules`
 * (shade/_normalize.py:222-276): nova's security-group rules rewritten in
 * neutron's terms.
 */
module Rules {
  import opened Values
  import opened Dicts
  import opened Ambient

  /** The canonical fields of a normalized rule. */
  const Fields: set<string> :=
    {"id", "direction", "ethertype", "port_range_min", "port_range_max", "protocol",
     "remote_ip_prefix", "security_group_id", "remote_group_id", "location", "properties"}

  /** The keys the port block reads. */
  const PortKeys: set<string> := {"port_range_min", "from_port", "port_range_max", "to_port"}

  /** The keys the protocol and peer block reads. */
  const PeerKeys: set<string> :=
    {"protocol", "ip_protocol", "remote_ip_prefix", "ip_range", "security_group_id",
     "parent_group_id", "remote_group_id"}

  /**
   * Every key the normalizer pops from its copy. `port_range_min` is only
   * read with `get`, so it is not among them.
   */
  const Claimed: set<string> :=
    {"id", "direction", "ethertype", "from_port", "port_range_max", "to_port",
     "protocol", "ip_protocol", "remote_ip_prefix", "ip_range", "security_group_id",
     "parent_group_id", "remote_group_id", "tenant_id", "project_id"}

  /** Python's `v == -1`: nova's "any port". */
  predicate AnyPort(v: Value) {
    v == Int(-1) || v == Real(-1.0)
  }

  /** The lower bound: -1 and None give None, anything else goes through `int()`. */
  function PortNumber(v: Value): (r: Result<Value>)
    ensures r.Ok? ==> r.value.Null? || r.value.Int?
    ensures AnyPort(v) || v.Null? ==> r == Ok(Null)
    ensures !AnyPort(v) && !v.Null? ==> r == (if PyInt(v).Ok? then Ok(Int(PyInt(v).value)) else Err(NotANumber(v)))
  {
    if AnyPort(v) || v.Null? then Ok(Null)
    else
      var n :- PyInt(v);
      Ok(Int(n))
  }

  datatype Ports = Ports(min: Value, max: Value)

  /**
   * The port range: each bound falls back from its neutron key to its nova
   * key, and -1 becomes None. Only the lower bound is converted with `int()`.
   */
  function PortsOf(d: Record): Result<Ports> {
    var min :- PortNumber(Lookup(d, "port_range_min", Lookup(d, "from_port", Null)));
    var max := Lookup(d, "port_range_max", Lookup(d, "to_port", Null));
    Ok(Ports(min, if AnyPort(max) then Null else max))
  }

  datatype Peers = Peers(protocol: Value, remoteIpPrefix: Value, securityGroupId: Value, remoteGroupId: Value)

  /**
   * The protocol and the peers, each neutron key falling back to its nova
   * key. The nova `ip_range` is read with `.get('cidr')`, so it must be a
   * dict whether or not `remote_ip_prefix` is present.
   */
  function PeersOf(d: Record): Result<Peers> {
    var range := Lookup(d, "ip_range", Map(map[]));
    if !range.Map? then Err(WrongType("ip_range"))
    else
      Ok(Peers(
        Lookup(d, "protocol", Lookup(d, "ip_protocol", Null)),
        Lookup(d, "remote_ip_prefix", Lookup(range.fields, "cidr", Null)),
        Lookup(d, "security_group_id", Lookup(d, "parent_group_id", Null)),
        Lookup(d, "remote_group_id", Null)))
  }

  /** What the normalized rule keeps in `properties`: every key not popped. */
  function Properties(raw: Record): Record {
    raw - Claimed
  }

  /** The canonical record, before strict mode decides about flattening. */
  function Canonical(ctx: Context, raw: Record, ports: Ports, peers: Peers): Record
    requires "id" in raw
  {
    map[
      "id" := raw["id"],
      "direction" := Lookup(raw, "direction", Str("ingress")),
      "ethertype" := Lookup(raw, "ethertype", Str("IPv4")),
      "port_range_min" := ports.min,
      "port_range_max" := ports.max,
      "protocol" := peers.protocol,
      "remote_ip_prefix" := peers.remoteIpPrefix,
      "security_group_id" := peers.securityGroupId,
      "remote_group_id" := peers.remoteGroupId,
      "location" := ctx.locationOf(ProjectOf(raw), Null),
      "properties" := Map(Properties(raw))]
  }

  /** Assigned one by one in the normalizer's order, the fields make up Canonical. */
  lemma CanonicalInOrder(ctx: Context, raw: Record, ports: Ports, peers: Peers,
                         id: Value, direction: Value, ethertype: Value, project: Value, properties: Record)
    requires "id" in raw && id == raw["id"] && project == ProjectOf(raw) && properties == Properties(raw)
    requires direction == Lookup(raw, "direction", Str("ingress")) && ethertype == Lookup(raw, "ethertype", Str("IPv4"))
    ensures map["id" := id]["direction" := direction]["ethertype" := ethertype]
      ["port_range_min" := ports.min]["port_range_max" := ports.max]["protocol" := peers.protocol]
      ["remote_ip_prefix" := peers.remoteIpPrefix]["security_group_id" := peers.securityGroupId]
      ["remote_group_id" := peers.remoteGroupId]["location" := ctx.locationOf(project, Null)]
      ["properties" := Map(properties)]
      == Canonical(ctx, raw, ports, peers)
  {
  }

  /**
   * The normalized rule, stated on the rule dict it is given. Exceptions
   * come in source order: a missing `id`, a lower bound `int()` rejects,
   * then an `ip_range` that is not a dict.
   */
  function Spec(ctx: Context, raw: Record): Result<Record> {
    if "id" !in raw then Err(MissingKey("id"))
    else
      var ports :- PortsOf(raw);
      var peers :- PeersOf(raw);
      var canonical := Canonical(ctx, raw, ports, peers);
      Ok(if ctx.strictMode then canonical
         else Flattened(canonical, ProjectAliases(ProjectOf(raw)), Properties(raw)))
  }

  // ---------------------------------------------------------------------
  // What a normalized rule is

  /** A rule fails exactly on a missing `id`, an unconvertible lower bound or a non-dict `ip_range`. */
  lemma RuleErrors(ctx: Context, raw: Record)
    ensures Spec(ctx, raw).Err? <==> "id" !in raw || PortsOf(raw).Err? || PeersOf(raw).Err?
    ensures "id" !in raw ==> Spec(ctx, raw) == Err(MissingKey("id"))
    ensures "id" in raw && PortsOf(raw).Err? ==> Spec(ctx, raw).error.NotANumber?
    ensures "id" in raw && PortsOf(raw).Ok? && PeersOf(raw).Err? ==> Spec(ctx, raw) == Err(WrongType("ip_range"))
    ensures PeersOf(raw).Err? <==> "ip_range" in raw && !raw["ip_range"].Map?
  {
  }

  /** The canonical record has the canonical fields, each holding its stage's result. */
  lemma CanonicalFields(ctx: Context, raw: Record, ports: Ports, peers: Peers)
    requires "id" in raw
    ensures var c := Canonical(ctx, raw, ports, peers);
      && c.Keys == Fields && "tenant_id" !in c && "project_id" !in c
      && c["id"] == raw["id"]
      && c["direction"] == Lookup(raw, "direction", Str("ingress"))
      && c["ethertype"] == Lookup(raw, "ethertype", Str("IPv4"))
      && c["port_range_min"] == ports.min && c["port_range_max"] == ports.max
      && c["protocol"] == peers.protocol && c["remote_ip_prefix"] == peers.remoteIpPrefix
      && c["security_group_id"] == peers.securityGroupId && c["remote_group_id"] == peers.remoteGroupId
      && c["location"] == ctx.locationOf(ProjectOf(raw), Null)
      && c["properties"] == Map(Properties(raw))
  {
  }

  /** A normalized rule is its canonical record, flattened outside strict mode. */
  lemma RuleShape(ctx: Context, raw: Record) returns (ports: Ports, peers: Peers)
    requires Spec(ctx, raw).Ok?
    ensures "id" in raw && PortsOf(raw) == Ok(ports) && PeersOf(raw) == Ok(peers)
    ensures var c := Canonical(ctx, raw, ports, peers);
      Spec(ctx, raw).value ==
        if ctx.strictMode then c else Flattened(c, ProjectAliases(ProjectOf(raw)), Properties(raw))
  {
    ports, peers := PortsOf(raw).value, PeersOf(raw).value;
  }

  /** In strict mode the rule has exactly the canonical fields. */
  lemma RuleStrictKeys(ctx: Context, raw: Record)
    requires ctx.strictMode && Spec(ctx, raw).Ok?
    ensures Spec(ctx, raw).value.Keys == Fields
  {
    var ports, peers := RuleShape(ctx, raw);
    CanonicalFields(ctx, raw, ports, peers);
  }

  /**
   * Outside strict mode the project aliases are added and every property
   * becomes a top-level key.
   */
  lemma RuleFlattening(ctx: Context, raw: Record)
    requires !ctx.strictMode && Spec(ctx, raw).Ok?
    ensures var v := Spec(ctx, raw).value;
      && v.Keys == Fields + {"tenant_id", "project_id"} + Properties(raw).Keys
      && v["tenant_id"] == ProjectOf(raw) && v["project_id"] == ProjectOf(raw)
  {
    var ports, peers := RuleShape(ctx, raw);
    var c := Canonical(ctx, raw, ports, peers);
    CanonicalFields(ctx, raw, ports, peers);
    FlattenedProjectFields(c, ProjectOf(raw), Properties(raw));
  }

  /** A property that is neither a canonical field nor an alias keeps its value at the top level. */
  lemma RulePropertiesFlattened(ctx: Context, raw: Record)
    requires !ctx.strictMode && Spec(ctx, raw).Ok?
    ensures forall k :: k in Properties(raw) && k !in Fields && k !in {"tenant_id", "project_id"} ==>
      k in Spec(ctx, raw).value && Spec(ctx, raw).value[k] == raw[k]
  {
    var ports, peers := RuleShape(ctx, raw);
    var c := Canonical(ctx, raw, ports, peers);
    CanonicalFields(ctx, raw, ports, peers);
    FlattenedProjectFields(c, ProjectOf(raw), Properties(raw));
  }

  /** Flattening never overwrites a canonical field: each keeps its strict-mode value. */
  lemma RuleFieldsKept(ctx: Context, raw: Record)
    requires !ctx.strictMode && Spec(ctx, raw).Ok?
    ensures Spec(ctx.(strictMode := true), raw).Ok?
    ensures forall k :: k in Fields ==> Spec(ctx, raw).value[k] == Spec(ctx.(strictMode := true), raw).value[k]
  {
    var strict := ctx.(strictMode := true);
    var ports, peers := RuleShape(ctx, raw);
    var c := Canonical(ctx, raw, ports, peers);
    CanonicalFields(ctx, raw, ports, peers);
    FlattenedProjectFields(c, ProjectOf(raw), Properties(raw));
    assert Canonical(strict, raw, ports, peers) == c;
    ports, peers := RuleShape(strict, raw);
  }

  /** `direction` defaults to ingress, `ethertype` to IPv4; `id` is copied. */
  lemma RuleDefaults(ctx: Context, raw: Record)
    requires Spec(ctx, raw).Ok?
    ensures "id" in raw && Spec(ctx, raw).value["id"] == raw["id"]
    ensures Spec(ctx, raw).value["direction"] == if "direction" in raw then raw["direction"] else Str("ingress")
    ensures Spec(ctx, raw).value["ethertype"] == if "ethertype" in raw then raw["ethertype"] else Str("IPv4")
  {
    var ports, peers := RuleShape(ctx, raw);
    CanonicalFields(ctx, raw, ports, peers);
  }

  /**
   * The port range: the neutron key wins over the nova key, -1 means any
   * port and becomes None, and only the lower bound is converted with
   * `int()`; any other upper bound is passed through unconverted.
   */
  lemma RulePorts(ctx: Context, raw: Record)
    requires Spec(ctx, raw).Ok?
    ensures var min := Lookup(raw, "port_range_min", Lookup(raw, "from_port", Null));
      var v := Spec(ctx, raw).value["port_range_min"];
      && (AnyPort(min) || min.Null? ==> v == Null)
      && (!AnyPort(min) && !min.Null? ==> PyInt(min).Ok? && v == Int(PyInt(min).value))
    ensures var max := Lookup(raw, "port_range_max", Lookup(raw, "to_port", Null));
      var v := Spec(ctx, raw).value["port_range_max"];
      && (AnyPort(max) ==> v == Null)
      && (!AnyPort(max) ==> v == max)
  {
    var ports, peers := RuleShape(ctx, raw);
    CanonicalFields(ctx, raw, ports, peers);
  }

  /**
   * An upper bound given as the string of a port number stays a string,
   * while the same string as a lower bound becomes that number.
   */
  lemma UpperBoundNotConverted(ctx: Context, n: int)
    ensures var raw := map["id" := Str("r"), "from_port" := Str(ShowInt(n)), "to_port" := Str(ShowInt(n))];
      && Spec(ctx, raw).Ok?
      && Spec(ctx, raw).value["port_range_min"] == Int(n)
      && Spec(ctx, raw).value["port_range_max"] == Str(ShowInt(n))
  {
    var raw := map["id" := Str("r"), "from_port" := Str(ShowInt(n)), "to_port" := Str(ShowInt(n))];
    ParseShowInt(n);
    assert PortsOf(raw) == Ok(Ports(Int(n), Str(ShowInt(n))));
    RulePorts(ctx, raw);
  }

  /**
   * The protocol and peers: each neutron key wins over its nova key;
   * without `remote_ip_prefix` the prefix is the `cidr` of the nova
   * `ip_range`.
   */
  lemma RulePeers(ctx: Context, raw: Record)
    requires Spec(ctx, raw).Ok?
    ensures var v := Spec(ctx, raw).value;
      && v["protocol"] == Lookup(raw, "protocol", Lookup(raw, "ip_protocol", Null))
      && v["security_group_id"] == Lookup(raw, "security_group_id", Lookup(raw, "parent_group_id", Null))
      && v["remote_group_id"] == Lookup(raw, "remote_group_id", Null)
    ensures "remote_ip_prefix" in raw ==> Spec(ctx, raw).value["remote_ip_prefix"] == raw["remote_ip_prefix"]
    ensures "remote_ip_prefix" !in raw && "ip_range" in raw ==>
      raw["ip_range"].Map? && Spec(ctx, raw).value["remote_ip_prefix"] == Lookup(raw["ip_range"].fields, "cidr", Null)
    ensures "remote_ip_prefix" !in raw && "ip_range" !in raw ==> Spec(ctx, raw).value["remote_ip_prefix"] == Null
  {
    var ports, peers := RuleShape(ctx, raw);
    CanonicalFields(ctx, raw, ports, peers);
  }

  /**
   * `properties` holds every key not popped, with its value: both the
   * neutron and the nova name of a field are removed, but
   * `port_range_min` stays because it is only read.
   */
  lemma RuleProperties(ctx: Context, raw: Record)
    requires Spec(ctx, raw).Ok?
    ensures Spec(ctx, raw).value["properties"] == Map(raw - Claimed)
  {
    var ports, peers := RuleShape(ctx, raw);
    CanonicalFields(ctx, raw, ports, peers);
    if !ctx.strictMode {
      FlattenedKeeps(Canonical(ctx, raw, ports, peers), ProjectAliases(ProjectOf(raw)), Properties(raw), "properties");
    }
  }

  /** The location is that of the rule's project: `project_id`, else `tenant_id`, else empty. */
  lemma RuleLocation(ctx: Context, raw: Record)
    requires Spec(ctx, raw).Ok?
    ensures "project_id" in raw ==> Spec(ctx, raw).value["location"] == ctx.locationOf(raw["project_id"], Null)
    ensures "project_id" !in raw && "tenant_id" in raw ==>
      Spec(ctx, raw).value["location"] == ctx.locationOf(raw["tenant_id"], Null)
    ensures "project_id" !in raw && "tenant_id" !in raw ==>
      Spec(ctx, raw).value["location"] == ctx.locationOf(Str(""), Null)
  {
    var ports, peers := RuleShape(ctx, raw);
    CanonicalFields(ctx, raw, ports, peers);
  }

  // ---------------------------------------------------------------------
  // The normalizer, stage by stage on its copy

  /** The port block: pops `from_port`, reads `port_range_min`, pops the upper bound. */
  method PopPorts(d: Record) returns (r: Result<Ports>, rest: Record)
    ensures r == PortsOf(d)
    ensures r.Ok? ==> rest == d - {"from_port", "port_range_max", "to_port"}
  {
    assert Lookup(d - {"from_port"}, "port_range_min", Lookup(d, "from_port", Null))
      == Lookup(d, "port_range_min", Lookup(d, "from_port", Null));
    assert Lookup(d - {"from_port"}, "port_range_max", Lookup(d - {"from_port"}, "to_port", Null))
      == Lookup(d, "port_range_max", Lookup(d, "to_port", Null));
    assert d - {"from_port"} - {"port_range_max", "to_port"} == d - {"from_port", "port_range_max", "to_port"};

    var fromPort, min, max;
    fromPort, rest := PopOr(d, "from_port", Null);
    min := Lookup(rest, "port_range_min", fromPort);
    if AnyPort(min) {
      min := Null;
    }
    if min != Null {
      var n :- PyInt(min);
      min := Int(n);
    }
    max, rest := PopFallback(rest, "port_range_max", "to_port", Null);
    if AnyPort(max) {
      max := Null;
    }
    // The source's second conversion re-converts the lower bound, already an int.
    if min != Null {
      min := Int(PyInt(min).value);
    }
    r := Ok(Ports(min, max));
  }

  /** The protocol and peer block. */
  method PopPeers(d: Record) returns (r: Result<Peers>, rest: Record)
    ensures r == PeersOf(d)
    ensures r.Ok? ==> rest == d - PeerKeys
  {
    ghost var c := d - {"protocol", "ip_protocol"};
    assert Lookup(c, "ip_range", Map(map[])) == Lookup(d, "ip_range", Map(map[]));
    assert c - {"ip_range"} - {"remote_ip_prefix"} - {"security_group_id", "parent_group_id"} - {"remote_group_id"}
      == d - PeerKeys;

    var protocol, range, prefix, group, remote;
    protocol, rest := PopFallback(d, "protocol", "ip_protocol", Null);
    range, rest := PopOr(rest, "ip_range", Map(map[]));
    if !range.Map? {
      r := Err(WrongType("ip_range"));
      return;
    }
    assert Lookup(c - {"ip_range"}, "remote_ip_prefix", Lookup(range.fields, "cidr", Null))
      == Lookup(d, "remote_ip_prefix", Lookup(range.fields, "cidr", Null));
    prefix, rest := PopOr(rest, "remote_ip_prefix", Lookup(range.fields, "cidr", Null));
    assert Lookup(c - {"ip_range"} - {"remote_ip_prefix"}, "security_group_id",
        Lookup(c - {"ip_range"} - {"remote_ip_prefix"}, "parent_group_id", Null))
      == Lookup(d, "security_group_id", Lookup(d, "parent_group_id", Null));
    group, rest := PopFallback(rest, "security_group_id", "parent_group_id", Null);
    assert Lookup(c - {"ip_range"} - {"remote_ip_prefix"} - {"security_group_id", "parent_group_id"}, "remote_group_id", Null)
      == Lookup(d, "remote_group_id", Null);
    remote, rest := PopOr(rest, "remote_group_id", Null);
    r := Ok(Peers(protocol, prefix, group, remote));
  }

  // What the copy reads at each stage is what the rule dict holds.

  lemma PortsOfMinus(d: Record, gone: set<string>)
    requires gone !! PortKeys
    ensures PortsOf(d - gone) == PortsOf(d)
  {
    assert Lookup(d - gone, "port_range_min", Lookup(d - gone, "from_port", Null))
      == Lookup(d, "port_range_min", Lookup(d, "from_port", Null));
    assert Lookup(d - gone, "port_range_max", Lookup(d - gone, "to_port", Null))
      == Lookup(d, "port_range_max", Lookup(d, "to_port", Null));
  }

  lemma PeersOfMinus(d: Record, gone: set<string>)
    requires gone !! PeerKeys
    ensures PeersOf(d - gone) == PeersOf(d)
  {
    assert Lookup(d - gone, "ip_range", Map(map[])) == Lookup(d, "ip_range", Map(map[]));
    forall v: Value
      ensures Lookup(d - gone, "remote_ip_prefix", v) == Lookup(d, "remote_ip_prefix", v)
    {
    }
    assert Lookup(d - gone, "security_group_id", Lookup(d - gone, "parent_group_id", Null))
      == Lookup(d, "security_group_id", Lookup(d, "parent_group_id", Null));
    assert Lookup(d - gone, "protocol", Lookup(d - gone, "ip_protocol", Null))
      == Lookup(d, "protocol", Lookup(d, "ip_protocol", Null));
    assert Lookup(d - gone, "remote_group_id", Null) == Lookup(d, "remote_group_id", Null);
  }

  lemma RuleCopy(raw: Record)
    ensures var head := raw - {"id"} - {"direction"} - {"ethertype"};
      && PortsOf(head) == PortsOf(raw)
      && PeersOf(head - {"from_port", "port_range_max", "to_port"}) == PeersOf(raw)
  {
    var head := raw - {"id"} - {"direction"} - {"ethertype"};
    assert head == raw - {"id", "direction", "ethertype"};
    PortsOfMinus(raw, {"id", "direction", "ethertype"});
    assert head - {"from_port", "port_range_max", "to_port"}
      == raw - {"id", "direction", "ethertype", "from_port", "port_range_max", "to_port"};
    PeersOfMinus(raw, {"id", "direction", "ethertype", "from_port", "port_range_max", "to_port"});
  }

  lemma RuleCopyTail(raw: Record)
    ensures var tail := raw - {"id"} - {"direction"} - {"ethertype"} - {"from_port", "port_range_max", "to_port"} - PeerKeys;
      && ProjectOf(tail) == ProjectOf(raw)
      && tail - {"project_id", "tenant_id"} == Properties(raw)
  {
    var tail := raw - {"id"} - {"direction"} - {"ethertype"} - {"from_port", "port_range_max", "to_port"} - PeerKeys;
    assert Lookup(tail, "tenant_id", Str("")) == Lookup(raw, "tenant_id", Str(""));
    assert Lookup(tail, "project_id", Lookup(raw, "tenant_id", Str(""))) == Lookup(raw, "project_id", Lookup(raw, "tenant_id", Str("")));
  }

  /** `_normalize_secgroup_rule`: it works on a copy, so the rule dict it is given is not modified. */
  method NormalizeRule(ctx: Context, rule: Record) returns (r: Result<Record>)
    ensures r == Spec(ctx, rule)
  {
    RuleCopy(rule);
    RuleCopyTail(rule);
    var d := rule;
    var id, direction, ethertype, ports, peers, project;
    var ret: Record := map[];
    id, d :- Pop(d, "id");
    ret := ret["id" := id];
    direction, d := PopOr(d, "direction", Str("ingress"));
    ret := ret["direction" := direction];
    ethertype, d := PopOr(d, "ethertype", Str("IPv4"));
    ret := ret["ethertype" := ethertype];
    ports, d :- PopPorts(d);
    ret := ret["port_range_min" := ports.min];
    ret := ret["port_range_max" := ports.max];
    peers, d :- PopPeers(d);
    ret := ret["protocol" := peers.protocol];
    ret := ret["remote_ip_prefix" := peers.remoteIpPrefix];
    ret := ret["security_group_id" := peers.securityGroupId];
    ret := ret["remote_group_id" := peers.remoteGroupId];
    project, d := PopFallback(d, "project_id", "tenant_id", Str(""));
    ret := ret["location" := ctx.locationOf(project, Null)];
    ret := ret["properties" := Map(d)];
    CanonicalInOrder(ctx, rule, ports, peers, id, direction, ethertype, project, d);

    // Backwards compatibility with neutron.
    if !ctx.strictMode {
      ret := AddProjectAliases(ret, project, d);
    }
    return Ok(ret);
  }

  // ---------------------------------------------------------------------
  // The rule list

  /**
   * What `for rule in rules` visits: the items of a list or tuple. An empty
   * string or dict visits nothing; a non-empty one visits strings, which have
   * no `copy()`; any other value is not iterable.
   */
  function Items(rules: Value): (r: Result<seq<Value>>)
    ensures r.Ok? <==> rules.List? || rules.Tuple? || rules == Str("") || rules == Map(map[])
    ensures r.Ok? ==> r.value == if rules.List? || rules.Tuple? then rules.items else []
  {
    match rules
    case List(items) => Ok(items)
    case Tuple(items) => Ok(items)
    case Str(s) => if s == "" then Ok([]) else Err(WrongType("rule"))
    case Map(m) => if m == map[] then Ok([]) else Err(WrongType("rule"))
    case _ => Err(WrongType("security_group_rules"))
  }

  /** One item of the list: a dict is normalized, anything else has no `copy()` or `pop()`. */
  function ItemSpec(ctx: Context): Value -> Result<Record> {
    (item: Value) => if item.Map? then Spec(ctx, item.fields) else Err(WrongType("rule"))
  }

  /** The normalized rule list. */
  function RulesSpec(ctx: Context, rules: Value): Result<seq<Record>> {
    var items :- Items(rules);
    MapResults(ItemSpec(ctx), items)
  }

  /**
   * The rule list succeeds exactly when every item is a rule dict that
   * normalizes, and then holds those rules in order.
   */
  lemma RulesMeaning(ctx: Context, rules: Value)
    ensures RulesSpec(ctx, rules).Ok? <==> (Items(rules).Ok? &&
      forall i :: 0 <= i < |Items(rules).value| ==>
        Items(rules).value[i].Map? && Spec(ctx, Items(rules).value[i].fields).Ok?)
    ensures RulesSpec(ctx, rules).Ok? ==> var items := Items(rules).value;
      |RulesSpec(ctx, rules).value| == |items| &&
      forall i :: 0 <= i < |items| ==> Spec(ctx, items[i].fields) == Ok(RulesSpec(ctx, rules).value[i])
  {
    if Items(rules).Ok? {
      MapResultsMeaning(ItemSpec(ctx), Items(rules).value);
    }
  }

  /** `_normalize_secgroup_rules` */
  method NormalizeRules(ctx: Context, rules: Value) returns (r: Result<seq<Record>>)
    ensures r == RulesSpec(ctx, rules)
  {
    var items :- Items(rules);
    var ret: seq<Record> := [];
    for i := 0 to |items|
      invariant MapResults(ItemSpec(ctx), items[..i]) == Ok(ret)
    {
      MapResultsStep(ItemSpec(ctx), items, i, ret);
      if !items[i].Map? {
        MapResultsPrefixErr(ItemSpec(ctx), items, i + 1);
        return Err(WrongType("rule"));
      }
      var n := NormalizeRule(ctx, items[i].fields);
      if n.Err? {
        MapResultsPrefixErr(ItemSpec(ctx), items, i + 1);
        return Err(n.error);
      }
      ret := ret + [n.value];
    }
    assert items[..|items|] == items;
    return Ok(ret);
  }
}
