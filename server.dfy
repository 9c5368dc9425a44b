/**
 * `Normalizer._normalize_server` and `_normalize_servers`
 * (shade/_normalize.py:37-53, 278-358).
 */
module Servers {
  import opened Values
  import opened Dicts
  import opened Ambient

  const AzKey := "OS-EXT-AZ:availability_zone"
  const VolumesKey := "os-extended-volumes:volumes_attached"
  const DiskKey := "OS-DCF:diskConfig"

  /** A vendor key: its namespace and its name, joined by a colon. */
  function Key(namespace: string, name: string): string {
    namespace + ":" + name
  }

  /**
   * The extended status keys, as namespace and name: each is stored under
   * the text after its colon.
   */
  const StatusKeys: seq<(string, string)> :=
    [("OS-EXT-STS", "power_state"), ("OS-EXT-STS", "task_state"), ("OS-EXT-STS", "vm_state"),
     ("OS-SRV-USG", "launched_at"), ("OS-SRV-USG", "terminated_at")]

  const StatusKeySet: set<string> :=
    {Key("OS-EXT-STS", "power_state"), Key("OS-EXT-STS", "task_state"), Key("OS-EXT-STS", "vm_state"),
     Key("OS-SRV-USG", "launched_at"), Key("OS-SRV-USG", "terminated_at")}

  /** `_SERVER_FIELDS`, copied through (None when absent) in this order. */
  const FieldList: seq<string> :=
    ["accessIPv4", "accessIPv6", "addresses", "adminPass", "created", "key_name", "metadata",
     "networks", "private_v4", "public_v4", "public_v6", "security_groups", "status",
     "updated", "user_id"]

  const FieldSet: set<string> :=
    {"accessIPv4", "accessIPv6", "addresses", "adminPass", "created", "key_name", "metadata",
     "networks", "private_v4", "public_v4", "public_v6", "security_groups", "status",
     "updated", "user_id"}

  /** The vendor keys, read with `_pop_or_get`: claimed only in strict mode. */
  const VendorKeys: set<string> := LooseVendorKeys + StatusKeySet

  /** The vendor keys kept under their own names. */
  const LooseVendorKeys: set<string> := {AzKey, VolumesKey, DiskKey}

  /** The keys the head of the normalizer pops. */
  const HeadKeys: set<string> := {"id", "name", "flavor", "image"}

  /** The other plain keys it pops. */
  const PlainKeys: set<string> := {"project_id", "tenant_id", "config_drive", "hostId", "progress"}

  /** The fields the normalizer computes from what it popped. */
  const ComputedKeys: set<string> := HeadKeys + PlacedKeys

  /** The computed fields besides the head. */
  const PlacedKeys: set<string> := {"location", "volumes", "has_config_drive", "host_id", "progress", "disk_config"}

  /** The short names of the extended status fields. */
  const StatusNames: set<string> := {"power_state", "task_state", "vm_state", "launched_at", "terminated_at"}

  /** The fields it copies, then `interface_ip` and `properties`. */
  const TailKeys: set<string> := StatusNames + FieldSet + {"interface_ip", "properties"}

  /** The canonical fields of a normalized server. */
  const Fields: set<string> := ComputedKeys + TailKeys

  /** The legacy keys added outside strict mode. */
  const LegacyKeys: set<string> := {"hostId", "config_drive", "project_id", "tenant_id", "region", "cloud", "az"}

  /** Every key the normalizer removes from its copy. */
  function Claimed(strict: bool): set<string> {
    Noise + HeadKeys + PlainKeys + FieldSet + if strict then VendorKeys else {}
  }

  /** What the normalized server keeps in `properties`: every key not claimed. */
  function Properties(strict: bool, raw: Record): Record {
    raw - Claimed(strict)
  }

  lemma FieldGroupsDisjoint()
    ensures ComputedKeys !! TailKeys && StatusNames !! FieldSet
    ensures "interface_ip" !in StatusNames + FieldSet && "properties" !in StatusNames + FieldSet
  {
    ComputedNotStatus();
    HeadNotFields();
    PlacedNotFields();
    StatusNotFields();
  }

  lemma ComputedNotStatus()
    ensures ComputedKeys !! StatusNames
  {
  }

  lemma HeadNotFields()
    ensures HeadKeys !! FieldSet
  {
  }

  lemma PlacedNotFields()
    ensures PlacedKeys !! FieldSet
  {
  }

  lemma StatusNotFields()
    ensures StatusNames !! FieldSet
  {
  }

  lemma FieldsNotLegacy()
    ensures Fields !! LegacyKeys
  {
    ComputedNotLegacy();
    CopiedNotLegacy();
  }

  lemma ComputedNotLegacy()
    ensures ComputedKeys !! LegacyKeys
  {
  }

  lemma CopiedNotLegacy()
    ensures TailKeys !! LegacyKeys
  {
    StatusNotLegacy();
    FieldSetNotLegacy();
  }

  lemma StatusNotLegacy()
    ensures StatusNames !! LegacyKeys
  {
  }

  lemma FieldSetNotLegacy()
    ensures FieldSet !! LegacyKeys
  {
  }

  // ---------------------------------------------------------------------
  // `key.split(':')[1]`

  /** The text of s before its first colon. */
  function UpToColon(s: string): (t: string)
    ensures ':' !in t && |t| <= |s|
  {
    if s == [] || s[0] == ':' then [] else [s[0]] + UpToColon(s[1..])
  }

  /** `key.split(':')[1]`: the text between the first colon and the next one. */
  function SplitSecond(key: string): string
    requires ':' in key
  {
    if key[0] == ':' then UpToColon(key[1..])
    else
      assert ':' in key[1..] by {
        var i :| 0 <= i < |key| && key[i] == ':';
        assert key[1..][i - 1] == ':';
      }
      SplitSecond(key[1..])
  }

  lemma {:induction false} UpToColonWhole(t: string)
    requires ':' !in t
    ensures UpToColon(t) == t
  {
    if t != [] {
      UpToColonWhole(t[1..]);
      assert t == [t[0]] + t[1..];
    }
  }

  /** A key with one colon splits into its namespace and its name. */
  lemma {:induction false} SplitSecondOf(namespace: string, name: string)
    requires ':' !in namespace && ':' !in name
    ensures ':' in Key(namespace, name) && SplitSecond(Key(namespace, name)) == name
  {
    var key := Key(namespace, name);
    assert key[|namespace|] == ':';
    if namespace == [] {
      assert key[1..] == name;
      UpToColonWhole(name);
    } else {
      assert key[1..] == Key(namespace[1..], name);
      SplitSecondOf(namespace[1..], name);
    }
  }

  /** Keys given as namespace and name, each part free of colons, no name twice. */
  predicate SplitKeys(keys: seq<(string, string)>) {
    && (forall i :: 0 <= i < |keys| ==> ':' !in keys[i].0 && ':' !in keys[i].1)
    && (forall i, j :: 0 <= i < j < |keys| ==> keys[i].1 != keys[j].1)
  }

  /** The keys themselves. */
  function Joined(keys: seq<(string, string)>): set<string> {
    if keys == [] then {} else Joined(keys[..|keys| - 1]) + {Key(keys[|keys| - 1].0, keys[|keys| - 1].1)}
  }

  /** `{key.split(':')[1]: d.get(key, absent) for key in keys}` */
  function Renamed(d: Record, keys: seq<(string, string)>, absent: Value): Record {
    if keys == [] then map[]
    else
      var last := keys[|keys| - 1];
      Renamed(d, keys[..|keys| - 1], absent)[last.1 := Lookup(d, Key(last.0, last.1), absent)]
  }

  /** A key of the list not yet reached is none of the earlier ones. */
  lemma {:induction false} JoinedLater(keys: seq<(string, string)>, i: nat)
    requires SplitKeys(keys) && i < |keys|
    ensures Key(keys[i].0, keys[i].1) !in Joined(keys[..i])
  {
    if i > 0 {
      var prefix := keys[..i];
      assert prefix[..i - 1] == keys[..i - 1];
      SplitSecondOf(keys[i].0, keys[i].1);
      SplitSecondOf(keys[i - 1].0, keys[i - 1].1);
      JoinedLaterStep(keys, i - 1, i);
    }
  }

  lemma {:induction false} JoinedLaterStep(keys: seq<(string, string)>, n: nat, i: nat)
    requires SplitKeys(keys) && n < i < |keys|
    ensures Key(keys[i].0, keys[i].1) !in Joined(keys[..n + 1])
  {
    assert keys[..n + 1][..n] == keys[..n];
    SplitSecondOf(keys[i].0, keys[i].1);
    SplitSecondOf(keys[n].0, keys[n].1);
    if n > 0 {
      JoinedLaterStep(keys, n - 1, i);
    } else {
      assert keys[..0] == [];
    }
  }

  lemma StatusKeysSplit()
    ensures SplitKeys(StatusKeys)
  {
    assert ':' !in "OS-EXT-STS" && ':' !in "OS-SRV-USG";
    assert ':' !in "power_state" && ':' !in "task_state" && ':' !in "vm_state";
    assert ':' !in "launched_at" && ':' !in "terminated_at";
  }

  /** The extended status fields, under their short names. */
  function Status(d: Record): Record {
    map[
      "power_state" := Lookup(d, Key("OS-EXT-STS", "power_state"), Null),
      "task_state" := Lookup(d, Key("OS-EXT-STS", "task_state"), Null),
      "vm_state" := Lookup(d, Key("OS-EXT-STS", "vm_state"), Null),
      "launched_at" := Lookup(d, Key("OS-SRV-USG", "launched_at"), Null),
      "terminated_at" := Lookup(d, Key("OS-SRV-USG", "terminated_at"), Null)]
  }

  /** The status loop computes the status fields. */
  lemma RenamedStatus(d: Record)
    ensures Renamed(d, StatusKeys, Null) == Status(d)
  {
    var k := StatusKeys;
    assert k[..1][..0] == [];
    assert k[..2][..1] == k[..1];
    assert k[..3][..2] == k[..2];
    assert k[..4][..3] == k[..3];
    assert k[..5][..4] == k[..4];
    assert k[..5] == k;
    var m := map[];
    assert Renamed(d, k[..1], Null) == m[k[0].1 := Lookup(d, Key(k[0].0, k[0].1), Null)];
    assert Renamed(d, k[..2], Null) == Renamed(d, k[..1], Null)[k[1].1 := Lookup(d, Key(k[1].0, k[1].1), Null)];
    assert Renamed(d, k[..3], Null) == Renamed(d, k[..2], Null)[k[2].1 := Lookup(d, Key(k[2].0, k[2].1), Null)];
    assert Renamed(d, k[..4], Null) == Renamed(d, k[..3], Null)[k[3].1 := Lookup(d, Key(k[3].0, k[3].1), Null)];
    assert Renamed(d, k[..5], Null) == Renamed(d, k[..4], Null)[k[4].1 := Lookup(d, Key(k[4].0, k[4].1), Null)];
  }

  lemma JoinedStatus()
    ensures Joined(StatusKeys) == StatusKeySet
  {
    var k := StatusKeys;
    assert k[..1][..0] == [];
    assert k[..2][..1] == k[..1];
    assert k[..3][..2] == k[..2];
    assert k[..4][..3] == k[..3];
    assert k[..5][..4] == k[..4];
    assert k[..5] == k;
    assert Joined(k[..1]) == {Key(k[0].0, k[0].1)};
    assert Joined(k[..2]) == Joined(k[..1]) + {Key(k[1].0, k[1].1)};
    assert Joined(k[..3]) == Joined(k[..2]) + {Key(k[2].0, k[2].1)};
    assert Joined(k[..4]) == Joined(k[..3]) + {Key(k[3].0, k[3].1)};
    assert Joined(k[..5]) == Joined(k[..4]) + {Key(k[4].0, k[4].1)};
  }

  // ---------------------------------------------------------------------
  // The specification

  datatype Head = Head(id: Value, name: Value, flavor: Value, image: Value)

  /** `x.pop('links', None)` on a nested dict. */
  function Unlinked(v: Value): (u: Value)
    ensures v.Map? ==> u == Map(v.fields - {"links"})
    ensures !v.Map? ==> u == v
  {
    if v.Map? then Map(v.fields - {"links"}) else v
  }

  /**
   * `id` and `name` are required; `flavor` is required and must be a dict;
   * `image` is required and is either a string, passed through, or a dict.
   * Both dicts lose `links`.
   */
  function HeadOf(d: Record): Result<Head> {
    if "id" !in d then Err(MissingKey("id"))
    else if "name" !in d then Err(MissingKey("name"))
    else if "flavor" !in d then Err(MissingKey("flavor"))
    else if !d["flavor"].Map? then Err(WrongType("flavor"))
    else if "image" !in d then Err(MissingKey("image"))
    else if !(d["image"].Str? || d["image"].Map?) then Err(WrongType("image"))
    else Ok(Head(d["id"], d["name"], Unlinked(d["flavor"]), Unlinked(d["image"])))
  }

  /**
   * The caller's dict once the nested `flavor` dict, and then a nested
   * `image` dict, lost `links` in place: the normalizer shares them with
   * the caller, and how far it got decides which were stripped.
   */
  function Shared(d: Record, caller: Record): Record {
    if "id" !in d || "name" !in d || "flavor" !in d || !d["flavor"].Map? then caller
    else
      var stripped := caller["flavor" := Unlinked(d["flavor"])];
      if "image" in d && d["image"].Map? then stripped["image" := Unlinked(d["image"])] else stripped
  }

  datatype Placement = Placement(project: Value, az: Value, volumes: Value, configDrive: Value, hostId: Value)

  /**
   * The project (`project_id` over `tenant_id`, default empty), availability
   * zone, attached volumes (default empty list), config drive flag (default
   * false) and host id.
   */
  function PlacementOf(d: Record): Placement {
    Placement(ProjectOf(d), Lookup(d, AzKey, Null), Lookup(d, VolumesKey, List([])),
      Lookup(d, "config_drive", Bool(false)), Lookup(d, "hostId", Null))
  }

  /** The canonical fields the normalizer computes itself. */
  function Computed(ctx: Context, head: Head, p: Placement, progress: int, disk: Value): Record {
    map[
      "id" := head.id,
      "name" := head.name,
      "flavor" := head.flavor,
      "image" := head.image,
      "location" := ctx.locationOf(p.project, p.az),
      "volumes" := p.volumes,
      "has_config_drive" := Bool(ToBool(p.configDrive)),
      "host_id" := p.hostId,
      "progress" := Int(progress),
      "disk_config" := disk]
  }

  /** Assigned one by one in the normalizer's order, the computed fields make up Computed. */
  lemma ComputedInOrder(ctx: Context, head: Head, p: Placement, progress: int, disk: Value)
    ensures map["id" := head.id]["name" := head.name]["flavor" := head.flavor]["image" := head.image]
      ["location" := ctx.locationOf(p.project, p.az)]["volumes" := p.volumes]
      ["has_config_drive" := Bool(ToBool(p.configDrive))]["host_id" := p.hostId]
      ["progress" := Int(progress)]["disk_config" := disk]
      == Computed(ctx, head, p, progress, disk)
  {
  }

  /** The fields copied from the caller's dict, then `interface_ip` and `properties`. */
  function Tail(strict: bool, raw: Record): Record {
    (Status(raw) + Picked(raw, FieldSet, Null))
      ["interface_ip" := Str("")]
      ["properties" := Map(Properties(strict, raw))]
  }

  /** The canonical record, before strict mode decides about flattening. */
  function Canonical(ctx: Context, raw: Record, head: Head, progress: int): Record {
    Computed(ctx, head, PlacementOf(raw), progress, Lookup(raw, DiskKey, Null)) + Tail(ctx.strictMode, raw)
  }

  /** The legacy keys: nova's names of the host id and config drive, the project aliases, region, cloud and zone. */
  function Legacy(ctx: Context, p: Placement): Record {
    map[
      "hostId" := p.hostId,
      "config_drive" := p.configDrive,
      "project_id" := p.project,
      "tenant_id" := p.project,
      "region" := ctx.regionName,
      "cloud" := ctx.cloudName,
      "az" := p.az]
  }

  /**
   * The normalized server, stated on the caller's dict as handed in.
   * Exceptions come in source order: the head, then `progress`.
   */
  function Spec(ctx: Context, raw: Record): Result<Record> {
    var head :- HeadOf(raw);
    var progress :- IntOrZero(Lookup(raw, "progress", Int(0)));
    var canonical := Canonical(ctx, raw, head, progress);
    Ok(if ctx.strictMode then canonical
       else Flattened(canonical, Legacy(ctx, PlacementOf(raw)), Properties(false, raw)))
  }

  // ---------------------------------------------------------------------
  // What a normalized server is

  /**
   * A server fails exactly when `id`, `name`, `flavor` or `image` is missing,
   * `flavor` is not a dict, `image` is neither a string nor a dict, or
   * `progress` does not convert, reported in that order.
   */
  lemma ServerErrors(ctx: Context, raw: Record)
    ensures Spec(ctx, raw).Err? <==> HeadOf(raw).Err? || IntOrZero(Lookup(raw, "progress", Int(0))).Err?
    ensures HeadOf(raw).Err? <==>
      ("id" !in raw || "name" !in raw || "flavor" !in raw || !raw["flavor"].Map? || "image" !in raw ||
       !(raw["image"].Str? || raw["image"].Map?))
    ensures HeadOf(raw).Err? ==> Spec(ctx, raw) == Err(HeadOf(raw).error)
    ensures "id" in raw && "name" in raw && "flavor" !in raw ==> Spec(ctx, raw) == Err(MissingKey("flavor"))
    ensures "id" in raw && "name" in raw && "flavor" in raw && "image" !in raw && raw["flavor"].Map? ==>
      Spec(ctx, raw) == Err(MissingKey("image"))
  {
  }

  /**
   * `id` and `name` are copied; `flavor` is the nested dict without
   * `links`; a string `image` passes through unchanged and a dict `image`
   * only loses `links`.
   */
  lemma HeadIdentity(raw: Record)
    requires HeadOf(raw).Ok?
    ensures var head := HeadOf(raw).value;
      && "id" in raw && "name" in raw && "flavor" in raw && "image" in raw && raw["flavor"].Map?
      && head.id == raw["id"] && head.name == raw["name"]
      && head.flavor == Map(raw["flavor"].fields - {"links"}) && "links" !in head.flavor.fields
      && (raw["image"].Str? ==> head.image == raw["image"])
      && (raw["image"].Map? ==> head.image == Map(raw["image"].fields - {"links"}))
  {
  }

  /**
   * The computed fields: the head, the location of the project
   * (`project_id`, else `tenant_id`, else empty) in the availability zone,
   * the volumes (an empty list when absent), `_to_bool` of the config drive
   * (false when absent), the host id, the progress and the disk config.
   */
  lemma ComputedFields(ctx: Context, raw: Record, head: Head, progress: int)
    ensures var c := Computed(ctx, head, PlacementOf(raw), progress, Lookup(raw, DiskKey, Null));
      && c.Keys == ComputedKeys
      && c["id"] == head.id && c["name"] == head.name && c["flavor"] == head.flavor && c["image"] == head.image
      && c["location"] ==
         ctx.locationOf(Lookup(raw, "project_id", Lookup(raw, "tenant_id", Str(""))), Lookup(raw, AzKey, Null))
      && c["volumes"] == (if VolumesKey in raw then raw[VolumesKey] else List([]))
      && c["has_config_drive"] == Bool("config_drive" in raw && ToBool(raw["config_drive"]))
      && c["host_id"] == Lookup(raw, "hostId", Null)
      && c["progress"] == Int(progress)
      && c["disk_config"] == Lookup(raw, DiskKey, Null)
  {
  }

  /** The copied fields are the status fields, `_SERVER_FIELDS`, `interface_ip` and `properties`. */
  lemma TailKeysOf(strict: bool, raw: Record)
    ensures Tail(strict, raw).Keys == TailKeys
  {
  }

  /** An empty `interface_ip`, and `properties` holding every key not claimed. */
  lemma TailFixed(strict: bool, raw: Record)
    ensures var t := Tail(strict, raw);
      t["interface_ip"] == Str("") && t["properties"] == Map(Properties(strict, raw))
  {
  }

  /** The extended status keys are copied under the text after their colon. */
  lemma TailStatus(strict: bool, raw: Record)
    ensures forall k :: k in StatusNames ==> k in Tail(strict, raw) && Tail(strict, raw)[k] == Status(raw)[k]
  {
    FieldGroupsDisjoint();
    StatusKeysOf(raw);
    MergedDisjoint(Status(raw), Picked(raw, FieldSet, Null));
  }

  /** Every `_SERVER_FIELDS` key is copied, None when absent. */
  lemma TailPicked(strict: bool, raw: Record)
    ensures forall k :: k in FieldSet ==> k in Tail(strict, raw) && Tail(strict, raw)[k] == Lookup(raw, k, Null)
  {
    FieldGroupsDisjoint();
  }

  lemma StatusKeysOf(raw: Record)
    ensures Status(raw).Keys == StatusNames
  {
  }

  /** Outside strict mode the vendor keys are only read, and stay among the properties. */
  lemma VendorKeysUnclaimed()
    ensures VendorKeys !! Claimed(false)
  {
    LooseNotPlain();
    LooseNotFields();
    StatusKeysNotPlain();
    StatusKeysNotFields();
  }

  lemma LooseNotPlain()
    ensures LooseVendorKeys !! Noise + HeadKeys + PlainKeys
  {
  }

  lemma LooseNotFields()
    ensures LooseVendorKeys !! FieldSet
  {
  }

  lemma StatusKeysNotPlain()
    ensures StatusKeySet !! Noise + HeadKeys + PlainKeys
  {
  }

  lemma StatusKeysNotFields()
    ensures StatusKeySet !! FieldSet
  {
  }

  lemma NoiseNotFields()
    ensures Noise !! FieldSet
  {
  }

  lemma PlainNotFields()
    ensures PlainKeys !! FieldSet
  {
  }

  /** The legacy keys: the host id and config drive under nova's names, the project aliases, region, cloud and zone. */
  lemma LegacyFields(ctx: Context, raw: Record)
    ensures var l := Legacy(ctx, PlacementOf(raw));
      && l.Keys == LegacyKeys
      && l["hostId"] == Lookup(raw, "hostId", Null)
      && l["config_drive"] == Lookup(raw, "config_drive", Bool(false))
      && l["project_id"] == ProjectOf(raw) && l["tenant_id"] == ProjectOf(raw)
      && l["region"] == ctx.regionName && l["cloud"] == ctx.cloudName
      && l["az"] == Lookup(raw, AzKey, Null)
  {
  }

  lemma ComputedKeysOf(ctx: Context, head: Head, p: Placement, progress: int, disk: Value)
    ensures Computed(ctx, head, p, progress, disk).Keys == ComputedKeys
  {
  }

  /** The canonical record has the canonical fields. */
  lemma CanonicalKeys(ctx: Context, raw: Record, head: Head, progress: int)
    ensures Canonical(ctx, raw, head, progress).Keys == Fields
  {
    ComputedKeysOf(ctx, head, PlacementOf(raw), progress, Lookup(raw, DiskKey, Null));
    TailKeysOf(ctx.strictMode, raw);
  }

  /** The computed fields come first; the copied ones never overwrite them. */
  lemma CanonicalComputed(ctx: Context, raw: Record, head: Head, progress: int)
    ensures var computed := Computed(ctx, head, PlacementOf(raw), progress, Lookup(raw, DiskKey, Null));
      forall k :: k in ComputedKeys ==> k in computed && Canonical(ctx, raw, head, progress)[k] == computed[k]
  {
    var computed := Computed(ctx, head, PlacementOf(raw), progress, Lookup(raw, DiskKey, Null));
    FieldGroupsDisjoint();
    ComputedKeysOf(ctx, head, PlacementOf(raw), progress, Lookup(raw, DiskKey, Null));
    TailKeysOf(ctx.strictMode, raw);
    MergedDisjoint(computed, Tail(ctx.strictMode, raw));
  }

  /** The copied fields, then `interface_ip` and `properties`. */
  lemma CanonicalTail(ctx: Context, raw: Record, head: Head, progress: int)
    ensures forall k :: k in TailKeys ==>
      k in Tail(ctx.strictMode, raw) && Canonical(ctx, raw, head, progress)[k] == Tail(ctx.strictMode, raw)[k]
  {
    var computed := Computed(ctx, head, PlacementOf(raw), progress, Lookup(raw, DiskKey, Null));
    FieldGroupsDisjoint();
    ComputedKeysOf(ctx, head, PlacementOf(raw), progress, Lookup(raw, DiskKey, Null));
    TailKeysOf(ctx.strictMode, raw);
    MergedDisjoint(computed, Tail(ctx.strictMode, raw));
  }

  /** A normalized server is its canonical record, flattened outside strict mode. */
  lemma ServerShape(ctx: Context, raw: Record) returns (head: Head, progress: int)
    requires Spec(ctx, raw).Ok?
    ensures HeadOf(raw) == Ok(head) && IntOrZero(Lookup(raw, "progress", Int(0))) == Ok(progress)
    ensures var c := Canonical(ctx, raw, head, progress);
      Spec(ctx, raw).value ==
        if ctx.strictMode then c else Flattened(c, Legacy(ctx, PlacementOf(raw)), Properties(false, raw))
  {
    head, progress := HeadOf(raw).value, IntOrZero(Lookup(raw, "progress", Int(0))).value;
  }

  /** In strict mode the server has exactly the canonical fields. */
  lemma ServerStrictKeys(ctx: Context, raw: Record)
    requires ctx.strictMode && Spec(ctx, raw).Ok?
    ensures Spec(ctx, raw).value.Keys == Fields
  {
    var head, progress := ServerShape(ctx, raw);
    CanonicalKeys(ctx, raw, head, progress);
  }

  /** One canonical field of a normalized server: flattening never overwrites it. */
  lemma ServerAt(ctx: Context, raw: Record, head: Head, progress: int, k: string) returns (v: Record)
    requires HeadOf(raw) == Ok(head) && IntOrZero(Lookup(raw, "progress", Int(0))) == Ok(progress)
    requires k in Fields
    ensures Spec(ctx, raw) == Ok(v) && k in v && k in Canonical(ctx, raw, head, progress)
    ensures v[k] == Canonical(ctx, raw, head, progress)[k]
  {
    v := Spec(ctx, raw).value;
    var c := Canonical(ctx, raw, head, progress);
    CanonicalKeys(ctx, raw, head, progress);
    if !ctx.strictMode {
      assert k !in LegacyKeys by { FieldsNotLegacy(); }
      FlattenedKeeps(c, Legacy(ctx, PlacementOf(raw)), Properties(false, raw), k);
    }
  }

  /**
   * A normalized server holds the computed fields, whatever the mode: the
   * head, location, volumes, config drive flag, host id, progress and disk
   * config.
   */
  lemma ServerComputed(ctx: Context, raw: Record) returns (head: Head, progress: int)
    requires Spec(ctx, raw).Ok?
    ensures HeadOf(raw) == Ok(head) && IntOrZero(Lookup(raw, "progress", Int(0))) == Ok(progress)
    ensures var computed := Computed(ctx, head, PlacementOf(raw), progress, Lookup(raw, DiskKey, Null));
      forall k :: k in ComputedKeys ==> k in Spec(ctx, raw).value && Spec(ctx, raw).value[k] == computed[k]
  {
    head, progress := HeadOf(raw).value, IntOrZero(Lookup(raw, "progress", Int(0))).value;
    CanonicalComputed(ctx, raw, head, progress);
    forall k | k in ComputedKeys
      ensures k in Spec(ctx, raw).value
      ensures Spec(ctx, raw).value[k] == Computed(ctx, head, PlacementOf(raw), progress, Lookup(raw, DiskKey, Null))[k]
    {
      var v := ServerAt(ctx, raw, head, progress, k);
    }
  }

  /**
   * A normalized server holds the copied fields, whatever the mode: status,
   * `_SERVER_FIELDS`, `interface_ip` and `properties`.
   */
  lemma ServerCopied(ctx: Context, raw: Record)
    requires Spec(ctx, raw).Ok?
    ensures forall k :: k in TailKeys ==>
      k in Spec(ctx, raw).value && Spec(ctx, raw).value[k] == Tail(ctx.strictMode, raw)[k]
  {
    var head, progress := HeadOf(raw).value, IntOrZero(Lookup(raw, "progress", Int(0))).value;
    CanonicalTail(ctx, raw, head, progress);
    forall k | k in TailKeys
      ensures k in Spec(ctx, raw).value && Spec(ctx, raw).value[k] == Tail(ctx.strictMode, raw)[k]
    {
      var v := ServerAt(ctx, raw, head, progress, k);
    }
  }

  /**
   * Outside strict mode the legacy keys are added and every property becomes
   * a top-level key unless a canonical field or a legacy key has it.
   */
  lemma ServerFlattening(ctx: Context, raw: Record) returns (head: Head, progress: int)
    requires !ctx.strictMode && Spec(ctx, raw).Ok?
    ensures HeadOf(raw) == Ok(head) && IntOrZero(Lookup(raw, "progress", Int(0))) == Ok(progress)
    ensures var v := Spec(ctx, raw).value;
      var legacy := Legacy(ctx, PlacementOf(raw));
      var properties := Properties(false, raw);
      && v.Keys == Canonical(ctx, raw, head, progress).Keys + legacy.Keys + properties.Keys
      && (forall k :: k in legacy ==> v[k] == legacy[k])
      && (forall k :: k in properties && k !in Fields && k !in LegacyKeys ==> v[k] == properties[k])
  {
    head, progress := ServerShape(ctx, raw);
    var c := Canonical(ctx, raw, head, progress);
    CanonicalKeys(ctx, raw, head, progress);
    FieldsNotLegacy();
    LegacyKeysOf(ctx, PlacementOf(raw));
    FlattenedFields(c, Legacy(ctx, PlacementOf(raw)), Properties(false, raw));
  }

  lemma LegacyKeysOf(ctx: Context, p: Placement)
    ensures Legacy(ctx, p).Keys == LegacyKeys
  {
  }

  /**
   * The caller's dict keeps its keys; only its nested `flavor` and `image`
   * dicts can change, each only by losing `links`, and both have when the
   * server normalizes.
   */
  lemma SharedOnlyLinks(ctx: Context, raw: Record)
    ensures var after := Shared(raw, raw);
      && after.Keys == raw.Keys
      && (forall k :: k in raw && k != "flavor" && k != "image" ==> after[k] == raw[k])
      && ("flavor" in raw ==> after["flavor"] == raw["flavor"] || after["flavor"] == Unlinked(raw["flavor"]))
      && ("image" in raw ==> after["image"] == raw["image"] || after["image"] == Unlinked(raw["image"]))
      && (Spec(ctx, raw).Ok? ==>
            after["flavor"] == Unlinked(raw["flavor"]) && after["image"] == Unlinked(raw["image"]))
  {
  }

  /** Stripping `links` from a dict already stripped changes nothing. */
  lemma SharedIdempotent(raw: Record)
    ensures Shared(Shared(raw, raw), Shared(raw, raw)) == Shared(raw, raw)
  {
    var s := Shared(raw, raw);
    if s != raw {
      var f := raw["flavor"].fields - {"links"};
      assert s["flavor"] == Map(f);
      assert f - {"links"} == f;
      if "image" in raw && raw["image"].Map? {
        var i := raw["image"].fields - {"links"};
        assert s["image"] == Map(i);
        assert i - {"links"} == i;
      }
    }
  }

  /** The dict `s` differs from `raw` at most in the nested `flavor` and `image`. */
  ghost predicate SameOffHead(s: Record, raw: Record) {
    s.Keys == raw.Keys && forall k :: k in raw && k != "flavor" && k != "image" ==> s[k] == raw[k]
  }

  lemma OffHeadPlacement(s: Record, raw: Record)
    requires SameOffHead(s, raw)
    ensures PlacementOf(s) == PlacementOf(raw)
    ensures Lookup(s, "progress", Int(0)) == Lookup(raw, "progress", Int(0))
    ensures Lookup(s, DiskKey, Null) == Lookup(raw, DiskKey, Null)
  {
  }

  lemma OffHeadStatus(s: Record, raw: Record)
    requires SameOffHead(s, raw)
    ensures Status(s) == Status(raw)
  {
  }

  lemma OffHeadPicked(s: Record, raw: Record)
    requires SameOffHead(s, raw)
    ensures Picked(s, FieldSet, Null) == Picked(raw, FieldSet, Null)
  {
    HeadNotFields();
    var a, b := Picked(s, FieldSet, Null), Picked(raw, FieldSet, Null);
    forall k | k in FieldSet
      ensures a[k] == b[k]
    {
      assert k !in HeadKeys;
    }
  }

  lemma OffHeadProperties(strict: bool, s: Record, raw: Record)
    requires SameOffHead(s, raw)
    ensures Properties(strict, s) == Properties(strict, raw)
  {
    var c := Claimed(strict);
    assert "flavor" in c && "image" in c;
    assert (s - c).Keys == (raw - c).Keys;
  }

  lemma OffHeadTail(strict: bool, s: Record, raw: Record)
    requires SameOffHead(s, raw)
    ensures Tail(strict, s) == Tail(strict, raw)
    ensures Properties(false, s) == Properties(false, raw)
  {
    OffHeadStatus(s, raw);
    OffHeadPicked(s, raw);
    OffHeadProperties(strict, s, raw);
    OffHeadProperties(false, s, raw);
  }

  /**
   * A server dict the normalizer has already visited normalizes as before:
   * its head loses `links` once more, to no effect, and every other key it
   * reads is untouched.
   */
  lemma SharedSpec(ctx: Context, raw: Record)
    ensures Spec(ctx, Shared(raw, raw)) == Spec(ctx, raw)
  {
    var s := Shared(raw, raw);
    SharedOnlyLinks(ctx, raw);
    assert SameOffHead(s, raw);
    SharedIdempotent(raw);
    assert HeadOf(s) == HeadOf(raw);
    OffHeadPlacement(s, raw);
    OffHeadTail(ctx.strictMode, s, raw);
  }

  // ---------------------------------------------------------------------
  // The normalizer, stage by stage on its copy

  /**
   * `id`, `name`, then `server['flavor'].pop('links', None)` and the same
   * for an image that is not a string: the nested dicts are the caller's.
   */
  method PopHead(server: Dict, d: Record) returns (r: Result<Head>, rest: Record)
    modifies server
    ensures r == HeadOf(d)
    ensures r.Ok? ==> rest == d - HeadKeys
    ensures server.entries == Shared(d, old(server.entries))
  {
    var id, name, flavor, image;
    id, rest :- Pop(d, "id");
    name, rest :- Pop(rest, "name");
    if "flavor" !in rest {
      return Err(MissingKey("flavor")), rest;
    }
    flavor := rest["flavor"];
    if !flavor.Map? {
      return Err(WrongType("flavor")), rest;
    }
    flavor := Map(flavor.fields - {"links"});
    server.entries := server.entries["flavor" := flavor];
    rest := rest - {"flavor"};
    if "image" !in rest {
      return Err(MissingKey("image")), rest;
    }
    image := rest["image"];
    // `str(image) != image` holds for everything but a string.
    if !image.Str? {
      if !image.Map? {
        return Err(WrongType("image")), rest;
      }
      image := Map(image.fields - {"links"});
      server.entries := server.entries["image" := image];
    }
    rest := rest - {"image"};
    r := Ok(Head(id, name, flavor, image));
  }

  /** What the placement block removes from the copy. */
  function PlacementKeys(strict: bool): set<string> {
    {"project_id", "tenant_id", "config_drive", "hostId"} + if strict then {AzKey, VolumesKey} else {}
  }

  /** The project, zone, volumes, config drive and host id block. */
  method PopPlacement(strict: bool, d: Record) returns (p: Placement, rest: Record)
    ensures p == PlacementOf(d)
    ensures rest == d - PlacementKeys(strict)
  {
    ghost var c1 := d - {"project_id", "tenant_id"};
    ghost var c2 := if strict then c1 - {AzKey} else c1;
    ghost var c3 := if strict then c2 - {VolumesKey} else c2;
    assert Lookup(c1, AzKey, Null) == Lookup(d, AzKey, Null);
    assert Lookup(c2, VolumesKey, List([])) == Lookup(d, VolumesKey, List([]));
    assert Lookup(c3, "config_drive", Bool(false)) == Lookup(d, "config_drive", Bool(false));
    assert Lookup(c3 - {"config_drive"}, "hostId", Null) == Lookup(d, "hostId", Null);
    assert c3 - {"config_drive"} - {"hostId"} == d - PlacementKeys(strict);

    var project, az, volumes, drive, host;
    project, rest := PopFallback(d, "project_id", "tenant_id", Str(""));
    az, rest := PopOrGet(rest, AzKey, Null, strict);
    volumes, rest := PopOrGet(rest, VolumesKey, List([]), strict);
    drive, rest := PopOr(rest, "config_drive", Bool(false));
    host, rest := PopOr(rest, "hostId", Null);
    p := Placement(project, az, volumes, drive, host);
  }

  /** `for key in keys: ret[key.split(':')[1]] = _pop_or_get(server, key, absent, strict)` */
  method PopRenamed(d: Record, keys: seq<(string, string)>, absent: Value, strict: bool, into: Record)
    returns (r: Record, rest: Record)
    requires SplitKeys(keys)
    ensures r == into + Renamed(d, keys, absent)
    ensures rest == if strict then d - Joined(keys) else d
  {
    r, rest := into, d;
    for i := 0 to |keys|
      invariant r == into + Renamed(d, keys[..i], absent)
      invariant rest == if strict then d - Joined(keys[..i]) else d
    {
      assert keys[..i + 1][..i] == keys[..i];
      var key := Key(keys[i].0, keys[i].1);
      JoinedLater(keys, i);
      SplitSecondOf(keys[i].0, keys[i].1);
      var v;
      v, rest := PopOrGet(rest, key, absent, strict);
      UnionUpdate(into, Renamed(d, keys[..i], absent), SplitSecond(key), v);
      r := r[SplitSecond(key) := v];
    }
    assert keys[..|keys|] == keys;
  }

  /** The status loop over the five extended status keys. */
  method PopStatus(d: Record, strict: bool, into: Record) returns (r: Record, rest: Record)
    ensures r == into + Status(d)
    ensures rest == if strict then d - StatusKeySet else d
  {
    RenamedStatus(d);
    JoinedStatus();
    StatusKeysSplit();
    r, rest := PopRenamed(d, StatusKeys, Null, strict, into);
  }

  lemma FieldListListed()
    ensures Distinct(FieldList) && KeysOf(FieldList) == FieldSet
  {
    FieldListDistinct();
  }

  lemma FieldListDistinct()
    ensures Distinct(FieldList)
  {
  }

  /** `for field in _SERVER_FIELDS: ret[field] = server.pop(field, None)` */
  method PopFields(d: Record, into: Record) returns (r: Record, rest: Record)
    ensures r == into + Picked(d, FieldSet, Null)
    ensures rest == d - FieldSet
  {
    FieldListListed();
    r, rest := PopEach(d, FieldList, into, Null);
  }

  // What the copy reads at each stage is what the caller's dict holds.

  lemma HeadCopy(raw: Record)
    ensures HeadOf(raw - Noise) == HeadOf(raw)
    ensures Shared(raw - Noise, raw) == Shared(raw, raw)
  {
    assert forall k :: k in HeadKeys ==> Lookup(raw - Noise, k, Null) == Lookup(raw, k, Null);
  }

  lemma PlacementMinus(d: Record, gone: set<string>)
    requires gone !! ({"project_id", "tenant_id", "config_drive", "hostId"} + VendorKeys)
    ensures PlacementOf(d - gone) == PlacementOf(d)
  {
    assert Lookup(d - gone, "tenant_id", Str("")) == Lookup(d, "tenant_id", Str(""));
    assert ProjectOf(d - gone) == ProjectOf(d);
    assert Lookup(d - gone, AzKey, Null) == Lookup(d, AzKey, Null);
    assert Lookup(d - gone, VolumesKey, List([])) == Lookup(d, VolumesKey, List([]));
  }

  lemma StatusMinus(d: Record, gone: set<string>)
    requires gone !! StatusKeySet
    ensures Status(d - gone) == Status(d)
  {
  }

  /** The keys popped before the disk config. */
  function Popped(strict: bool): set<string> {
    Noise + HeadKeys + PlacementKeys(strict) + {"progress"}
  }

  /** The keys popped before the status loop. */
  function BeforeStatus(strict: bool): set<string> {
    if strict then Popped(strict) + {DiskKey} else Popped(strict)
  }

  /** The keys popped before the `_SERVER_FIELDS` loop. */
  function AfterStatus(strict: bool): set<string> {
    if strict then BeforeStatus(strict) + StatusKeySet else BeforeStatus(strict)
  }

  lemma PlacementUnpopped()
    ensures (Noise + HeadKeys) !! ({"project_id", "tenant_id", "config_drive", "hostId"} + VendorKeys)
  {
    NoiseHeadNotPlain();
    LooseNotPlain();
    StatusKeysNotPlain();
  }

  lemma NoiseHeadNotPlain()
    ensures Noise + HeadKeys !! PlainKeys
  {
  }

  lemma ProgressUnpopped(strict: bool)
    ensures "progress" !in Noise + HeadKeys + PlacementKeys(strict)
    ensures DiskKey !in Popped(strict)
  {
  }

  lemma StatusUnpopped(strict: bool)
    ensures BeforeStatus(strict) !! StatusKeySet
  {
    StatusKeysNotPlain();
  }

  lemma FieldsUnpopped(strict: bool)
    ensures AfterStatus(strict) !! FieldSet
    ensures AfterStatus(strict) + FieldSet == Claimed(strict)
  {
    AllClaimed(strict);
    NoiseNotFields();
    HeadNotFields();
    PlainNotFields();
    LooseNotFields();
    StatusKeysNotFields();
  }

  lemma AllClaimed(strict: bool)
    ensures AfterStatus(strict) + FieldSet == Claimed(strict)
  {
  }

  lemma PlacementCopy(raw: Record)
    ensures PlacementOf(raw - (Noise + HeadKeys)) == PlacementOf(raw)
  {
    PlacementUnpopped();
    PlacementMinus(raw, Noise + HeadKeys);
  }

  lemma ProgressCopy(strict: bool, raw: Record)
    ensures Lookup(raw - (Noise + HeadKeys + PlacementKeys(strict)), "progress", Int(0)) == Lookup(raw, "progress", Int(0))
    ensures Lookup(raw - Popped(strict), DiskKey, Null) == Lookup(raw, DiskKey, Null)
  {
    ProgressUnpopped(strict);
  }

  /** What is left once the disk config has been popped (strict) or read. */
  lemma BeforeStatusRest(strict: bool, raw: Record, d: Record)
    requires d == if strict then raw - Popped(strict) - {DiskKey} else raw - Popped(strict)
    ensures d == raw - BeforeStatus(strict)
  {
    if strict {
      MinusMinus(raw, Popped(strict), {DiskKey});
    }
  }

  /** What is left once the status keys have been popped (strict) or read. */
  lemma AfterStatusRest(strict: bool, raw: Record, d: Record)
    requires d == if strict then raw - BeforeStatus(strict) - StatusKeySet else raw - BeforeStatus(strict)
    ensures d == raw - AfterStatus(strict)
  {
    if strict {
      MinusMinus(raw, BeforeStatus(strict), StatusKeySet);
    }
  }

  lemma StatusCopy(strict: bool, raw: Record)
    ensures Status(raw - BeforeStatus(strict)) == Status(raw)
  {
    StatusUnpopped(strict);
    StatusMinus(raw, BeforeStatus(strict));
  }

  lemma FieldsCopy(strict: bool, raw: Record)
    ensures Picked(raw - AfterStatus(strict), FieldSet, Null) == Picked(raw, FieldSet, Null)
    ensures raw - AfterStatus(strict) - FieldSet == Properties(strict, raw)
  {
    FieldsUnpopped(strict);
    PickedMinus(raw, FieldSet, AfterStatus(strict), Null);
    MinusMinus(raw, AfterStatus(strict), FieldSet);
  }

  /** The copied fields are assigned onto the computed ones: the result is their merge. */
  lemma TailAssembled(computed: Record, status: Record, picked: Record, properties: Value)
    ensures ((computed + status) + picked)["interface_ip" := Str("")]["properties" := properties]
      == computed + (status + picked)["interface_ip" := Str("")]["properties" := properties]
  {
    assert (computed + status) + picked == computed + (status + picked);
    UnionUpdate(computed, status + picked, "interface_ip", Str(""));
    UnionUpdate(computed, (status + picked)["interface_ip" := Str("")], "properties", properties);
  }

  /** The legacy keys assigned over the record, then `setdefault` of every property. */
  method AddLegacy(ctx: Context, ret: Record, p: Placement, properties: Record) returns (r: Record)
    ensures r == Flattened(ret, Legacy(ctx, p), properties)
  {
    r := ret["hostId" := p.hostId];
    assert r == ret + map["hostId" := p.hostId];
    UnionUpdate(ret, map["hostId" := p.hostId], "config_drive", p.configDrive);
    r := r["config_drive" := p.configDrive];
    UnionUpdate(ret, map["hostId" := p.hostId, "config_drive" := p.configDrive], "project_id", p.project);
    r := r["project_id" := p.project];
    UnionUpdate(ret, map["hostId" := p.hostId, "config_drive" := p.configDrive, "project_id" := p.project],
                "tenant_id", p.project);
    r := r["tenant_id" := p.project];
    UnionUpdate(ret, map["hostId" := p.hostId, "config_drive" := p.configDrive, "project_id" := p.project,
                         "tenant_id" := p.project], "region", ctx.regionName);
    r := r["region" := ctx.regionName];
    UnionUpdate(ret, map["hostId" := p.hostId, "config_drive" := p.configDrive, "project_id" := p.project,
                         "tenant_id" := p.project, "region" := ctx.regionName], "cloud", ctx.cloudName);
    r := r["cloud" := ctx.cloudName];
    UnionUpdate(ret, map["hostId" := p.hostId, "config_drive" := p.configDrive, "project_id" := p.project,
                         "tenant_id" := p.project, "region" := ctx.regionName, "cloud" := ctx.cloudName],
                "az", p.az);
    r := r["az" := p.az];
    assert r == ret + Legacy(ctx, p);
    r := SetDefaults(r, properties);
  }

  /**
   * `_normalize_server`: it works on a copy of the caller's dict, but the
   * nested `flavor` and `image` dicts are shared, and lose `links`.
   */
  method NormalizeServer(ctx: Context, server: Dict) returns (r: Result<Record>)
    modifies server
    ensures r == Spec(ctx, old(server.entries))
    ensures server.entries == Shared(old(server.entries), old(server.entries))
  {
    var raw := server.entries;
    var strict := ctx.strictMode;
    HeadCopy(raw);
    var d := DropNoise(raw);
    var head;
    head, d :- PopHead(server, d);
    MinusMinus(raw, Noise, HeadKeys);
    var ret: Record := map["id" := head.id];
    ret := ret["name" := head.name];
    ret := ret["flavor" := head.flavor];
    ret := ret["image" := head.image];

    var p;
    ret, p, d := PlaceServer(ctx, raw, ret, d);
    var progress, disk;
    ProgressCopy(strict, raw);
    progress, d :- PopInt(d, "progress");
    MinusMinus(raw, Noise + HeadKeys + PlacementKeys(strict), {"progress"});
    ret := ret["progress" := Int(progress)];
    disk, d := PopOrGet(d, DiskKey, Null, strict);
    BeforeStatusRest(strict, raw, d);
    ret := ret["disk_config" := disk];
    ComputedInOrder(ctx, head, p, progress, disk);

    ret, d := AddTail(strict, raw, ret, d);
    assert ret == Canonical(ctx, raw, head, progress);

    // Backwards compatibility.
    if !strict {
      ret := AddLegacy(ctx, ret, p, d);
    }
    return Ok(ret);
  }

  /** The placement block of `_normalize_server`, and the fields it sets. */
  method PlaceServer(ctx: Context, ghost raw: Record, ret: Record, d: Record) returns (r: Record, p: Placement, rest: Record)
    requires d == raw - (Noise + HeadKeys)
    ensures p == PlacementOf(raw)
    ensures rest == raw - (Noise + HeadKeys + PlacementKeys(ctx.strictMode))
    ensures r == ret["location" := ctx.locationOf(p.project, p.az)]["volumes" := p.volumes]
      ["has_config_drive" := Bool(ToBool(p.configDrive))]["host_id" := p.hostId]
  {
    PlacementCopy(raw);
    p, rest := PopPlacement(ctx.strictMode, d);
    MinusMinus(raw, Noise + HeadKeys, PlacementKeys(ctx.strictMode));
    r := ret["location" := ctx.locationOf(p.project, p.az)];
    r := r["volumes" := p.volumes];
    r := r["has_config_drive" := Bool(ToBool(p.configDrive))];
    r := r["host_id" := p.hostId];
  }

  /** The status and `_SERVER_FIELDS` blocks, then `interface_ip` and `properties`. */
  method AddTail(strict: bool, ghost raw: Record, ret: Record, d: Record) returns (r: Record, rest: Record)
    requires d == raw - BeforeStatus(strict)
    ensures r == ret + Tail(strict, raw)
    ensures rest == Properties(strict, raw)
  {
    StatusCopy(strict, raw);
    r, rest := PopStatus(d, strict, ret);
    AfterStatusRest(strict, raw, rest);
    FieldsCopy(strict, raw);
    r, rest := PopFields(rest, r);
    r := r["interface_ip" := Str("")];
    r := r["properties" := Map(rest)];
    TailAssembled(ret, Status(raw), Picked(raw, FieldSet, Null), Map(rest));
  }

  /** Spec as a function value, for the list wrapper. */
  function SpecOf(ctx: Context): Record -> Result<Record> {
    raw => Spec(ctx, raw)
  }

  /**
   * Normalizing a server dict that is either as handed in or already
   * visited: the result is that of the dict as handed in, and afterwards it
   * has lost its nested `links`.
   */
  method Revisit(ctx: Context, server: Dict, ghost raw: Record) returns (r: Result<Record>)
    requires server.entries == raw || server.entries == Shared(raw, raw)
    modifies server
    ensures r == SpecOf(ctx)(raw)
    ensures server.entries == Shared(raw, raw)
  {
    SharedSpec(ctx, raw);
    SharedIdempotent(raw);
    r := NormalizeServer(ctx, server);
  }

  /**
   * `_normalize_servers`: each result is that of its dict as handed in, even
   * when a dict is listed twice, since a second visit normalizes as the
   * first did. Every dict visited, up to the one that raises, has lost the
   * `links` of its nested `flavor` and `image`; the others are untouched.
   */
  method NormalizeServers(ctx: Context, servers: seq<Dict>) returns (r: Result<seq<Record>>)
    modifies servers
    ensures r == MapResults(SpecOf(ctx), old(Entries(servers)))
    ensures forall j :: 0 <= j < |servers| ==>
      servers[j].entries ==
        if Visited(SpecOf(ctx), old(Entries(servers)), servers, servers[j])
        then Shared(old(servers[j].entries), old(servers[j].entries))
        else old(servers[j].entries)
  {
    ghost var raws := Entries(servers);
    var ret: seq<Record> := [];
    assert forall j, k :: 0 <= j < |servers| && 0 <= k < |servers| && servers[j] == servers[k] ==> raws[j] == raws[k];
    for i := 0 to |servers|
      invariant MapResults(SpecOf(ctx), raws[..i]) == Ok(ret)
      invariant Reached(SpecOf(ctx), raws, i)
      invariant forall j :: 0 <= j < |servers| ==>
        servers[j].entries == if Seen(servers, i, servers[j]) then Shared(raws[j], raws[j]) else raws[j]
    {
      ghost var before := Entries(servers);
      var n := Revisit(ctx, servers[i], raws[i]);
      forall j | 0 <= j < |servers|
        ensures servers[j].entries ==
          if Seen(servers, i + 1, servers[j]) then Shared(raws[j], raws[j]) else raws[j]
      {
        SeenStep(servers, i, servers[j]);
        if servers[j] != servers[i] {
          assert servers[j].entries == before[j];
        }
      }
      MapResultsStep(SpecOf(ctx), raws, i, ret);
      if n.Err? {
        MapResultsPrefixErr(SpecOf(ctx), raws, i + 1);
        forall d | d in servers {
          VisitedSeen(SpecOf(ctx), raws, servers, i + 1, d);
        }
        return Err(n.error);
      }
      ReachedStep(SpecOf(ctx), raws, i);
      ret := ret + [n.value];
    }
    forall d | d in servers {
      VisitedSeen(SpecOf(ctx), raws, servers, |servers|, d);
    }
    assert raws[..|servers|] == raws;
    return Ok(ret);
  }
}
