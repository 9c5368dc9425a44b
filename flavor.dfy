/**
 * `Normalizer._normalize_flavor` and `_normalize_flavors`
 * (shade/_normalize.py:87-137).
 */
module Flavors {
  import opened Values
  import opened Dicts
  import opened Ambient

  const VendorEphemeral := "OS-FLV-EXT-DATA:ephemeral"
  const VendorIsPublic := "os-flavor-access:is_public"
  const VendorDisabled := "OS-FLV-DISABLED:disabled"

  /** The vendor keys, read with `_pop_or_get`: claimed only in strict mode. */
  const VendorKeys: set<string> := {VendorEphemeral, VendorIsPublic, VendorDisabled}

  /** The plain keys popped together with the vendor keys. */
  const FlagKeys: set<string> := {"ephemeral", "is_public", "extra_specs"}

  /** The keys popped and coerced with `_pop_int` / `_pop_float`. */
  const SizeKeys: set<string> := {"ram", "vcpus", "disk", "swap", "rxtx_factor"}

  /** The canonical fields of a normalized flavor. */
  const Fields: set<string> :=
    {"location", "id", "name", "is_public", "is_disabled", "ram", "vcpus", "disk",
     "ephemeral", "swap", "rxtx_factor", "properties", "extra_specs"}

  /** What the flag block removes from the copy. */
  function PoppedFlagKeys(strict: bool): set<string> {
    FlagKeys + if strict then VendorKeys else {}
  }

  /** Every key the normalizer removes from its copy. */
  function Claimed(strict: bool): set<string> {
    Noise + PoppedFlagKeys(strict) + {"id", "name"} + SizeKeys
  }

  /** What the normalized flavor keeps in `properties`: every key not claimed. */
  function Properties(ctx: Context, raw: Record): Record {
    raw - Claimed(ctx.strictMode)
  }

  datatype Flags = Flags(ephemeral: Value, isPublic: bool, isDisabled: bool, extraSpecs: Value)

  /**
   * The ephemeral size, visibility, disabled flag and extra specs of a flavor:
   * each plain key wins over its vendor-prefixed key, whose value (or default)
   * is the fallback. Only the vendor ephemeral size is converted with `int()`.
   */
  function FlagsOf(d: Record): Result<Flags> {
    var vendorEphemeral :- PyInt(Lookup(d, VendorEphemeral, Int(0)));
    Ok(Flags(
      Lookup(d, "ephemeral", Int(vendorEphemeral)),
      ToBool(Lookup(d, "is_public", Bool(ToBool(Lookup(d, VendorIsPublic, Bool(true)))))),
      ToBool(Lookup(d, VendorDisabled, Bool(false))),
      Lookup(d, "extra_specs", Map(map[]))))
  }

  datatype Sizes = Sizes(ram: int, vcpus: int, disk: int, swap: int, rxtxFactor: real)

  /** The sizes, each `int(v or 0)` (`float` for the RXTX factor), converted in source order. */
  function SizesOf(d: Record): Result<Sizes> {
    var ram :- IntOrZero(Lookup(d, "ram", Int(0)));
    var vcpus :- IntOrZero(Lookup(d, "vcpus", Int(0)));
    var disk :- IntOrZero(Lookup(d, "disk", Int(0)));
    var swap :- IntOrZero(Lookup(d, "swap", Int(0)));
    var rxtx :- FloatOrZero(Lookup(d, "rxtx_factor", Int(0)));
    Ok(Sizes(ram, vcpus, disk, swap, rxtx))
  }

  /** The canonical fields, before strict mode decides about flattening. */
  function Canonical(ctx: Context, raw: Record, flags: Flags, sizes: Sizes): Record
    requires "id" in raw && "name" in raw
  {
    Assembled(ctx, raw, flags, sizes, Properties(ctx, raw))
  }

  /** The canonical display, over a given properties record. */
  function Assembled(ctx: Context, raw: Record, flags: Flags, sizes: Sizes, properties: Record): Record
    requires "id" in raw && "name" in raw
  {
    map[
      "location" := ctx.currentLocation,
      "id" := raw["id"],
      "name" := raw["name"],
      "is_public" := Bool(flags.isPublic),
      "is_disabled" := Bool(flags.isDisabled),
      "ram" := Int(sizes.ram),
      "vcpus" := Int(sizes.vcpus),
      "disk" := Int(sizes.disk),
      "ephemeral" := flags.ephemeral,
      "swap" := Int(sizes.swap),
      "rxtx_factor" := Real(sizes.rxtxFactor),
      "properties" := Map(properties),
      "extra_specs" := flags.extraSpecs]
  }

  /**
   * The normalized flavor, stated on the caller's dict. Exceptions come in
   * the order the source raises them: the vendor ephemeral size, `id`,
   * `name`, then the sizes. Outside strict mode the properties are flattened
   * under the canonical fields.
   */
  function Spec(ctx: Context, raw: Record): Result<Record> {
    var flags :- FlagsOf(raw);
    if "id" !in raw then Err(MissingKey("id"))
    else if "name" !in raw then Err(MissingKey("name"))
    else
      var sizes :- SizesOf(raw);
      var canonical := Canonical(ctx, raw, flags, sizes);
      Ok(if ctx.strictMode then canonical else Properties(ctx, raw) + canonical)
  }

  // ---------------------------------------------------------------------
  // What a normalized flavor is

  /**
   * A flavor fails exactly when the vendor ephemeral size is not an int,
   * `id` or `name` is missing, or a size does not convert; a missing `id`
   * is reported before a missing `name`.
   */
  lemma FlavorErrors(ctx: Context, raw: Record)
    ensures Spec(ctx, raw).Err? <==>
      FlagsOf(raw).Err? || "id" !in raw || "name" !in raw || SizesOf(raw).Err?
    ensures FlagsOf(raw).Ok? && "id" !in raw ==> Spec(ctx, raw) == Err(MissingKey("id"))
    ensures FlagsOf(raw).Ok? && "id" in raw && "name" !in raw ==> Spec(ctx, raw) == Err(MissingKey("name"))
    ensures FlagsOf(raw).Err? <==> PyInt(Lookup(raw, VendorEphemeral, Int(0))).Err?
  {
  }

  /** The canonical record has the canonical fields, each holding its stage's result. */
  lemma CanonicalFields(ctx: Context, raw: Record, flags: Flags, sizes: Sizes)
    requires "id" in raw && "name" in raw
    ensures var c := Canonical(ctx, raw, flags, sizes);
      && c.Keys == Fields
      && c["location"] == ctx.currentLocation && c["id"] == raw["id"] && c["name"] == raw["name"]
      && c["is_public"] == Bool(flags.isPublic) && c["is_disabled"] == Bool(flags.isDisabled)
      && c["ephemeral"] == flags.ephemeral && c["extra_specs"] == flags.extraSpecs
      && c["ram"] == Int(sizes.ram) && c["vcpus"] == Int(sizes.vcpus)
      && c["disk"] == Int(sizes.disk) && c["swap"] == Int(sizes.swap)
      && c["rxtx_factor"] == Real(sizes.rxtxFactor) && c["properties"] == Map(Properties(ctx, raw))
  {
    AssembledFields(ctx, raw, flags, sizes, Properties(ctx, raw));
  }

  lemma AssembledFields(ctx: Context, raw: Record, flags: Flags, sizes: Sizes, properties: Record)
    requires "id" in raw && "name" in raw
    ensures Assembled(ctx, raw, flags, sizes, properties).Keys == Fields
    ensures var c := Assembled(ctx, raw, flags, sizes, properties);
      && c["location"] == ctx.currentLocation && c["id"] == raw["id"] && c["name"] == raw["name"]
      && c["is_public"] == Bool(flags.isPublic) && c["is_disabled"] == Bool(flags.isDisabled)
      && c["ephemeral"] == flags.ephemeral && c["extra_specs"] == flags.extraSpecs
      && c["ram"] == Int(sizes.ram) && c["vcpus"] == Int(sizes.vcpus)
      && c["disk"] == Int(sizes.disk) && c["swap"] == Int(sizes.swap)
      && c["rxtx_factor"] == Real(sizes.rxtxFactor) && c["properties"] == Map(properties)
  {
    AssembledKeys(ctx, raw, flags, sizes, properties);
  }

  lemma AssembledKeys(ctx: Context, raw: Record, flags: Flags, sizes: Sizes, properties: Record)
    requires "id" in raw && "name" in raw
    ensures Assembled(ctx, raw, flags, sizes, properties).Keys == Fields
  {
  }

  /** A normalized flavor holds the canonical fields, whatever the mode. */
  lemma FlavorShape(ctx: Context, raw: Record)
    requires Spec(ctx, raw).Ok?
    ensures FlagsOf(raw).Ok? && "id" in raw && "name" in raw && SizesOf(raw).Ok?
    ensures var c := Canonical(ctx, raw, FlagsOf(raw).value, SizesOf(raw).value);
      && Spec(ctx, raw).value == (if ctx.strictMode then c else Properties(ctx, raw) + c)
      && forall k :: k in c ==> Spec(ctx, raw).value[k] == c[k]
  {
  }

  /** The identity of a flavor is copied through. */
  lemma FlavorIdentity(ctx: Context, raw: Record)
    requires Spec(ctx, raw).Ok?
    ensures "id" in raw && "name" in raw
    ensures Spec(ctx, raw).value["id"] == raw["id"] && Spec(ctx, raw).value["name"] == raw["name"]
    ensures Spec(ctx, raw).value["location"] == ctx.currentLocation
  {
    FlavorShape(ctx, raw);
    CanonicalFields(ctx, raw, FlagsOf(raw).value, SizesOf(raw).value);
  }

  /**
   * `ephemeral`: the plain key wins; otherwise the vendor key's value
   * converted with `int()`, and 0 when both are absent.
   */
  lemma FlavorEphemeral(ctx: Context, raw: Record)
    requires Spec(ctx, raw).Ok?
    ensures "ephemeral" in raw ==> Spec(ctx, raw).value["ephemeral"] == raw["ephemeral"]
    ensures "ephemeral" !in raw && VendorEphemeral in raw ==>
      Spec(ctx, raw).value["ephemeral"] == Int(PyInt(raw[VendorEphemeral]).value)
    ensures "ephemeral" !in raw && VendorEphemeral !in raw ==> Spec(ctx, raw).value["ephemeral"] == Int(0)
  {
  }

  /**
   * `is_public`: the plain key wins over the vendor key, which defaults to
   * true; `is_disabled` is the vendor flag, which defaults to false. Both
   * go through `_to_bool`.
   */
  lemma FlavorVisibility(ctx: Context, raw: Record)
    requires Spec(ctx, raw).Ok?
    ensures "is_public" in raw ==> Spec(ctx, raw).value["is_public"] == Bool(ToBool(raw["is_public"]))
    ensures "is_public" !in raw && VendorIsPublic in raw ==>
      Spec(ctx, raw).value["is_public"] == Bool(ToBool(raw[VendorIsPublic]))
    ensures "is_public" !in raw && VendorIsPublic !in raw ==> Spec(ctx, raw).value["is_public"] == Bool(true)
    ensures Spec(ctx, raw).value["is_disabled"] == Bool(VendorDisabled in raw && ToBool(raw[VendorDisabled]))
  {
    FlavorShape(ctx, raw);
    CanonicalFields(ctx, raw, FlagsOf(raw).value, SizesOf(raw).value);
  }

  /** `ram`, `vcpus`, `disk` and `swap` are ints: 0 when missing or falsy, else `int()` of the value. */
  lemma FlavorSizes(ctx: Context, raw: Record, k: string)
    requires Spec(ctx, raw).Ok? && k in {"ram", "vcpus", "disk", "swap"}
    ensures Spec(ctx, raw).value[k].Int?
    ensures k !in raw || !Truthy(raw[k]) ==> Spec(ctx, raw).value[k] == Int(0)
    ensures k in raw && Truthy(raw[k]) ==> Spec(ctx, raw).value[k] == Int(PyInt(raw[k]).value)
  {
    FlavorShape(ctx, raw);
    var sizes := SizesOf(raw).value;
    CanonicalFields(ctx, raw, FlagsOf(raw).value, sizes);
    SizesOfFields(raw);
    var n := if k == "ram" then sizes.ram else if k == "vcpus" then sizes.vcpus
      else if k == "disk" then sizes.disk else sizes.swap;
    assert Spec(ctx, raw).value[k] == Int(n);
    assert IntOrZero(Lookup(raw, k, Int(0))) == Ok(n);
  }

  /** Each size is the conversion of its own key. */
  lemma SizesOfFields(d: Record)
    requires SizesOf(d).Ok?
    ensures var s := SizesOf(d).value;
      && IntOrZero(Lookup(d, "ram", Int(0))) == Ok(s.ram)
      && IntOrZero(Lookup(d, "vcpus", Int(0))) == Ok(s.vcpus)
      && IntOrZero(Lookup(d, "disk", Int(0))) == Ok(s.disk)
      && IntOrZero(Lookup(d, "swap", Int(0))) == Ok(s.swap)
  {
  }

  /** Outside strict mode the vendor keys are not claimed. */
  lemma VendorKeysUnclaimed()
    ensures VendorKeys !! Claimed(false)
  {
  }

  /**
   * `properties` holds exactly the keys the normalizer does not claim, with
   * their values; outside strict mode the vendor keys, which are only read,
   * stay among them.
   */
  lemma FlavorProperties(ctx: Context, raw: Record)
    requires Spec(ctx, raw).Ok?
    ensures Spec(ctx, raw).value["properties"].Map?
    ensures var props := Spec(ctx, raw).value["properties"].fields;
      && (forall k :: k in raw ==> (k in props <==> k !in Claimed(ctx.strictMode)))
      && (forall k :: k in props ==> k in raw && props[k] == raw[k])
      && (!ctx.strictMode ==> forall k :: k in VendorKeys && k in raw ==> k in props)
  {
    FlavorShape(ctx, raw);
    CanonicalFields(ctx, raw, FlagsOf(raw).value, SizesOf(raw).value);
    VendorKeysUnclaimed();
  }

  /**
   * In strict mode the result has exactly the canonical fields. Outside it,
   * every property is also a top-level key, but a canonical field is never
   * overwritten by one: its value is the strict-mode value.
   */
  lemma FlavorFlattening(ctx: Context, raw: Record)
    requires Spec(ctx, raw).Ok?
    ensures ctx.strictMode ==> Spec(ctx, raw).value.Keys == Fields
    ensures !ctx.strictMode ==> Spec(ctx, raw).value.Keys == Fields + Properties(ctx, raw).Keys
    ensures !ctx.strictMode ==> forall k :: k in Properties(ctx, raw) && k !in Fields ==>
      Spec(ctx, raw).value[k] == raw[k]
    ensures var strict := ctx.(strictMode := true);
      !ctx.strictMode ==> forall k :: k in Fields - {"properties"} ==>
        Spec(ctx, raw).value[k] == Spec(strict, raw).value[k]
  {
  }

  /** The flag block of `_normalize_flavor`, popping from the copy d. */
  method PopFlags(strict: bool, d: Record) returns (r: Result<Flags>, rest: Record)
    ensures r == FlagsOf(d)
    ensures r.Ok? ==> rest == d - PoppedFlagKeys(strict)
  {
    // The copy after each pop, and what the later pops read through it.
    ghost var c1 := if strict then d - {VendorEphemeral} else d;
    ghost var c2 := c1 - {"ephemeral"};
    ghost var c3 := if strict then c2 - {VendorIsPublic} else c2;
    ghost var c4 := c3 - {"is_public"};
    ghost var c5 := if strict then c4 - {VendorDisabled} else c4;
    assert Lookup(c2, VendorIsPublic, Bool(true)) == Lookup(d, VendorIsPublic, Bool(true));
    assert Lookup(c4, VendorDisabled, Bool(false)) == Lookup(d, VendorDisabled, Bool(false));
    assert Lookup(c5, "extra_specs", Map(map[])) == Lookup(d, "extra_specs", Map(map[]));
    assert c5 - {"extra_specs"} == d - PoppedFlagKeys(strict);

    var vendorEphemeral, ephemeral, vendorIsPublic, isPublic, isDisabled, extraSpecs;
    vendorEphemeral, rest := PopOrGet(d, VendorEphemeral, Int(0), strict);
    var vendorEphemeralSize :- PyInt(vendorEphemeral);
    assert Lookup(c1, "ephemeral", Int(vendorEphemeralSize)) == Lookup(d, "ephemeral", Int(vendorEphemeralSize));
    ephemeral, rest := PopOr(rest, "ephemeral", Int(vendorEphemeralSize));
    vendorIsPublic, rest := PopOrGet(rest, VendorIsPublic, Bool(true), strict);
    assert Lookup(c3, "is_public", Bool(ToBool(vendorIsPublic))) == Lookup(d, "is_public", Bool(ToBool(vendorIsPublic)));
    isPublic, rest := PopOr(rest, "is_public", Bool(ToBool(vendorIsPublic)));
    isDisabled, rest := PopOrGet(rest, VendorDisabled, Bool(false), strict);
    extraSpecs, rest := PopOr(rest, "extra_specs", Map(map[]));
    r := Ok(Flags(ephemeral, ToBool(isPublic), ToBool(isDisabled), extraSpecs));
  }

  /** The `_pop_int` / `_pop_float` block of `_normalize_flavor`. */
  method PopSizes(d: Record) returns (r: Result<Sizes>, rest: Record)
    ensures r == SizesOf(d)
    ensures r.Ok? ==> rest == d - SizeKeys
  {
    assert Lookup(d - {"ram"}, "vcpus", Int(0)) == Lookup(d, "vcpus", Int(0));
    assert Lookup(d - {"ram"} - {"vcpus"}, "disk", Int(0)) == Lookup(d, "disk", Int(0));
    assert Lookup(d - {"ram"} - {"vcpus"} - {"disk"}, "swap", Int(0)) == Lookup(d, "swap", Int(0));
    assert Lookup(d - {"ram"} - {"vcpus"} - {"disk"} - {"swap"}, "rxtx_factor", Int(0)) == Lookup(d, "rxtx_factor", Int(0));
    assert d - {"ram"} - {"vcpus"} - {"disk"} - {"swap"} - {"rxtx_factor"} == d - SizeKeys;

    var ram, vcpus, disk, swap, rxtx;
    ram, rest :- PopInt(d, "ram");
    vcpus, rest :- PopInt(rest, "vcpus");
    disk, rest :- PopInt(rest, "disk");
    swap, rest :- PopInt(rest, "swap");
    rxtx, rest :- PopFloat(rest, "rxtx_factor");
    r := Ok(Sizes(ram, vcpus, disk, swap, rxtx));
  }

  // What the copy reads at each stage of `_normalize_flavor` is what the
  // caller's dict holds.

  lemma FlagsOfCopy(raw: Record)
    ensures FlagsOf(raw - Noise) == FlagsOf(raw)
  {
    assert Lookup(raw - Noise, VendorEphemeral, Int(0)) == Lookup(raw, VendorEphemeral, Int(0));
  }

  lemma NamesOfCopy(strict: bool, raw: Record)
    ensures var f := raw - Noise - PoppedFlagKeys(strict);
      && ("id" in f <==> "id" in raw) && ("id" in raw ==> f["id"] == raw["id"])
      && ("name" in f - {"id"} <==> "name" in raw) && ("name" in raw ==> (f - {"id"})["name"] == raw["name"])
  {
  }

  lemma SizesOfMinus(d: Record, gone: set<string>)
    requires gone !! SizeKeys
    ensures SizesOf(d - gone) == SizesOf(d)
  {
    assert Lookup(d - gone, "ram", Int(0)) == Lookup(d, "ram", Int(0));
    assert Lookup(d - gone, "vcpus", Int(0)) == Lookup(d, "vcpus", Int(0));
    assert Lookup(d - gone, "disk", Int(0)) == Lookup(d, "disk", Int(0));
    assert Lookup(d - gone, "swap", Int(0)) == Lookup(d, "swap", Int(0));
  }

  lemma SizesOfCopy(strict: bool, raw: Record)
    ensures SizesOf(raw - Noise - PoppedFlagKeys(strict) - {"id"} - {"name"}) == SizesOf(raw)
  {
    var gone := Noise + PoppedFlagKeys(strict) + {"id", "name"};
    assert raw - Noise - PoppedFlagKeys(strict) - {"id"} - {"name"} == raw - gone;
    SizesOfMinus(raw, gone);
  }

  lemma PropertiesOfCopy(ctx: Context, raw: Record)
    ensures raw - Noise - PoppedFlagKeys(ctx.strictMode) - {"id"} - {"name"} - SizeKeys == Properties(ctx, raw)
  {
  }

  /** `_normalize_flavor`: it works on a copy, so the caller's dict is not modified. */
  method NormalizeFlavor(ctx: Context, flavor: Dict) returns (r: Result<Record>)
    ensures r == Spec(ctx, flavor.entries)
  {
    var raw := flavor.entries;
    FlagsOfCopy(raw);
    NamesOfCopy(ctx.strictMode, raw);
    SizesOfCopy(ctx.strictMode, raw);
    PropertiesOfCopy(ctx, raw);
    var f := DropNoise(raw);
    var flags, id, name, sizes;
    flags, f :- PopFlags(ctx.strictMode, f);

    var ret: Record := map["location" := ctx.currentLocation];
    id, f :- Pop(f, "id");
    ret := ret["id" := id];
    name, f :- Pop(f, "name");
    ret := ret["name" := name];
    ret := ret["is_public" := Bool(flags.isPublic)];
    ret := ret["is_disabled" := Bool(flags.isDisabled)];
    sizes, f :- PopSizes(f);
    ret := ret["ram" := Int(sizes.ram)];
    ret := ret["vcpus" := Int(sizes.vcpus)];
    ret := ret["disk" := Int(sizes.disk)];
    ret := ret["ephemeral" := flags.ephemeral];
    ret := ret["swap" := Int(sizes.swap)];
    ret := ret["rxtx_factor" := Real(sizes.rxtxFactor)];
    ret := ret["properties" := Map(f)];
    ret := ret["extra_specs" := flags.extraSpecs];

    // Backwards compatibility with nova: pass the properties through.
    if !ctx.strictMode {
      ret := SetDefaults(ret, f);
    }
    return Ok(ret);
  }

  /** Spec as a function value, for the list wrapper. */
  function SpecOf(ctx: Context): Record -> Result<Record> {
    raw => Spec(ctx, raw)
  }

  /** `_normalize_flavors` */
  method NormalizeFlavors(ctx: Context, flavors: seq<Dict>) returns (r: Result<seq<Record>>)
    ensures r == MapResults(SpecOf(ctx), Entries(flavors))
  {
    ghost var raws := Entries(flavors);
    var ret: seq<Record> := [];
    for i := 0 to |flavors|
      invariant MapResults(SpecOf(ctx), raws[..i]) == Ok(ret)
    {
      var n := NormalizeFlavor(ctx, flavors[i]);
      MapResultsStep(SpecOf(ctx), raws, i, ret);
      if n.Err? {
        MapResultsPrefixErr(SpecOf(ctx), raws, i + 1);
        return Err(n.error);
      }
      ret := ret + [n.value];
    }
    assert raws[..|flavors|] == raws;
    return Ok(ret);
  }
}
