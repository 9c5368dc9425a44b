/**
 * `Normalizer._normalize_image` and `_normalize_images`
 * (shade/_normalize.py:139-176). Unlike the other normalizers, this one pops
 * straight from the dict it is handed, so the caller sees its image dict
 * lose every key the normalizer claims.
 */
module Images {
  import opened Values
  import opened Dicts
  import opened Ambient

  /** `_IMAGE_FIELDS`, copied to the top level with None for an absent key. */
  const FieldList: seq<string> :=
    ["checksum", "container_format", "created_at", "direct_url", "disk_format", "file", "id",
     "min_disk", "min_ram", "name", "owner", "size", "status", "tags", "updated_at", "virtual_size"]

  /** The same fields, as a set. */
  const FieldSet: set<string> :=
    {"checksum", "container_format", "created_at", "direct_url", "disk_format", "file", "id",
     "min_disk", "min_ram", "name", "owner", "size", "status", "tags", "updated_at", "virtual_size"}

  /** The fields then converted with `_pop_int`, in the order they are converted. */
  const IntKeys: seq<string> := ["min_ram", "min_disk", "size", "virtual_size"]

  function Location(ctx: Context, raw: Record): Value {
    ctx.locationOf(Lookup(raw, "owner", Null), Null)
  }

  /** What the first pops establish: the nested properties, visibility, protection and publicity. */
  datatype Head = Head(properties: Value, visibility: Value, isProtected: bool, isPublic: Value)

  /**
   * A non-empty `visibility` decides `is_public`, and the legacy `is_public`
   * key is then left alone; otherwise the legacy key (default false) decides
   * the visibility.
   */
  function HeadOf(raw: Record): Head {
    var properties := Lookup(raw, "properties", Map(map[]));
    var visibility := Lookup(raw, "visibility", Null);
    var isProtected := ToBool(Lookup(raw, "protected", Bool(false)));
    if Truthy(visibility) then
      Head(properties, visibility, isProtected, Bool(visibility == Str("public")))
    else
      var isPublic := Lookup(raw, "is_public", Bool(false));
      Head(properties, Str(if Truthy(isPublic) then "public" else "private"), isProtected, isPublic)
  }

  /** The keys the head pops: `is_public` only when there is no visibility. */
  function HeadKeys(raw: Record): set<string> {
    {"properties", "visibility", "protected"} +
    if Truthy(Lookup(raw, "visibility", Null)) then {} else {"is_public"}
  }

  /**
   * `int(v or 0)` of each key, in order: the converted values, or the
   * exception of the first key that does not convert.
   */
  function IntsOf(d: Record, keys: seq<string>, absent: Value): (r: Result<Record>)
    ensures r.Ok? ==> r.value.Keys == KeysOf(keys)
    ensures r.Err? ==> r.error.NotANumber?
  {
    if keys == [] then Ok(map[])
    else
      var done :- IntsOf(d, keys[..|keys| - 1], absent);
      var n :- IntOrZero(Lookup(d, keys[|keys| - 1], absent));
      Ok(done[keys[|keys| - 1] := Int(n)])
  }

  /** The keys left in the caller's dict once every claimed key is popped. */
  function Leftovers(raw: Record): Record {
    raw - HeadKeys(raw) - FieldSet - {"locations"}
  }

  /**
   * The leftovers added to the nested properties with `setdefault`, so a
   * nested property wins. With no leftovers the loop never runs, so the
   * nested value is kept whatever it is; otherwise it must be a dict.
   */
  function MergedProperties(properties: Value, leftovers: Record): Result<Value> {
    if properties.Map? then Ok(Map(leftovers + properties.fields))
    else if leftovers == map[] then Ok(properties)
    else Err(WrongType("properties"))
  }

  /** The record as it stands once every field of the caller's dict is read. */
  function Base(ctx: Context, raw: Record, head: Head, ints: Record): Record {
    (map["location" := Location(ctx, raw)] + Picked(raw, FieldSet, Null) + ints)
      ["is_protected" := Bool(head.isProtected)]
      ["locations" := Lookup(raw, "locations", List([]))]
  }

  function Canonical(base: Record, head: Head, properties: Value): Record {
    base["properties" := properties]["visibility" := head.visibility]["is_public" := head.isPublic]
  }

  /**
   * The last block: the merged properties, the visibility and, outside
   * strict mode, every property assigned at the top level, overwriting what
   * is there, and `protected` added last.
   */
  function Assemble(strict: bool, head: Head, base: Record, leftovers: Record): Result<Record> {
    var properties :- MergedProperties(head.properties, leftovers);
    var canonical := Canonical(base, head, properties);
    if strict then Ok(canonical)
    else if !properties.Map? then Err(WrongType("properties"))
    else Ok((canonical + properties.fields)["protected" := Bool(head.isProtected)])
  }

  /** The normalized image, stated on the dict as the caller handed it in. */
  function Spec(ctx: Context, raw: Record): Result<Record> {
    var head := HeadOf(raw);
    var ints :- IntsOf(raw, IntKeys, Null);
    Assemble(ctx.strictMode, head, Base(ctx, raw, head, ints), Leftovers(raw))
  }

  /**
   * What the caller's dict holds afterwards: the claimed keys are gone, but
   * `locations` is still there when a size fails to convert.
   */
  function Remains(raw: Record): Record {
    if IntsOf(raw, IntKeys, Null).Ok? then Leftovers(raw)
    else raw - HeadKeys(raw) - FieldSet
  }

  function SpecOf(ctx: Context): Record -> Result<Record> {
    raw => Spec(ctx, raw)
  }

  // ---------------------------------------------------------------------
  // What a normalized image is

  /** The conversions succeed exactly when every key converts. */
  lemma {:induction false} IntsOfOk(d: Record, keys: seq<string>, absent: Value)
    ensures IntsOf(d, keys, absent).Ok? <==> forall k :: k in keys ==> IntOrZero(Lookup(d, k, absent)).Ok?
  {
    if keys != [] {
      var init := keys[..|keys| - 1];
      IntsOfOk(d, init, absent);
      assert forall k :: k in keys <==> k in init || k == keys[|keys| - 1];
    }
  }

  /** The result holds the conversion of each key. */
  lemma {:induction false} IntsOfValues(d: Record, keys: seq<string>, absent: Value)
    requires IntsOf(d, keys, absent).Ok?
    ensures forall k :: k in keys ==>
      IntsOf(d, keys, absent).value[k].Int? && IntOrZero(Lookup(d, k, absent)) == Ok(IntsOf(d, keys, absent).value[k].i)
  {
    if keys != [] {
      var init := keys[..|keys| - 1];
      IntsOfValues(d, init, absent);
      assert forall k :: k in keys <==> k in init || k == keys[|keys| - 1];
    }
  }

  /** The fields of the canonical record, each from the stage that produces it. */
  lemma CanonicalFields(ctx: Context, raw: Record, head: Head, ints: Record, properties: Value)
    requires "location" !in ints
    ensures var c := Canonical(Base(ctx, raw, head, ints), head, properties);
      && c["location"] == Location(ctx, raw)
      && c["is_protected"] == Bool(head.isProtected)
      && c["locations"] == Lookup(raw, "locations", List([]))
      && c["properties"] == properties
      && c["visibility"] == head.visibility
      && c["is_public"] == head.isPublic
  {
  }

  /** The image fields of the canonical record: the sizes converted, the rest copied. */
  lemma CanonicalImageFields(ctx: Context, raw: Record, head: Head, ints: Record, properties: Value)
    requires ints.Keys <= FieldSet
    ensures var c := Canonical(Base(ctx, raw, head, ints), head, properties);
      && c.Keys == FieldSet + {"location", "is_protected", "locations", "properties", "visibility", "is_public"}
      && (forall k :: k in ints ==> c[k] == ints[k])
      && (forall k :: k in FieldSet && k !in ints ==> c[k] == Lookup(raw, k, Null))
  {
    assert FieldSet !! {"location", "is_protected", "locations", "properties", "visibility", "is_public"};
  }

  /** A normalized image is the canonical record, flattened outside strict mode. */
  lemma ImageShape(ctx: Context, raw: Record)
    requires Spec(ctx, raw).Ok?
    ensures var head := HeadOf(raw);
      var ints := IntsOf(raw, IntKeys, Null);
      var properties := MergedProperties(head.properties, Leftovers(raw));
      && ints.Ok? && properties.Ok? && (!ctx.strictMode ==> properties.value.Map?)
      && var c := Canonical(Base(ctx, raw, head, ints.value), head, properties.value);
        Spec(ctx, raw).value ==
          if ctx.strictMode then c else (c + properties.value.fields)["protected" := Bool(head.isProtected)]
  {
  }

  /** The sizes of the image are none of the keys the last block assigns. */
  lemma SizeKeysAreFields()
    ensures KeysOf(IntKeys) <= FieldSet && "location" !in KeysOf(IntKeys)
  {
  }

  /**
   * An image fails only when a size does not convert, or when the nested
   * `properties` is not a dict and something has to be added to it or read
   * from it. A missing `id` or `name` is never an error.
   */
  lemma ImageErrors(ctx: Context, raw: Record)
    ensures Spec(ctx, raw).Err? <==>
      (exists k :: k in IntKeys && IntOrZero(Lookup(raw, k, Null)).Err?) ||
      (!Lookup(raw, "properties", Map(map[])).Map? && (Leftovers(raw) != map[] || !ctx.strictMode))
    ensures Spec(ctx, raw).Err? ==> !Spec(ctx, raw).error.MissingKey?
  {
    IntsOfOk(raw, IntKeys, Null);
  }

  /**
   * A non-empty `visibility` decides `is_public`; otherwise the legacy
   * `is_public` (default false) decides the visibility and is kept as it is.
   */
  lemma ImageVisibility(ctx: Context, raw: Record)
    requires ctx.strictMode && Spec(ctx, raw).Ok?
    ensures var v := Spec(ctx, raw).value;
      var visibility := Lookup(raw, "visibility", Null);
      var legacy := Lookup(raw, "is_public", Bool(false));
      && (Truthy(visibility) ==> v["visibility"] == visibility && v["is_public"] == Bool(visibility == Str("public")))
      && (!Truthy(visibility) ==> v["is_public"] == legacy && v["visibility"] == Str(if Truthy(legacy) then "public" else "private"))
      && v["is_protected"] == Bool(ToBool(Lookup(raw, "protected", Bool(false))))
  {
    ImageShape(ctx, raw);
    SizeKeysAreFields();
    var head := HeadOf(raw);
    CanonicalFields(ctx, raw, head, IntsOf(raw, IntKeys, Null).value, MergedProperties(head.properties, Leftovers(raw)).value);
  }

  /**
   * The sizes are ints, 0 when missing or falsy; `id`, `name` and every
   * other image field are copied, None when missing.
   */
  lemma ImageFields(ctx: Context, raw: Record, k: string)
    requires ctx.strictMode && Spec(ctx, raw).Ok? && k in FieldSet
    ensures var v := Spec(ctx, raw).value;
      && k in v
      && (k in IntKeys ==> v[k].Int? && IntOrZero(Lookup(raw, k, Null)) == Ok(v[k].i))
      && (k in IntKeys && (k !in raw || !Truthy(raw[k])) ==> v[k] == Int(0))
      && (k !in IntKeys ==> v[k] == Lookup(raw, k, Null))
  {
    ImageShape(ctx, raw);
    SizeKeysAreFields();
    var head := HeadOf(raw);
    var ints := IntsOf(raw, IntKeys, Null).value;
    CanonicalImageFields(ctx, raw, head, ints, MergedProperties(head.properties, Leftovers(raw)).value);
    IntsOfValues(raw, IntKeys, Null);
  }

  /**
   * The keys nobody claims, which are also what the caller's dict keeps,
   * are added to the nested properties, but never over a nested property.
   */
  lemma ImageProperties(ctx: Context, raw: Record)
    requires ctx.strictMode && Spec(ctx, raw).Ok? && Lookup(raw, "properties", Map(map[])).Map?
    ensures var nested := Lookup(raw, "properties", Map(map[])).fields;
      var p := Spec(ctx, raw).value["properties"];
      && p.Map?
      && p.fields.Keys == nested.Keys + Remains(raw).Keys
      && (forall k :: k in nested ==> p.fields[k] == nested[k])
      && (forall k :: k in Remains(raw) && k !in nested ==> p.fields[k] == raw[k])
  {
    var head := HeadOf(raw);
    var ints := IntsOf(raw, IntKeys, Null);
    assert ints.Ok? && Remains(raw) == Leftovers(raw);
    var base := Base(ctx, raw, head, ints.value);
    assert Spec(ctx, raw) == Assemble(true, head, base, Leftovers(raw));
    var properties := MergedProperties(head.properties, Leftovers(raw)).value;
    assert properties == Map(Leftovers(raw) + head.properties.fields);
    assert Spec(ctx, raw).value["properties"] == properties;
  }

  /** The legacy block assigns the merged properties over the strict record. */
  lemma AssembleLegacy(head: Head, base: Record, leftovers: Record)
    requires Assemble(false, head, base, leftovers).Ok?
    ensures var strict := Assemble(true, head, base, leftovers);
      && strict.Ok?
      && strict.value["properties"].Map?
      && var properties := strict.value["properties"].fields;
        && Assemble(false, head, base, leftovers).value ==
          (strict.value + properties)["protected" := Bool(head.isProtected)]
        && forall k :: k in properties && k != "protected" ==>
          Assemble(false, head, base, leftovers).value[k] == properties[k]
  {
  }

  /**
   * Outside strict mode the result is the strict one with every property
   * assigned over it, canonical fields included, and `protected` added.
   */
  lemma ImageLegacy(ctx: Context, raw: Record)
    requires !ctx.strictMode && Spec(ctx, raw).Ok?
    ensures var strict := ctx.(strictMode := true);
      && Spec(strict, raw).Ok?
      && Spec(strict, raw).value["properties"].Map?
      && var properties := Spec(strict, raw).value["properties"].fields;
        && Spec(ctx, raw).value ==
          (Spec(strict, raw).value + properties)["protected" := Bool(ToBool(Lookup(raw, "protected", Bool(false))))]
        && forall k :: k in properties && k != "protected" ==> Spec(ctx, raw).value[k] == properties[k]
  {
    var strict := ctx.(strictMode := true);
    var head := HeadOf(raw);
    var ints := IntsOf(raw, IntKeys, Null);
    assert ints.Ok?;
    var base := Base(ctx, raw, head, ints.value);
    assert Base(strict, raw, head, ints.value) == base;
    assert Spec(ctx, raw) == Assemble(false, head, base, Leftovers(raw));
    assert Spec(strict, raw) == Assemble(true, head, base, Leftovers(raw));
    AssembleLegacy(head, base, Leftovers(raw));
  }

  // ---------------------------------------------------------------------
  // The stages of `_normalize_image`

  /** The first pops, from the caller's dict. */
  method PopHead(d: Record) returns (head: Head, rest: Record)
    ensures head == HeadOf(d)
    ensures rest == d - HeadKeys(d)
  {
    var properties, visibility, protected, isPublic;
    properties, rest := PopOr(d, "properties", Map(map[]));
    visibility, rest := PopOr(rest, "visibility", Null);
    protected, rest := PopOr(rest, "protected", Bool(false));
    if Truthy(visibility) {
      head := Head(properties, visibility, ToBool(protected), Bool(visibility == Str("public")));
    } else {
      assert Lookup(rest, "is_public", Bool(false)) == Lookup(d, "is_public", Bool(false));
      isPublic, rest := PopOr(rest, "is_public", Bool(false));
      head := Head(properties, Str(if Truthy(isPublic) then "public" else "private"), ToBool(protected), isPublic);
    }
  }

  /** `n[key] = _pop_int(n, key)`: the key is popped, converted and put back. */
  method ConvertInt(n: Record, key: string) returns (r: Result<int>, n': Record)
    ensures r == IntOrZero(Lookup(n, key, Int(0)))
    ensures r.Ok? ==> n' == n[key := Int(r.value)]
  {
    var v;
    v, n' :- PopInt(n, key);
    n' := n'[key := Int(v)];
    r := Ok(v);
  }

  /** Once a key fails to convert, so does every longer list. */
  lemma {:induction false} IntsOfPrefixErr(d: Record, keys: seq<string>, i: nat, absent: Value)
    requires i <= |keys| && IntsOf(d, keys[..i], absent).Err?
    ensures IntsOf(d, keys, absent) == IntsOf(d, keys[..i], absent)
  {
    if i < |keys| {
      assert keys[..|keys| - 1][..i] == keys[..i];
      IntsOfPrefixErr(d, keys[..|keys| - 1], i, absent);
    } else {
      assert keys[..i] == keys;
    }
  }

  lemma IntsOfStep(d: Record, keys: seq<string>, i: nat, absent: Value, done: Record)
    requires i < |keys| && IntsOf(d, keys[..i], absent) == Ok(done)
    ensures var n := IntOrZero(Lookup(d, keys[i], absent));
      IntsOf(d, keys[..i + 1], absent) == if n.Err? then Err(n.error) else Ok(done[keys[i] := Int(n.value)])
  {
    assert keys[..i + 1][..i] == keys[..i];
  }

  /** The next key of ConvertInts reads its value as the caller's dict holds it. */
  lemma ConvertIntsStep(n: Record, keys: seq<string>, i: nat, done: Record, n': Record)
    requires Distinct(keys) && i < |keys|
    requires IntsOf(n, keys[..i], Int(0)) == Ok(done) && n' == n + done
    ensures Lookup(n', keys[i], Int(0)) == Lookup(n, keys[i], Int(0))
    ensures var v := IntOrZero(Lookup(n, keys[i], Int(0)));
      IntsOf(n, keys[..i + 1], Int(0)) == if v.Err? then Err(v.error) else Ok(done[keys[i] := Int(v.value)])
  {
    IntsOfStep(n, keys, i, Int(0), done);
    DistinctFresh(keys, i);
  }

  /**
   * `for field in (...): new_image[field] = _pop_int(new_image, field)`:
   * each field converted in place.
   */
  method ConvertInts(n: Record, keys: seq<string>) returns (r: Result<Record>, n': Record)
    requires Distinct(keys)
    ensures r == IntsOf(n, keys, Int(0))
    ensures r.Ok? ==> n' == n + r.value
  {
    n' := n;
    var done: Record := map[];
    for i := 0 to |keys|
      invariant IntsOf(n, keys[..i], Int(0)) == Ok(done)
      invariant n' == n + done
    {
      ConvertIntsStep(n, keys, i, done, n');
      var v;
      v, n' := ConvertInt(n', keys[i]);
      if v.Err? {
        IntsOfPrefixErr(n, keys, i + 1, Int(0));
        return Err(v.error), n';
      }
      UnionUpdate(n, done, keys[i], Int(v.value));
      done := done[keys[i] := Int(v.value)];
    }
    assert keys[..|keys|] == keys;
    return Ok(done), n';
  }

  /** `_IMAGE_FIELDS` names each field once. */
  lemma FieldListIsSet()
    ensures Distinct(FieldList) && KeysOf(FieldList) == FieldSet
  {
    assert Distinct(FieldList);
  }

  /** `for field in _IMAGE_FIELDS: new_image[field] = image.pop(field, None)` */
  method PopFields(d: Record, into: Record) returns (r: Record, rest: Record)
    ensures r == into + Picked(d, FieldSet, Null)
    ensures rest == d - FieldSet
  {
    FieldListIsSet();
    r, rest := PopEach(d, FieldList, into, Null);
  }

  /** The image fields are none of the keys the head pops. */
  lemma FieldsAfterHead(raw: Record)
    ensures FieldSet !! HeadKeys(raw)
    ensures "locations" !in FieldSet + HeadKeys(raw)
  {
    assert HeadKeys(raw) <= {"properties", "visibility", "protected", "is_public"};
  }

  /** Conversions of the same values give the same results. */
  lemma {:induction false} IntsOfAgree(d: Record, a: Value, e: Record, b: Value, keys: seq<string>)
    requires forall k :: k in keys ==> Lookup(d, k, a) == Lookup(e, k, b)
    ensures IntsOf(d, keys, a) == IntsOf(e, keys, b)
  {
    if keys != [] {
      IntsOfAgree(d, a, e, b, keys[..|keys| - 1]);
    }
  }

  /** The sizes are converted from the copied fields, which hold the caller's values. */
  lemma SizesOfPicked(raw: Record, into: Record)
    ensures Distinct(IntKeys)
    ensures IntsOf(into + Picked(raw, FieldSet, Null), IntKeys, Int(0)) == IntsOf(raw, IntKeys, Null)
  {
    assert Distinct(IntKeys);
    var n := into + Picked(raw, FieldSet, Null);
    forall k | k in IntKeys
      ensures Lookup(n, k, Int(0)) == Lookup(raw, k, Null)
    {
      assert k in FieldSet;
    }
    IntsOfAgree(n, Int(0), raw, Null, IntKeys);
  }

  /** The last block of `_normalize_image`, on the record and the leftovers. */
  method AssembleImage(strict: bool, head: Head, base: Record, leftovers: Record) returns (r: Result<Record>)
    ensures r == Assemble(strict, head, base, leftovers)
  {
    var ret := base;
    var properties := head.properties;
    if properties.Map? {
      var merged := SetDefaults(properties.fields, leftovers);
      properties := Map(merged);
    } else if leftovers != map[] {
      return Err(WrongType("properties"));
    }
    ret := ret["properties" := properties];
    ret := ret["visibility" := head.visibility];
    ret := ret["is_public" := head.isPublic];

    // Backwards compatibility with glance: properties are assigned, not defaulted.
    if !strict {
      if !properties.Map? {
        return Err(WrongType("properties"));
      }
      ret := Update(ret, properties.fields);
      ret := ret["protected" := Bool(head.isProtected)];
    }
    return Ok(ret);
  }

  /** `_normalize_image`: pops from the caller's dict in place. */
  method NormalizeImage(ctx: Context, image: Dict) returns (r: Result<Record>)
    modifies image
    ensures r == Spec(ctx, old(image.entries))
    ensures image.entries == Remains(old(image.entries))
  {
    var raw := image.entries;
    FieldsAfterHead(raw);
    var ret: Record := map["location" := Location(ctx, raw)];
    var head, d := PopHead(raw);
    ret, d := PopFields(d, ret);
    image.entries := d;
    PickedMinus(raw, FieldSet, HeadKeys(raw), Null);
    SizesOfPicked(raw, map["location" := Location(ctx, raw)]);

    var ints;
    ints, ret :- ConvertInts(ret, IntKeys);
    ret := ret["is_protected" := Bool(head.isProtected)];
    var locations;
    locations, d := PopOr(d, "locations", List([]));
    image.entries := d;
    ret := ret["locations" := locations];
    r := AssembleImage(ctx.strictMode, head, ret, d);
  }

  /**
   * The entries of a list of image dicts once the first `i` of them, handed
   * in as `raws`, have been normalized and the rest not yet.
   */
  ghost function Trace(raws: seq<Record>, i: int): seq<Record> {
    seq(|raws|, j requires 0 <= j < |raws| => if j < i then Remains(raws[j]) else raws[j])
  }

  /**
   * Normalizing the image dict at position `i` of a list whose first `i`
   * dicts have been normalized: when no dict occurs twice, the result is that
   * of the dict as handed in, and the first `i + 1` have been normalized.
   */
  method Visit(ctx: Context, images: seq<Dict>, i: nat, ghost raws: seq<Record>) returns (r: Result<Record>)
    requires i < |images| == |raws|
    requires Separate(images) ==> Entries(images) == Trace(raws, i)
    modifies images
    ensures Separate(images) ==> r == SpecOf(ctx)(raws[i]) && Entries(images) == Trace(raws, i + 1)
  {
    ghost var before := Entries(images);
    r := NormalizeImage(ctx, images[i]);
    if Separate(images) {
      forall j | 0 <= j < |images|
        ensures images[j].entries == Trace(raws, i + 1)[j]
      {
        if j != i {
          assert images[j] != images[i];
          assert images[j].entries == before[j];
        }
      }
    }
  }

  /**
   * `_normalize_images`. When no dict occurs twice in the list, each result
   * is that of its dict as handed in, every dict visited, up to the one that
   * raises, keeps only what its normalization left, and the others are
   * untouched.
   */
  method NormalizeImages(ctx: Context, images: seq<Dict>) returns (r: Result<seq<Record>>)
    modifies images
    ensures Separate(images) ==> r == MapResults(SpecOf(ctx), old(Entries(images)))
    ensures Separate(images) ==> forall j :: 0 <= j < |images| ==>
      images[j].entries ==
        if Visited(SpecOf(ctx), old(Entries(images)), images, images[j])
        then Remains(old(images[j].entries))
        else old(images[j].entries)
  {
    ghost var raws := Entries(images);
    var ret: seq<Record> := [];
    for i := 0 to |images|
      invariant Separate(images) ==> MapResults(SpecOf(ctx), raws[..i]) == Ok(ret)
      invariant Separate(images) ==> Reached(SpecOf(ctx), raws, i)
      invariant Separate(images) ==> Entries(images) == Trace(raws, i)
    {
      var n := Visit(ctx, images, i, raws);
      if Separate(images) {
        MapResultsStep(SpecOf(ctx), raws, i, ret);
        if n.Err? {
          MapResultsPrefixErr(SpecOf(ctx), raws, i + 1);
          VisitedExactly(SpecOf(ctx), raws, images, i);
        } else {
          ReachedStep(SpecOf(ctx), raws, i);
        }
      }
      if n.Err? {
        return Err(n.error);
      }
      ret := ret + [n.value];
    }
    if Separate(images) {
      VisitedExactly(SpecOf(ctx), raws, images, |images|);
    }
    assert raws[..|images|] == raws;
    return Ok(ret);
  }
}
