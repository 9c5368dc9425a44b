# shade resource normalizers, modelled in Dafny

shade talks to OpenStack clouds whose services answer in several dialects
(nova and neutron, glance v1 and v2, vendor extensions). Its normalizer
mix-in, `shade/_normalize.py`, rewrites each deserialised resource dict
into one canonical record, deterministically and without I/O. The model
covers flavors, images, security groups, security-group rules, servers and
floating IPs, together with their list wrappers and the helpers `_to_bool`,
`_pop_int`, `_pop_float` and `_pop_or_get`. Each normalizer does four
things:

- it resolves fields that carry different names in different API versions
  ("key A, else key B, else a default");
- it coerces values (lenient booleans, `int(v or 0)`);
- it moves every key it does not claim into a `properties` overflow map;
- outside strict mode, it flattens those properties back onto the top
  level and adds legacy aliases.

Layout, one module per file:

- `values.dfy` (`Values`): the JSON-like `Value` datatype, Python
  truthiness, `_to_bool`, and `int()` / `float()` with their error cases.
- `dicts.dfy` (`Dicts`):
  - `pop`, `get` and the three pop helpers, as methods that return the
    popped value and the dict as it stands afterwards;
  - the `setdefault` and assignment loops;
  - flattening;
  - the list wrappers' "normalize each, stop at the first exception".
- `context.dfy` (`Ambient`): the values a normalizer reads from the cloud
  object it is mixed into: strict mode, location, region, cloud name, and
  whether floating IPs come from neutron.
- `flavor.dfy`, `image.dfy`, `rule.dfy`, `secgroup.dfy`, `server.dfy` and
  `floatingip.dfy`: one normalizer each. Every file holds:
  - a declarative `Spec(ctx, raw)` stated on the dict as the caller hands
    it in;
  - lemmas stating what `Spec` promises;
  - the normalizer itself as a method. It pops from its copy stage by
    stage, as the source does, and is proved equal to `Spec`.

Every normalizer except the image one works on a copy, so the caller's
dict is unchanged. The image normalizer pops from the caller's dict itself
(`Images.NormalizeImage` states what the dict holds afterwards). The server
normalizer strips `links` from the caller's nested `flavor` and `image`
dicts (`Servers.NormalizeServer`, `Servers.SharedOnlyLinks`).

The image normalizer flattens its properties by assignment, so a property
can overwrite a canonical field there. The model follows the code on this
point, where a general description of the normalizers would say that
flattening never overwrites a canonical field. Three oddities of the code
are modelled as written and pinned by lemmas:

- `port_range_max` is never converted with `int()`;
- `floating_network_id` is a one-element tuple;
- a nova floating IP's `status` stays among its properties.

## Model

| member | source | states |
|---|---|---|
| Values.ToBool | shade/_normalize.py:56-62 | a non-string converts by truthiness; the empty string is false |
| Values.ToBoolString | shade/_normalize.py:56-62 | a string is true exactly when it lower-cases to "true" |
| Values.CapitalizedTrue | shade/_normalize.py:60-61 | `s.lower().capitalize() == 'True'` holds exactly when `s.lower() == 'true'` |
| Values.PyInt | shade/_normalize.py:65-66 | `int()` fails exactly on None, containers and non-decimal strings, with NotANumber; ints pass through, booleans are 0 and 1 |
| Values.ParseShowInt | shade/_normalize.py:65-66 | `int(str(n)) == n` for every int n |
| Values.IntOrZero | shade/_normalize.py:65-66 | `int(v or 0)`: 0 for a falsy value, else `int(v)` |
| Values.FloatOrZero | shade/_normalize.py:69-70 | `float(v or 0)`: 0.0 for a falsy value, else `float(v)` |
| Values.PyFloat | shade/_normalize.py:69-70 | `float()` fails exactly where `int()` does, and agrees with it on non-floats |
| Dicts.PopOr | shade/_normalize.py:102-105 | `d.pop(key, default)` returns the value or the default and leaves the key absent |
| Dicts.Pop | shade/_normalize.py:118-119 | `d.pop(key)` raises KeyError, and removes nothing, exactly when the key is absent |
| Dicts.PopInt | shade/_normalize.py:65-66 | `_pop_int`: the key is gone afterwards and the result is `int(value or 0)`, 0 when missing |
| Dicts.PopFloat | shade/_normalize.py:69-70 | `_pop_float`: the key is gone afterwards and the result is `float(value or 0)` |
| Dicts.PopOrGet | shade/_normalize.py:73-77 | `_pop_or_get`: the value or the default in both modes; the key is removed only in strict mode |
| Dicts.PopFallback | shade/_normalize.py:201-204 | the nested pop runs first, so both names are removed whichever of them is present |
| Dicts.DropNoise | shade/_normalize.py:102-105 | the four noise keys are removed and nothing else |
| Dicts.Picked | shade/_normalize.py:159-160 | one entry per field: the dict's value, or the default when absent |
| Dicts.PopEach | shade/_normalize.py:159-160 | popping each listed field into the record moves exactly those fields, absent ones as None |
| Dicts.SetDefaults | shade/_normalize.py:133-135 | every key of the source is added, but no key the target has is overwritten |
| Dicts.Update | shade/_normalize.py:174-175 | every key of the source is added and overwrites the target's |
| Dicts.FlattenedFields | shade/_normalize.py:133-135 | flattening keeps every canonical field and legacy alias, and adds exactly the other properties |
| Dicts.FlattenedKeeps | shade/_normalize.py:217-218 | a canonical field that is not an alias keeps its value under flattening |
| Dicts.FlattenedProjectFields | shade/_normalize.py:214-218 | with the two project aliases: the keys and the value of each |
| Dicts.AddProjectAliases | shade/_normalize.py:214-218 | the aliases assigned, then `setdefault` of the properties, is the flattened record |
| Dicts.MapResults | shade/_normalize.py:87-92 | a list wrapper that succeeds gives one result per element |
| Dicts.VisitedExactly | shade/_normalize.py:87-92 | with no dict listed twice, a list wrapper visits exactly the dicts up to the first that raises |
| Dicts.MapResultsMeaning | shade/_normalize.py:87-92 | the wrapper succeeds exactly when every element does, with each element's result in order; otherwise it raises the first element's exception |
| Flavors.FlavorErrors | shade/_normalize.py:107-127 | a flavor fails exactly on a vendor ephemeral size that `int()` rejects, a missing `id` or `name`, or a size that does not convert; the flags are checked first, then `id`, then `name` |
| Flavors.AssembledFields | shade/_normalize.py:117-130 | the canonical record has exactly the canonical fields, each from its stage |
| Flavors.CanonicalFields | shade/_normalize.py:117-130 | the same, for the properties the normalizer leaves |
| Flavors.FlavorShape | shade/_normalize.py:117-135 | the result holds every canonical field in either mode, with its canonical value |
| Flavors.FlavorIdentity | shade/_normalize.py:117-119 | `id` and `name` are copied; the location is the current one |
| Flavors.FlavorEphemeral | shade/_normalize.py:107-109 | the plain `ephemeral` key wins; else the vendor key converted with `int()`; else 0 |
| Flavors.FlavorVisibility | shade/_normalize.py:110-114 | plain `is_public` wins over the vendor key, which defaults to true; `is_disabled` defaults to false; both go through `_to_bool` |
| Flavors.FlavorSizes | shade/_normalize.py:122-126 | `ram`, `vcpus`, `disk` and `swap` are ints: 0 when missing or falsy, else `int()` of the value |
| Flavors.VendorKeysUnclaimed | shade/_normalize.py:107-114 | outside strict mode the vendor keys are only read, not claimed |
| Flavors.FlavorProperties | shade/_normalize.py:99-129 | `properties` holds exactly the keys not claimed, with their values, and the vendor keys when not strict |
| Flavors.FlavorFlattening | shade/_normalize.py:133-135 | strict: exactly the canonical fields; otherwise the properties are added, and every canonical field except `properties` keeps its strict-mode value |
| Flavors.PopFlags | shade/_normalize.py:107-115 | the flag block computes the flags and removes its keys, the vendor ones only in strict mode |
| Flavors.PopSizes | shade/_normalize.py:122-127 | the size block computes the sizes and removes the size keys |
| Flavors.NormalizeFlavor | shade/_normalize.py:94-137 | the normalizer equals the flavor specification; the caller's dict is untouched |
| Flavors.NormalizeFlavors | shade/_normalize.py:87-92 | each flavor normalized in order, or the first exception |
| Images.IntsOfOk | shade/_normalize.py:161-162 | the size conversions succeed exactly when every size converts |
| Images.IntsOfValues | shade/_normalize.py:161-162 | each converted size is `int(v or 0)` of its own key |
| Images.CanonicalFields | shade/_normalize.py:146-170 | location, `is_protected`, `locations`, `properties`, `visibility` and `is_public` come from their stages |
| Images.CanonicalImageFields | shade/_normalize.py:159-162 | the image fields are present; the sizes are converted and the rest copied, None when absent |
| Images.ImageShape | shade/_normalize.py:145-177 | the result is the canonical record; outside strict mode the properties are assigned over it and `protected` is added |
| Images.ImageErrors | shade/_normalize.py:159-168 | an image fails only on a size that does not convert, or a non-dict nested `properties` that must be merged or read; never on a missing `id` or `name` |
| Images.ImageVisibility | shade/_normalize.py:150-157 | a non-empty `visibility` decides `is_public`; otherwise legacy `is_public` (default false) decides the visibility |
| Images.ImageFields | shade/_normalize.py:159-162 | the four sizes are ints, 0 when missing or falsy; the other image fields are copied, None when missing |
| Images.ImageProperties | shade/_normalize.py:166-168 | the keys left in the caller's dict are added to the nested properties, and never override a nested property |
| Images.AssembleLegacy | shade/_normalize.py:173-176 | outside strict mode every property overwrites the strict record, and `protected` is added last |
| Images.ImageLegacy | shade/_normalize.py:173-176 | the same, stated against the strict-mode result |
| Images.PopHead | shade/_normalize.py:149-157 | the first pops give the head; `is_public` is popped only when there is no visibility |
| Images.ConvertInt | shade/_normalize.py:162 | a size is popped, converted and put back |
| Images.ConvertInts | shade/_normalize.py:161-162 | the loop converts each size in order, or stops at the first failure |
| Images.PopFields | shade/_normalize.py:159-160 | `_IMAGE_FIELDS` are moved from the image to the record |
| Images.AssembleImage | shade/_normalize.py:166-177 | the last block equals its specification, including the error on non-dict properties |
| Images.NormalizeImage | shade/_normalize.py:145-177 | the normalizer equals the image specification, and the caller's dict keeps exactly the unclaimed keys (and `locations` when a size fails) |
| Images.Visit | shade/_normalize.py:141-142 | one step of the loop, when no dict is listed twice: the result is that of the dict at the position as handed in, and that dict alone changes, to what its normalization leaves |
| Images.NormalizeImages | shade/_normalize.py:139-143 | when no dict is listed twice: each image normalized in order, or the first exception; every dict up to the one that raised keeps only what its normalization left, every later dict is untouched |
| Rules.PortNumber | shade/_normalize.py:245-250 | -1 and None give None; any other lower bound goes through `int()`, raising when it cannot |
| Rules.RuleErrors | shade/_normalize.py:242-261 | a rule fails exactly on a missing `id`, an unconvertible lower bound or a non-dict `ip_range`, in that order |
| Rules.CanonicalFields | shade/_normalize.py:242-268 | the canonical record has exactly the canonical fields and no alias, each from its stage |
| Rules.CanonicalInOrder | shade/_normalize.py:242-268 | the assignments in source order build the canonical record |
| Rules.RuleShape | shade/_normalize.py:237-276 | the result is the canonical record, flattened with the project aliases outside strict mode |
| Rules.RuleStrictKeys | shade/_normalize.py:242-268 | strict: exactly the canonical fields |
| Rules.RuleFlattening | shade/_normalize.py:271-275 | not strict: the canonical fields, both project aliases and the properties |
| Rules.RulePropertiesFlattened | shade/_normalize.py:274-275 | a property that is neither field nor alias keeps its value at the top level |
| Rules.RuleFieldsKept | shade/_normalize.py:274-275 | flattening never overwrites a canonical field: each keeps its strict-mode value |
| Rules.RuleDefaults | shade/_normalize.py:242-244 | `id` copied; `direction` defaults to ingress and `ethertype` to IPv4 |
| Rules.RulePorts | shade/_normalize.py:245-258 | each bound falls back to its nova key and -1 becomes None; only the lower bound is converted |
| Rules.UpperBoundNotConverted | shade/_normalize.py:252-258 | the string of a port number becomes an int as a lower bound but stays a string as an upper bound |
| Rules.RulePeers | shade/_normalize.py:259-264 | protocol and peers fall back to their nova keys; the prefix comes from the `cidr` of `ip_range` |
| Rules.RuleProperties | shade/_normalize.py:245-268 | `properties` holds every key not popped; `port_range_min` stays because it is only read |
| Rules.RuleLocation | shade/_normalize.py:265-267 | the location of `project_id`, else `tenant_id`, else empty |
| Rules.PopPorts | shade/_normalize.py:245-258 | the port block computes the bounds and removes `from_port`, `port_range_max` and `to_port` |
| Rules.PopPeers | shade/_normalize.py:259-264 | the peer block computes the peers and removes both names of each |
| Rules.NormalizeRule | shade/_normalize.py:237-276 | the normalizer equals the rule specification |
| Rules.Items | shade/_normalize.py:233 | `for rule in rules` visits a list's or tuple's items, nothing for `""` or `{}`, and fails on anything else |
| Rules.RulesMeaning | shade/_normalize.py:222-235 | the rule list succeeds exactly when every item is a dict that normalizes, and then holds those results in order |
| Rules.NormalizeRules | shade/_normalize.py:222-235 | the list wrapper equals the rule-list specification |
| Secgroups.Wrapped | shade/_normalize.py:209 | the normalized rules stored as dict values, one per rule, in order |
| Secgroups.GroupErrors | shade/_normalize.py:201-210 | a group fails exactly on a failing rule or a missing `id`, `name` or `description`, the rule first |
| Secgroups.CanonicalFields | shade/_normalize.py:206-211 | the canonical record has exactly the canonical fields and no alias |
| Secgroups.GroupShape | shade/_normalize.py:195-220 | the result is the canonical record, flattened with the project aliases outside strict mode |
| Secgroups.GroupIdentity | shade/_normalize.py:203-210 | `id`, `name` and `description` are copied; location of `project_id`, else `tenant_id`, else empty |
| Secgroups.GroupRules | shade/_normalize.py:201-209 | `security_group_rules` holds each rule of the neutron list, else of the nova list, normalized in order |
| Secgroups.GroupProperties | shade/_normalize.py:201-211 | `properties` holds every key not popped; both names of the rules and of the project are removed |
| Secgroups.GroupStrictKeys | shade/_normalize.py:206-211 | strict: exactly the canonical fields |
| Secgroups.GroupFlattening | shade/_normalize.py:214-218 | not strict: the canonical fields, both project aliases and the properties |
| Secgroups.GroupPropertiesFlattened | shade/_normalize.py:217-218 | a property that is neither field nor alias keeps its value at the top level |
| Secgroups.GroupFieldsKept | shade/_normalize.py:217-218 | flattening never overwrites a canonical field |
| Secgroups.NormalizeSecgroup | shade/_normalize.py:195-220 | the normalizer equals the group specification; the caller's dict is untouched |
| Secgroups.NormalizeSecgroups | shade/_normalize.py:179-193 | each group normalized in order, or the first exception |
| Servers.UpToColon | shade/_normalize.py:338 | the text before the first colon holds no colon |
| Servers.SplitSecondOf | shade/_normalize.py:338 | `key.split(':')[1]` of `namespace:name` is the name |
| Servers.StatusKeysSplit | shade/_normalize.py:332-338 | the five status keys have one colon each and distinct names |
| Servers.RenamedStatus | shade/_normalize.py:332-339 | the status loop stores each vendor status key under the text after its colon |
| Servers.JoinedStatus | shade/_normalize.py:332-337 | the loop reads exactly the five vendor status keys |
| Servers.Unlinked | shade/_normalize.py:298-305 | a nested dict loses `links`; a string is passed through |
| Servers.ServerErrors | shade/_normalize.py:296-327 | a server fails exactly on a missing `id`, `name`, `flavor` or `image`, a non-dict flavor, an image neither string nor dict, or an unconvertible `progress`; the head is checked before `progress`, and `flavor` before `image` |
| Servers.HeadIdentity | shade/_normalize.py:296-306 | `id` and `name` copied; `flavor` loses `links`; a string image passes through, a dict image only loses `links` |
| Servers.ComputedFields | shade/_normalize.py:308-331 | location of the project and zone, volumes (default `[]`), `_to_bool` of the config drive, host id, progress and disk config |
| Servers.ComputedInOrder | shade/_normalize.py:296-331 | the assignments in source order build the computed fields |
| Servers.TailKeysOf | shade/_normalize.py:332-345 | the copied part holds the status names, `_SERVER_FIELDS`, `interface_ip` and `properties` |
| Servers.TailFixed | shade/_normalize.py:343-345 | `interface_ip` is empty and `properties` holds every key not claimed |
| Servers.TailStatus | shade/_normalize.py:332-339 | each status field is stored under its short name |
| Servers.TailPicked | shade/_normalize.py:341-342 | every `_SERVER_FIELDS` key is copied, None when absent |
| Servers.VendorKeysUnclaimed | shade/_normalize.py:311-339 | outside strict mode the vendor keys are only read, and stay among the properties |
| Servers.LegacyFields | shade/_normalize.py:347-355 | the legacy keys: host id, config drive, both project aliases, region, cloud and zone |
| Servers.CanonicalKeys | shade/_normalize.py:286-345 | the canonical record has exactly the canonical fields |
| Servers.CanonicalComputed | shade/_normalize.py:296-345 | the copied fields never overwrite a computed one |
| Servers.CanonicalTail | shade/_normalize.py:332-345 | the canonical record holds the copied fields |
| Servers.ServerShape | shade/_normalize.py:286-358 | the result is the canonical record, flattened with the legacy keys outside strict mode |
| Servers.ServerStrictKeys | shade/_normalize.py:286-345 | strict: exactly the canonical fields |
| Servers.ServerAt | shade/_normalize.py:347-357 | flattening never overwrites a canonical field |
| Servers.ServerComputed | shade/_normalize.py:296-331 | in either mode the result holds the computed fields |
| Servers.ServerCopied | shade/_normalize.py:332-345 | in either mode the result holds the copied fields |
| Servers.ServerFlattening | shade/_normalize.py:347-357 | not strict: the legacy keys are added, and a property becomes a top-level key unless a field or legacy key has its name |
| Servers.SharedIdempotent | shade/_normalize.py:299-305 | stripping the nested `links` a second time changes nothing |
| Servers.SharedSpec | shade/_normalize.py:289-306 | a server whose nested `flavor`/`image` have lost `links` normalizes exactly as before |
| Servers.SharedOnlyLinks | shade/_normalize.py:289-305 | the caller's dict keeps its keys; only nested `flavor`/`image` may lose `links`, and both do when the server normalizes |
| Servers.PopHead | shade/_normalize.py:296-306 | the head block computes the head, strips `links` in the caller's nested dicts, and removes the head keys |
| Servers.PopPlacement | shade/_normalize.py:308-325 | the placement block reads the project, zone, volumes, config drive and host id; the vendor keys are removed only in strict mode |
| Servers.PlaceServer | shade/_normalize.py:308-325 | the placement block's fields are set from the caller's dict |
| Servers.PopRenamed | shade/_normalize.py:332-339 | each key stored under the text after its colon; removed only in strict mode |
| Servers.PopStatus | shade/_normalize.py:332-339 | the status loop adds the status fields |
| Servers.PopFields | shade/_normalize.py:341-342 | `_SERVER_FIELDS` moved to the record, None when absent |
| Servers.AddTail | shade/_normalize.py:332-345 | the status, fields, `interface_ip` and `properties` blocks add the copied part; the rest is the properties |
| Servers.AddLegacy | shade/_normalize.py:347-357 | the legacy assignments, then `setdefault` of the properties, give the flattened record |
| Servers.NormalizeServer | shade/_normalize.py:286-358 | the normalizer equals the server specification; the caller's nested dicts lose `links` as far as it got |
| Servers.Revisit | shade/_normalize.py:282-283 | normalizing a server dict a second time gives the result of its first visit and leaves it as the first visit did |
| Servers.NormalizeServers | shade/_normalize.py:278-284 | each server normalized in order, or the first exception, even when a dict is listed twice; every dict up to the one that raised has lost its nested `links`, every later one is untouched |
| FloatingIps.AssembledFields | shade/_normalize.py:419-430 | the canonical record has exactly the canonical fields, each from its source |
| FloatingIps.FloatingIpErrors | shade/_normalize.py:408 | a floating IP fails exactly when `id` is missing, with a KeyError for `id` |
| FloatingIps.CanonicalKeys | shade/_normalize.py:419-437 | the canonical fields, none of them a legacy key |
| FloatingIps.FloatingIpShape | shade/_normalize.py:393-441 | the result is the canonical record, flattened with the legacy keys outside strict mode |
| FloatingIps.FloatingIpAt | shade/_normalize.py:419-439 | flattening never overwrites a canonical field |
| FloatingIps.FirstNames | shade/_normalize.py:399-404 | each address, the network and the project is the first of its names present |
| FloatingIps.FloatingIpFixedAddress | shade/_normalize.py:399 | `fixed_ip_address`, else `fixed_ip`, else None |
| FloatingIps.FloatingIpFloatingAddress | shade/_normalize.py:400 | `floating_ip_address`, else `ip`, else None |
| FloatingIps.FloatingIpNetwork | shade/_normalize.py:401-402 | `floating_network_id`, else `network`, else `pool`, else None |
| FloatingIps.AttachedMeaning | shade/_normalize.py:411-415 | attached exactly when the port (neutron) or the instance (nova) is present and truthy |
| FloatingIps.FloatingIpAttached | shade/_normalize.py:411-415 | `attached` is `bool()` of the port under neutron, of the instance under nova |
| FloatingIps.FloatingIpStatus | shade/_normalize.py:411-417 | neutron: the status, `UNKNOWN` when absent; nova: always `ACTIVE` |
| FloatingIps.FloatingIpLinks | shade/_normalize.py:406-409 | `id` copied; port and router copied, None when absent |
| FloatingIps.FloatingIpLocation | shade/_normalize.py:403-424 | the location of `project_id`, else `tenant_id`, else empty |
| FloatingIps.StatusProperty | shade/_normalize.py:411-417 | a nova floating IP's `status` is not popped and stays a property; neutron's is popped |
| FloatingIps.FloatingIpProperties | shade/_normalize.py:399-429 | `properties` holds every key not popped, a nova `status` among them |
| FloatingIps.FloatingIpStrictKeys | shade/_normalize.py:419-430 | strict: exactly the canonical fields |
| FloatingIps.FloatingIpFlattening | shade/_normalize.py:432-439 | not strict: fields, legacy keys and properties; an unshadowed property keeps its value |
| FloatingIps.LegacyFields | shade/_normalize.py:432-437 | the legacy values: port, router, both project aliases, and the network as a one-element tuple |
| FloatingIps.FloatingIpLegacy | shade/_normalize.py:432-437 | outside strict mode the result holds those legacy values |
| FloatingIps.FloatingNetworkIdIsTuple | shade/_normalize.py:437 | `floating_network_id` never equals `network`: it is the network wrapped in a tuple |
| FloatingIps.PopAddresses | shade/_normalize.py:399-402 | the address pops give the addresses and network, and remove all seven names |
| FloatingIps.PopOwners | shade/_normalize.py:403-407 | the project, instance and router pops |
| FloatingIps.NormalizeFloatingIp | shade/_normalize.py:393-441 | the normalizer equals the floating-IP specification; the caller's dict is untouched |
| FloatingIps.AddLegacy | shade/_normalize.py:432-439 | the legacy assignments, then `setdefault` of the properties, give the flattened record |
| FloatingIps.NormalizeFloatingIps | shade/_normalize.py:389-391 | each floating IP normalized in order, or the first exception |

## Left out

- Values.PyInt: accepts only an optional sign followed by decimal digits. Python's `int()` also allows surrounding whitespace and underscores; those are not modelled.
- Values.PyFloat: accepts only the same decimal literals. Strings such as `"1.5"`, `"1e3"` or `"inf"` are reported as not a number here, though Python's `float()` accepts them.
- Floats are exact reals. Rounding, `inf` and `nan` are not modelled.
- Values.Lower: maps ASCII letters only. Python's Unicode case mapping is not modelled.
- Exceptions are collapsed into three kinds: a missing key, not a number, and a value of the wrong type. Python's exception classes and messages are not modelled.
- The context values: `current_location`, `_get_current_location`, `_use_neutron_floating`, `region_name` and `name` are defined outside `shade/_normalize.py`. They are parameters of the model.
- `munch.Munch` and `six.string_types` are library plumbing. Records are maps, and strings are one case of `Value`.
- Key order in dicts is not modelled. The `setdefault` and assignment loops are proved for any order of the keys.
- Aliasing: nested dicts are values.
  - The one piece of sharing modelled is the server normalizer stripping `links` from the caller's nested `flavor` and `image`.
  - The image normalizer's `setdefault` into the nested `properties` dict is not modelled as mutating an object someone else might hold.
  - A result's nested dicts may be the caller's objects; that sharing is not modelled either.
- Images.NormalizeImages: its result and the dicts afterwards are stated only when no dict object occurs twice in the list. With a repeated dict, the second visit sees a dict the first one emptied of its claimed keys, so it normalizes differently.
- Images.Visit: the same condition, for the same reason.
- Rules.Items: non-list rule values are modelled by what iteration does to them. An empty string or dict visits nothing; a non-empty one fails, because its items have no `copy()`. Other iterables, such as sets or generators, are not among the values modelled.
- The rule normalizer converts the lower bound a second time, where it evidently meant the upper bound. This is modelled as written, and it has no effect. `Rules.UpperBoundNotConverted` pins the consequence: an upper bound is never converted.
- The floating IP's one-element `floating_network_id` tuple and a nova floating IP's `status` left among its properties are modelled as written. They are pinned by `FloatingIps.FloatingNetworkIdIsTuple` and `FloatingIps.StatusProperty`.
- `shade/_utils.py`, which holds the list-filtering engine, is not part of this model. Its tests alone do not define it.
- The functional image tests drive a live cloud through temporary files. They are I/O and are not modelled.
- The server and floating-IP properties are each stated one field (or one group of fields) per lemma, through a bridge lemma (`Servers.ServerAt`, `FloatingIps.FloatingIpAt`). There is no single lemma that lists every field at once.
