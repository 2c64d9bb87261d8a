/** The dictionary logic of the web panel's back end
    (custom_components/myhome/web.py): payload coercion, key sanitising,
    device payloads, the mapped/new split of discovery results, result
    merging, the YAML snippet, the upsert/delete/import edits of a gateway's
    stored configuration and the panel's reference count. */
module Web {
  import opened Wrappers
  import opened Strings
  import opened PyValue
  import opened OwnWhere
  import opened Discovery

  const LightPlatform := "light"
  const CoverPlatform := "cover"
  const ClimatePlatform := "climate"
  const SensorPlatform := "sensor"
  const ConfigPlatforms: set<string> := {"light", "cover", "climate", "sensor"}
  const SensorClasses: set<string> := {"power", "temperature", "energy", "illuminance"}

  // ---------------------------------------------------------------------------
  // `_to_bool`
  // ---------------------------------------------------------------------------

  const TrueWords: set<string> := {"1", "true", "yes", "on"}

  /** A user payload value as a boolean: booleans as they are, text by a
      fixed list of words, numbers by truthiness, anything else `default`. */
  function ToBool(v: Value, default: bool): (r: bool)
    ensures v.Bool? ==> r == v.b
    ensures v.Str? ==> (r <==> Lower(Strip(v.s)) in TrueWords)
    ensures v.Int? ==> (r <==> v.i != 0)
    ensures v.Float? ==> (r <==> !v.isZero)
    ensures v.Null? || v.List? || v.Dict? ==> r == default
  {
    match v
    case Bool(b) => b
    case Str(s) => Lower(Strip(s)) in TrueWords
    case Int(i) => i != 0
    case Float(_, z) => !z
    case _ => default
  }

  // ---------------------------------------------------------------------------
  // `_sanitize_key`
  // ---------------------------------------------------------------------------

  predicate SafeChar(c: char)
  {
    'a' <= c <= 'z' || '0' <= c <= '9' || c == '_'
  }

  predicate NoDoubleUnderscore(s: string)
  {
    forall i :: 0 <= i < |s| - 1 ==> !(s[i] == '_' && s[i + 1] == '_')
  }

  /** What every sanitised key looks like: non-empty, over `[a-z0-9_]`, no
      `_` at either end and never two in a row. */
  predicate CleanKey(s: string)
  {
    |s| > 0 && (forall i :: 0 <= i < |s| ==> SafeChar(s[i])) && NoDoubleUnderscore(s) &&
    s[0] != '_' && s[|s| - 1] != '_'
  }

  /** `re.sub("[^a-z0-9_]+", "_", s)`: each maximal run of unsafe characters
      becomes one `_`; `inRun` says the previous character was unsafe. */
  function ReplaceUnsafe(s: string, inRun: bool): (r: string)
    ensures forall i :: 0 <= i < |r| ==> SafeChar(r[i])
  {
    if |s| == 0 then ""
    else if SafeChar(s[0]) then [s[0]] + ReplaceUnsafe(s[1..], false)
    else if inRun then ReplaceUnsafe(s[1..], true)
    else "_" + ReplaceUnsafe(s[1..], true)
  }

  /** `re.sub("_+", "_", s)`; `afterUnderscore` says the previous character
      written was `_`. */
  function CollapseUnderscores(s: string, afterUnderscore: bool): (r: string)
    ensures NoDoubleUnderscore(r)
    ensures afterUnderscore && |r| > 0 ==> r[0] != '_'
    ensures (forall i :: 0 <= i < |s| ==> SafeChar(s[i])) ==> forall i :: 0 <= i < |r| ==> SafeChar(r[i])
  {
    if |s| == 0 then ""
    else if s[0] == '_' then
      if afterUnderscore then CollapseUnderscores(s[1..], true)
      else "_" + CollapseUnderscores(s[1..], true)
    else [s[0]] + CollapseUnderscores(s[1..], false)
  }

  /** Over `[a-z0-9_]` with no `__`: what collapsing leaves. */
  predicate Collapsed(s: string)
  {
    (forall i :: 0 <= i < |s| ==> SafeChar(s[i])) && NoDoubleUnderscore(s)
  }

  /** A run taken out of a collapsed string is collapsed too. */
  lemma CleanRun(s: string, a: nat, r: string)
    requires a + |r| <= |s| && forall i :: 0 <= i < |r| ==> r[i] == s[a + i]
    requires Collapsed(s)
    ensures Collapsed(r)
  {
    forall i | 0 <= i < |r| - 1 ensures !(r[i] == '_' && r[i + 1] == '_') {
      assert r[i] == s[a + i] && r[i + 1] == s[a + i + 1];
    }
  }

  lemma StripUnderscoresKeepsClean(s: string)
    requires Collapsed(s)
    ensures Collapsed(StripChar(s, '_'))
  {
    var a := TrimSlice(s, Only('_'));
    CleanRun(s, a, StripChar(s, '_'));
  }

  /** `_sanitize_key`: strip, lower-case, replace unsafe runs by `_`,
      collapse `_` runs and strip `_`; "device" when nothing survives. */
  function SanitizeKey(value: string): (r: string)
    ensures CleanKey(r)
  {
    var collapsed := CollapseUnderscores(ReplaceUnsafe(Lower(Strip(value)), false), false);
    var clean := StripChar(collapsed, '_');
    assert Collapsed(collapsed);
    StripUnderscoresKeepsClean(collapsed);
    if clean == "" then "device" else clean
  }

  lemma {:induction false} ReplaceUnsafeOfSafe(s: string, inRun: bool)
    requires forall i :: 0 <= i < |s| ==> SafeChar(s[i])
    ensures ReplaceUnsafe(s, inRun) == s
    decreases |s|
  {
    if |s| > 0 {
      ReplaceUnsafeOfSafe(s[1..], false);
      assert s == [s[0]] + s[1..];
    }
  }

  lemma {:induction false} CollapseOfCollapsed(s: string, afterUnderscore: bool)
    requires NoDoubleUnderscore(s)
    requires afterUnderscore && |s| > 0 ==> s[0] != '_'
    ensures CollapseUnderscores(s, afterUnderscore) == s
    decreases |s|
  {
    if |s| > 0 {
      assert NoDoubleUnderscore(s[1..]) by {
        forall i | 0 <= i < |s[1..]| - 1 ensures !(s[1..][i] == '_' && s[1..][i + 1] == '_') {
          assert s[1..][i] == s[i + 1] && s[1..][i + 1] == s[i + 2];
        }
      }
      if s[0] == '_' {
        assert |s| > 1 ==> s[1] != '_';
        CollapseOfCollapsed(s[1..], true);
      } else {
        CollapseOfCollapsed(s[1..], false);
      }
      assert s == [s[0]] + s[1..];
    }
  }

  /** A key that is already clean comes back unchanged. */
  lemma SanitizeKeyOfClean(s: string)
    requires CleanKey(s)
    ensures SanitizeKey(s) == s
  {
    assert forall i :: 0 <= i < |s| ==> !IsSpace(s[i]);
    StripNoSpace(s);
    LowerOfSafe(s);
    ReplaceUnsafeOfSafe(s, false);
    CollapseOfCollapsed(s, false);
    StripCharNoop(s, '_');
  }

  lemma LowerOfSafe(s: string)
    requires forall i :: 0 <= i < |s| ==> SafeChar(s[i])
    ensures Lower(s) == s
  {
    var r := Lower(s);
    forall i | 0 <= i < |s| ensures r[i] == s[i] {
      assert r[i] == LowerChar(s[i]);
    }
  }

  /** Sanitising twice is sanitising once. */
  lemma SanitizeKeyIdempotent(value: string)
    ensures SanitizeKey(SanitizeKey(value)) == SanitizeKey(value)
  {
    SanitizeKeyOfClean(SanitizeKey(value));
  }

  /** Nothing survives from a blank or all-symbol value: the key is "device". */
  lemma SanitizeKeyFallback(value: string)
    requires forall i :: 0 <= i < |value| ==> !SafeChar(LowerChar(value[i]))
    ensures SanitizeKey(value) == "device"
  {
    var t := Strip(value);
    StripKeepsUnsafe(value);
    UnsafeOnly(Lower(t), false);
    LoneUnderscoreStrips(ReplaceUnsafe(Lower(t), false));
  }

  /** What is left of an all-symbol value collapses and strips to nothing. */
  lemma LoneUnderscoreStrips(replaced: string)
    requires replaced == "" || replaced == "_"
    ensures StripChar(CollapseUnderscores(replaced, false), '_') == ""
  {
    assert "_"[1..] == "";
    assert CollapseUnderscores(replaced, false) == replaced;
  }

  lemma StripKeepsUnsafe(value: string)
    requires forall i :: 0 <= i < |value| ==> !SafeChar(LowerChar(value[i]))
    ensures forall i :: 0 <= i < |Strip(value)| ==> !SafeChar(Lower(Strip(value))[i])
  {
    var t := Strip(value);
    var a := TrimSlice(value, Whitespace);
    var l := Lower(t);
    forall i | 0 <= i < |t| ensures !SafeChar(l[i]) {
      assert t[i] == value[a + i];
    }
  }

  lemma {:induction false} UnsafeOnly(s: string, inRun: bool)
    requires forall i :: 0 <= i < |s| ==> !SafeChar(s[i])
    ensures ReplaceUnsafe(s, inRun) == if |s| == 0 || inRun then "" else "_"
    decreases |s|
  {
    if |s| > 0 {
      UnsafeOnly(s[1..], true);
    }
  }

  /** The key a discovered endpoint is imported under. */
  function DiscoveredKey(kind: string, address: string): (k: string)
    ensures CleanKey(k)
  {
    SanitizeKey("discovered_" + kind + "_" + address)
  }

  /** For the numeric addresses discovery reports, the key is the literal
      `discovered_<kind>_<address>`. */
  lemma DiscoveredKeyOfDigits(kind: string, address: string)
    requires kind in {"light", "cover", "climate", "power"}
    requires IsDigits(address)
    ensures DiscoveredKey(kind, address) == "discovered_" + kind + "_" + address
  {
    var s := "discovered_" + kind + "_" + address;
    assert forall i :: 0 <= i < |s| ==> SafeChar(s[i]) by {
      forall i | 0 <= i < |s| ensures SafeChar(s[i]) {
        if i >= |s| - |address| {
          assert s[i] == address[i - (|s| - |address|)];
        }
      }
    }
    assert NoDoubleUnderscore(s) by {
      forall i | 0 <= i < |s| - 1 ensures !(s[i] == '_' && s[i + 1] == '_') {
        if i + 1 >= |s| - |address| {
          assert s[i + 1] == address[i + 1 - (|s| - |address|)];
        }
      }
    }
    assert s[|s| - 1] == address[|address| - 1];
    SanitizeKeyOfClean(s);
  }

  // ---------------------------------------------------------------------------
  // `_device_from_payload`
  // ---------------------------------------------------------------------------

  function UpperChar(c: char): char
  {
    if 'a' <= c <= 'z' then (c as int - 32) as char else c
  }

  /** `str.capitalize()` (ASCII): first character upper-case, the rest lower. */
  function Capitalize(s: string): (r: string)
    ensures |r| == |s|
    ensures |s| > 0 ==> !('a' <= r[0] <= 'z') && LowerChar(r[0]) == LowerChar(s[0])
    ensures forall i :: 1 <= i < |s| ==> r[i] == LowerChar(s[i])
  {
    if |s| == 0 then "" else [UpperChar(s[0])] + Lower(s[1..])
  }

  /** Capitalising twice is capitalising once. */
  lemma CapitalizeIdempotent(s: string)
    ensures Capitalize(Capitalize(s)) == Capitalize(s)
  {
  }

  /** The address a device is configured under and its stored dictionary. */
  datatype NewDevice = NewDevice(address: string, device: map<string, Value>)

  /** `str(payload.get("class") or "power").strip().lower()`. */
  function SensorClassOf(payload: map<string, Value>): (c: string)
    ensures !Truthy(GetOr(payload, "class", Null)) ==> c == "power"
    ensures forall i :: 0 <= i < |c| ==> !('A' <= c[i] <= 'Z')
  {
    var v := GetOr(payload, "class", Null);
    if Truthy(v) then Lower(Strip(ToStr(v)))
    else
      DefaultClassClean();
      Lower(Strip("power"))
  }

  /** The default class is already stripped and lower-case. */
  lemma DefaultClassClean()
    ensures Lower(Strip("power")) == "power"
  {
    StripNoSpace("power");
    assert Lower("power") == "power";
  }

  predicate AddressedByWhere(platform: string)
  {
    platform == LightPlatform || platform == CoverPlatform || platform == SensorPlatform
  }

  /** A flag of a climate payload: absent means true. */
  function ClimateFlag(payload: map<string, Value>, name: string): (r: bool)
    ensures name !in payload ==> r
    ensures name in payload && payload[name].Bool? ==> r == payload[name].b
  {
    ToBool(GetOr(payload, name, Null), true)
  }

  /** The name a device gets when the payload gives none. */
  function DefaultName(platform: string, address: string): (n: string)
    ensures |n| > |address| && n[|n| - |address| - 1..] == " " + address
    ensures !AddressedByWhere(platform) ==> n == "Climate " + address
    ensures AddressedByWhere(platform) ==> !('a' <= n[0] <= 'z') && LowerChar(n[0]) == LowerChar(platform[0])
  {
    var tail := " " + address;
    var head := if AddressedByWhere(platform) then Capitalize(platform) else "Climate";
    assert AddressedByWhere(platform) ==> |platform| > 0;
    assert (head + tail)[|head|..] == tail;
    head + tail
  }

  /** The payload fields `_device_from_payload` reads, already coerced:
      blank-stripped texts, the lower-cased sensor class (default "power"),
      `dimmable` (default false) and the climate flags (default true). */
  datatype DeviceFields = DeviceFields(name: string, where: string, zone: string, sensorClass: string,
                                       dimmable: bool, heat: bool, cool: bool, fan: bool, standalone: bool)

  function ReadDeviceFields(payload: map<string, Value>): (f: DeviceFields)
    ensures f.where == FieldText(payload, "where") && f.zone == FieldText(payload, "zone")
    ensures f.name == FieldText(payload, "name") && f.sensorClass == SensorClassOf(payload)
    ensures "dimmable" !in payload ==> !f.dimmable
    ensures "heat" !in payload ==> f.heat
    ensures "cool" !in payload ==> f.cool
    ensures "fan" !in payload ==> f.fan
    ensures "standalone" !in payload ==> f.standalone
  {
    DeviceFields(FieldText(payload, "name"), FieldText(payload, "where"), FieldText(payload, "zone"),
                 SensorClassOf(payload), ToBool(GetOr(payload, "dimmable", Null), false),
                 ClimateFlag(payload, "heat"), ClimateFlag(payload, "cool"), ClimateFlag(payload, "fan"),
                 ClimateFlag(payload, "standalone"))
  }

  /** `_device_from_payload`: light, cover and sensor devices are addressed
      by `where`, anything else is a climate zone. */
  function DeviceFromPayload(platform: string, payload: map<string, Value>): (r: Result<NewDevice, string>)
    ensures r.Success? ==> r.value.address != ""
  {
    DeviceFromFields(platform, ReadDeviceFields(payload))
  }

  function DeviceFromFields(platform: string, f: DeviceFields): (r: Result<NewDevice, string>)
    ensures r.Success? ==> r.value.address != ""
  {
    if AddressedByWhere(platform) then
      if f.where == "" then Failure("Field `where` is required.")
      else
        var name := if f.name == "" then DefaultName(platform, f.where) else f.name;
        if platform == LightPlatform then
          Success(NewDevice(f.where, map["where" := Str(f.where), "name" := Str(name), "dimmable" := Bool(f.dimmable)]))
        else if platform == CoverPlatform then
          Success(NewDevice(f.where, map["where" := Str(f.where), "name" := Str(name)]))
        else if f.sensorClass !in SensorClasses then Failure("Invalid sensor class `" + f.sensorClass + "`.")
        else Success(NewDevice(f.where, map["where" := Str(f.where), "name" := Str(name), "class" := Str(f.sensorClass)]))
    else
      if f.zone == "" then Failure("Field `zone` is required.")
      else
        var name := if f.name == "" then DefaultName(platform, f.zone) else f.name;
        Success(NewDevice(f.zone, map["zone" := Str(f.zone), "name" := Str(name),
                                      "heat" := Bool(f.heat), "cool" := Bool(f.cool),
                                      "fan" := Bool(f.fan), "standalone" := Bool(f.standalone)]))
  }

  /** A device payload is refused exactly when its address is blank or, for
      a sensor, its class is not one of the four supported. */
  lemma DeviceFromPayloadErrors(platform: string, f: DeviceFields)
    ensures var r := DeviceFromFields(platform, f);
            AddressedByWhere(platform) ==>
              (r.Failure? <==> f.where == "" || (platform == SensorPlatform && f.sensorClass !in SensorClasses))
    ensures var r := DeviceFromFields(platform, f);
            !AddressedByWhere(platform) ==> (r.Failure? <==> f.zone == "")
  {
  }

  /** An accepted payload is keyed by its address, and named by the payload
      or else by the platform and address. */
  lemma DeviceFromPayloadNaming(platform: string, f: DeviceFields)
    requires DeviceFromFields(platform, f).Success?
    ensures var d := DeviceFromFields(platform, f).value;
            d.address == (if AddressedByWhere(platform) then f.where else f.zone) &&
            "name" in d.device &&
            d.device["name"] == Str(if f.name != "" then f.name else DefaultName(platform, d.address))
  {
  }

  /** The stored dictionary of each platform: a light records `dimmable`, a
      sensor its validated class, a climate zone its four flags. */
  lemma DeviceFromPayloadFields(platform: string, f: DeviceFields)
    requires DeviceFromFields(platform, f).Success?
    ensures var d := DeviceFromFields(platform, f).value;
            AddressedByWhere(platform) ==> "where" in d.device && d.device["where"] == Str(d.address)
    ensures var d := DeviceFromFields(platform, f).value;
            platform == LightPlatform ==>
              d.device.Keys == {"where", "name", "dimmable"} && d.device["dimmable"] == Bool(f.dimmable)
    ensures var d := DeviceFromFields(platform, f).value;
            platform == SensorPlatform ==>
              "class" in d.device && d.device["class"] == Str(f.sensorClass) && f.sensorClass in SensorClasses
    ensures var d := DeviceFromFields(platform, f).value;
            !AddressedByWhere(platform) ==>
              d.device.Keys == {"zone", "name", "heat", "cool", "fan", "standalone"} &&
              d.device["zone"] == Str(d.address) &&
              d.device["heat"] == Bool(f.heat) && d.device["cool"] == Bool(f.cool) &&
              d.device["fan"] == Bool(f.fan) && d.device["standalone"] == Bool(f.standalone)
  {
  }

  // ---------------------------------------------------------------------------
  // `_mapped_results`, `_merge_discovery_results`, `_is_valid_discovery_climate`
  // ---------------------------------------------------------------------------

  /** The items already configured, in their original order. */
  function MappedItems(items: seq<string>, configured: set<string>): (r: seq<string>)
    ensures forall x :: x in r ==> x in configured
    ensures forall x :: x in items && x in configured ==> x in r
  {
    if |items| == 0 then []
    else (if items[0] in configured then [items[0]] else []) + MappedItems(items[1..], configured)
  }

  /** The items not configured yet, in their original order. */
  function NewItems(items: seq<string>, configured: set<string>): (r: seq<string>)
    ensures forall x :: x in r ==> x !in configured
    ensures forall x :: x in items && x !in configured ==> x in r
  {
    if |items| == 0 then []
    else (if items[0] !in configured then [items[0]] else []) + NewItems(items[1..], configured)
  }

  /** `_mapped_results`: the two lists together hold every item exactly as
      often as the input does. */
  function MappedResults(items: seq<string>, configured: set<string>): (r: (seq<string>, seq<string>))
    ensures r.0 == MappedItems(items, configured) && r.1 == NewItems(items, configured)
  {
    (MappedItems(items, configured), NewItems(items, configured))
  }

  lemma {:induction false} MappedResultsPartition(items: seq<string>, configured: set<string>)
    ensures var r := MappedResults(items, configured);
            multiset(r.0) + multiset(r.1) == multiset(items) && |r.0| + |r.1| == |items|
  {
    if |items| > 0 {
      MappedResultsPartition(items[1..], configured);
      var m, n := MappedItems(items[1..], configured), NewItems(items[1..], configured);
      assert items == [items[0]] + items[1..];
      assert multiset(items) == multiset([items[0]]) + multiset(items[1..]);
      if items[0] in configured {
        assert MappedItems(items, configured) == [items[0]] + m;
        assert NewItems(items, configured) == n;
        assert multiset([items[0]] + m) == multiset([items[0]]) + multiset(m);
      } else {
        assert MappedItems(items, configured) == m;
        assert NewItems(items, configured) == [items[0]] + n;
        assert multiset([items[0]] + n) == multiset([items[0]]) + multiset(n);
      }
    }
  }

  /** The split keeps the input order: each list is a subsequence of the items. */
  predicate Subsequence(a: seq<string>, b: seq<string>)
    decreases |b|
  {
    |a| == 0 || (|b| > 0 && (if a[0] == b[0] then Subsequence(a[1..], b[1..]) else Subsequence(a, b[1..])))
  }

  lemma {:induction false} MappedResultsKeepOrder(items: seq<string>, configured: set<string>)
    ensures Subsequence(MappedItems(items, configured), items)
    ensures Subsequence(NewItems(items, configured), items)
  {
    if |items| > 0 {
      MappedResultsKeepOrder(items[1..], configured);
      var m, n := MappedItems(items, configured), NewItems(items, configured);
      if items[0] in configured {
        assert m == [items[0]] + MappedItems(items[1..], configured);
        assert m[1..] == MappedItems(items[1..], configured);
        assert n == NewItems(items[1..], configured);
        assert |n| > 0 ==> n[0] in n;
        SubsequenceSkip(n, items);
      } else {
        assert n == [items[0]] + NewItems(items[1..], configured);
        assert n[1..] == NewItems(items[1..], configured);
        assert m == MappedItems(items[1..], configured);
        assert |m| > 0 ==> m[0] in m;
        SubsequenceSkip(m, items);
      }
    }
  }

  /** Skipping a head that the subsequence does not start with. */
  lemma SubsequenceSkip(a: seq<string>, b: seq<string>)
    requires |b| > 0 && Subsequence(a, b[1..])
    requires |a| > 0 ==> a[0] != b[0]
    ensures Subsequence(a, b)
  {
  }

  function ListOf(d: map<string, seq<string>>, kind: string): seq<string>
  {
    if kind in d then d[kind] else []
  }

  /** One kind of a merge: the sorted union of both sides. */
  function MergeKind(left: map<string, seq<string>>, right: map<string, seq<string>>, kind: string): (r: seq<string>)
    ensures StrictlySorted(r)
    ensures forall x :: x in r <==> x in ListOf(left, kind) || x in ListOf(right, kind)
  {
    SortDedup(ListOf(left, kind) + ListOf(right, kind))
  }

  /** `_merge_discovery_results`: exactly the four kinds, each the sorted,
      duplicate-free union of both inputs. */
  function MergeDiscoveryResults(left: map<string, seq<string>>, right: map<string, seq<string>>): (r: Report)
    ensures forall k :: StrictlySorted(r.Get(k)) &&
              forall x :: x in r.Get(k) <==> x in ListOf(left, KindName(k)) || x in ListOf(right, KindName(k))
  {
    var r := Report(MergeKind(left, right, "light"), MergeKind(left, right, "cover"),
                    MergeKind(left, right, "climate"), MergeKind(left, right, "power"));
    assert forall k :: r.Get(k) == MergeKind(left, right, KindName(k));
    r
  }

  /** Merging does not depend on which side a result came from. */
  lemma MergeCommutative(left: map<string, seq<string>>, right: map<string, seq<string>>)
    ensures MergeDiscoveryResults(left, right) == MergeDiscoveryResults(right, left)
  {
    var a, b := MergeDiscoveryResults(left, right), MergeDiscoveryResults(right, left);
    SortedUnique(a.light, b.light);
    SortedUnique(a.cover, b.cover);
    SortedUnique(a.climate, b.climate);
    SortedUnique(a.power, b.power);
  }

  /** A report as the dictionary the merge reads. */
  function ReportMap(r: Report): map<string, seq<string>>
  {
    map["light" := r.light, "cover" := r.cover, "climate" := r.climate, "power" := r.power]
  }

  /** Merging the same results in again changes nothing: refreshing the
      stored activation results is stable. */
  lemma MergeAbsorbs(left: map<string, seq<string>>, right: map<string, seq<string>>)
    ensures var m := MergeDiscoveryResults(left, right);
            MergeDiscoveryResults(ReportMap(m), right) == m
  {
    var m := MergeDiscoveryResults(left, right);
    var d := ReportMap(m);
    MergeKindAbsorbs(left, right, "light", d);
    MergeKindAbsorbs(left, right, "cover", d);
    MergeKindAbsorbs(left, right, "climate", d);
    MergeKindAbsorbs(left, right, "power", d);
  }

  lemma MergeKindAbsorbs(left: map<string, seq<string>>, right: map<string, seq<string>>, kind: string,
                         d: map<string, seq<string>>)
    requires kind in d && d[kind] == MergeKind(left, right, kind)
    ensures MergeKind(d, right, kind) == d[kind]
  {
    SortedUnique(MergeKind(d, right, kind), d[kind]);
  }

  /** `_is_valid_discovery_climate`: the web layer's own copy of the
      gateway's climate filter, and it accepts exactly what that filter
      keeps. */
  function IsValidDiscoveryClimate(where: string): (r: bool)
    ensures r <==> ExtractDiscoveryClimateWhere(where).Some?
  {
    if where == "" || where == "*" then false
    else
      var parts := WhereParts(where);
      if |parts| == 0 then false
      else
        var zone := if parts[0] == "0" && |parts| >= 2 then parts[1] else parts[0];
        IsDigits(zone) && DigitsValue(zone) > 0
  }

  // ---------------------------------------------------------------------------
  // `_build_discovery_snippet`
  // ---------------------------------------------------------------------------

  const AlreadyConfigured := "  # already_configured"
  const NoDevicesLine := "# No devices found in scanned range"

  /** The YAML section a kind is written under. */
  function SectionHeader(k: DiscoveryKind): string
  {
    match k
    case Light => "light:"
    case Cover => "cover:"
    case Climate => "climate:"
    case Power => "sensor:"
  }

  /** The first line of an item: its key, marked when already configured. */
  function KeyLine(k: DiscoveryKind, w: string, mapped: bool): string
  {
    "  discovered_" + KindName(k) + "_" + w + ":" + (if mapped then AlreadyConfigured else "")
  }

  function LinesPerItem(k: DiscoveryKind): nat
  {
    match k
    case Light => 4
    case Cover => 3
    case Climate => 6
    case Power => 4
  }

  /** The lines written for one item. */
  function ItemLines(k: DiscoveryKind, w: string, mapped: bool): (r: seq<string>)
    ensures |r| == LinesPerItem(k) && r[0] == KeyLine(k, w, mapped)
    ensures forall i :: 0 <= i < |r| ==> Indented(r[i])
  {
    match k
    case Light => [KeyLine(k, w, mapped), "    where: '" + w + "'", "    name: Light " + w, "    dimmable: false"]
    case Cover => [KeyLine(k, w, mapped), "    where: '" + w + "'", "    name: Cover " + w]
    case Climate => [KeyLine(k, w, mapped), "    zone: '" + w + "'", "    name: Climate " + w,
                     "    heat: true", "    cool: true", "    fan: true"]
    case Power => [KeyLine(k, w, mapped), "    where: '" + w + "'", "    name: Power " + w, "    class: power"]
  }

  /** A line inside a section: it starts with a blank. */
  predicate Indented(line: string)
  {
    |line| > 0 && line[0] == ' '
  }

  /** The item lines of a section, item by item in list order. */
  function ItemsLines(k: DiscoveryKind, items: seq<string>, mapped: set<string>): (r: seq<string>)
    ensures forall i :: 0 <= i < |r| ==> Indented(r[i])
  {
    if |items| == 0 then []
    else ItemsLines(k, items[..|items| - 1], mapped) + ItemLines(k, items[|items| - 1], items[|items| - 1] in mapped)
  }

  /** A section: nothing for an empty list, otherwise its header and items. */
  function Section(k: DiscoveryKind, items: seq<string>, mapped: set<string>): seq<string>
  {
    if |items| == 0 then [] else [SectionHeader(k)] + ItemsLines(k, items, mapped)
  }

  /** The snippet's lines: light, cover, climate and sensor sections in this
      order, or the single "no devices" line. */
  function SnippetLines(light: seq<string>, cover: seq<string>, climate: seq<string>, power: seq<string>,
                        mapped: Snapshot): seq<string>
  {
    var lines := Section(Light, light, mapped.light) + Section(Cover, cover, mapped.cover) +
                 Section(Climate, climate, mapped.climate) + Section(Power, power, mapped.power);
    if |lines| == 0 then [NoDevicesLine] else lines
  }

  lemma {:induction false} ItemsLinesLength(k: DiscoveryKind, items: seq<string>, mapped: set<string>)
    ensures |ItemsLines(k, items, mapped)| == LinesPerItem(k) * |items|
  {
    if |items| > 0 {
      ItemsLinesLength(k, items[..|items| - 1], mapped);
      assert LinesPerItem(k) * (|items| - 1) + LinesPerItem(k) == LinesPerItem(k) * |items|;
    }
  }

  lemma {:induction false} ItemsLinesPrefix(k: DiscoveryKind, items: seq<string>, j: nat, mapped: set<string>)
    requires j <= |items|
    ensures ItemsLines(k, items[..j], mapped) <= ItemsLines(k, items, mapped)
    decreases |items|
  {
    if j < |items| {
      ItemsLinesPrefix(k, items[..|items| - 1], j, mapped);
      assert items[..|items| - 1][..j] == items[..j];
    } else {
      assert items[..j] == items;
    }
  }

  /** Item `i` of a section starts right after the lines of the items before
      it, with its key line; the already-configured mark is on that line
      exactly when the item is in the mapped set. */
  lemma ItemKeyLine(k: DiscoveryKind, items: seq<string>, i: nat, mapped: set<string>)
    requires i < |items|
    ensures var lines := ItemsLines(k, items, mapped);
            var at := LinesPerItem(k) * i;
            at < |lines| && lines[at] == KeyLine(k, items[i], items[i] in mapped)
  {
    ItemsLinesPrefix(k, items, i + 1, mapped);
    ItemsLinesLength(k, items[..i], mapped);
    assert items[..i + 1][..i] == items[..i];
    assert ItemsLines(k, items[..i + 1], mapped) ==
             ItemsLines(k, items[..i], mapped) + ItemLines(k, items[i], items[i] in mapped);
  }

  /** The mark on a key line is present exactly when asked for. */
  lemma KeyLineMarked(k: DiscoveryKind, w: string, mapped: bool)
    ensures EndsWith(KeyLine(k, w, mapped), AlreadyConfigured) <==> mapped
  {
    var line := KeyLine(k, w, mapped);
    if !mapped {
      assert line[|line| - 1] == ':';
      assert AlreadyConfigured[|AlreadyConfigured| - 1] == 'd';
    }
  }

  predicate EndsWith(s: string, suffix: string)
  {
    |suffix| <= |s| && s[|s| - |suffix|..] == suffix
  }

  /** The snippet is the lone "no devices" line exactly when every list is empty. */
  lemma SnippetEmptyIff(light: seq<string>, cover: seq<string>, climate: seq<string>, power: seq<string>,
                        mapped: Snapshot)
    ensures SnippetLines(light, cover, climate, power, mapped) == [NoDevicesLine] <==>
              light == [] && cover == [] && climate == [] && power == []
  {
    var lines := Section(Light, light, mapped.light) + Section(Cover, cover, mapped.cover) +
                 Section(Climate, climate, mapped.climate) + Section(Power, power, mapped.power);
    if |lines| > 0 {
      var first := if light != [] then "light:" else if cover != [] then "cover:"
                   else if climate != [] then "climate:" else "sensor:";
      assert lines[0] == first;
      assert first != NoDevicesLine;
    }
  }

  /** A line that opens a YAML section: neither indented nor a comment. */
  predicate IsSectionHeader(line: string)
  {
    |line| > 0 && line[0] != ' ' && line[0] != '#'
  }

  /** The section headers among some lines, in order. */
  function SectionHeaders(lines: seq<string>): seq<string>
  {
    if |lines| == 0 then []
    else SectionHeaders(lines[..|lines| - 1]) + (if IsSectionHeader(lines[|lines| - 1]) then [lines[|lines| - 1]] else [])
  }

  lemma {:induction false} SectionHeadersAppend(a: seq<string>, b: seq<string>)
    ensures SectionHeaders(a + b) == SectionHeaders(a) + SectionHeaders(b)
  {
    if |b| > 0 {
      assert (a + b)[..|a + b| - 1] == a + b[..|b| - 1];
      SectionHeadersAppend(a, b[..|b| - 1]);
    } else {
      assert a + b == a;
    }
  }

  lemma {:induction false} NoSectionHeaders(lines: seq<string>)
    requires forall i :: 0 <= i < |lines| ==> Indented(lines[i])
    ensures SectionHeaders(lines) == []
  {
    if |lines| > 0 {
      NoSectionHeaders(lines[..|lines| - 1]);
    }
  }

  /** The header of a kind's section when its list is non-empty. */
  function HeaderIf(k: DiscoveryKind, items: seq<string>): seq<string>
  {
    if |items| == 0 then [] else [SectionHeader(k)]
  }

  lemma SectionHeadersOfSection(k: DiscoveryKind, items: seq<string>, mapped: set<string>)
    ensures SectionHeaders(Section(k, items, mapped)) == HeaderIf(k, items)
  {
    if |items| > 0 {
      SectionHeadersAppend([SectionHeader(k)], ItemsLines(k, items, mapped));
      NoSectionHeaders(ItemsLines(k, items, mapped));
      assert SectionHeaders([SectionHeader(k)]) == [SectionHeader(k)] by {
        assert [SectionHeader(k)][..0] == [];
      }
    }
  }

  /** Whatever the lists, the snippet opens the sections of the non-empty
      kinds and no others, in the order light, cover, climate, sensor. */
  lemma SnippetSectionOrder(light: seq<string>, cover: seq<string>, climate: seq<string>, power: seq<string>,
                            mapped: Snapshot)
    ensures SectionHeaders(SnippetLines(light, cover, climate, power, mapped)) ==
              HeaderIf(Light, light) + HeaderIf(Cover, cover) + HeaderIf(Climate, climate) + HeaderIf(Power, power)
  {
    var a := Section(Light, light, mapped.light);
    var b := Section(Cover, cover, mapped.cover);
    var c := Section(Climate, climate, mapped.climate);
    var d := Section(Power, power, mapped.power);
    SectionHeadersOfSection(Light, light, mapped.light);
    SectionHeadersOfSection(Cover, cover, mapped.cover);
    SectionHeadersOfSection(Climate, climate, mapped.climate);
    SectionHeadersOfSection(Power, power, mapped.power);
    SectionHeadersAppend(a, b);
    SectionHeadersAppend(a + b, c);
    SectionHeadersAppend(a + b + c, d);
    if |a + b + c + d| == 0 {
      assert SectionHeaders([NoDevicesLine]) == [] by {
        assert [NoDevicesLine][..0] == [];
      }
    }
  }

  lemma ItemsLinesStep(k: DiscoveryKind, items: seq<string>, i: nat, mapped: set<string>)
    requires i < |items|
    ensures ItemsLines(k, items[..i + 1], mapped) ==
              ItemsLines(k, items[..i], mapped) + ItemLines(k, items[i], items[i] in mapped)
  {
    assert items[..i + 1][..i] == items[..i];
  }

  /** The lines of one section, appended item by item. */
  method SectionLines(k: DiscoveryKind, items: seq<string>, mapped: set<string>) returns (lines: seq<string>)
    ensures lines == Section(k, items, mapped)
  {
    lines := [];
    if |items| == 0 {
      return;
    }
    lines := [SectionHeader(k)];
    var i := 0;
    while i < |items|
      invariant 0 <= i <= |items|
      invariant lines == [SectionHeader(k)] + ItemsLines(k, items[..i], mapped)
    {
      var w := items[i];
      ItemsLinesStep(k, items, i, mapped);
      AppendAssoc([SectionHeader(k)], ItemsLines(k, items[..i], mapped), ItemLines(k, w, w in mapped));
      lines := lines + ItemLines(k, w, w in mapped);
      i := i + 1;
    }
    assert items[..i] == items;
  }

  /** `_build_discovery_snippet`: the lines joined with newlines. */
  method BuildDiscoverySnippet(light: seq<string>, cover: seq<string>, climate: seq<string>, power: seq<string>,
                               mapped: Snapshot) returns (snippet: string)
    ensures snippet == Join(SnippetLines(light, cover, climate, power, mapped), "\n")
  {
    var lines := SectionLines(Light, light, mapped.light);
    var more := SectionLines(Cover, cover, mapped.cover);
    lines := lines + more;
    more := SectionLines(Climate, climate, mapped.climate);
    lines := lines + more;
    more := SectionLines(Power, power, mapped.power);
    lines := lines + more;
    if |lines| == 0 {
      lines := [NoDevicesLine];
    }
    snippet := Join(lines, "\n");
  }

  // ---------------------------------------------------------------------------
  // `_configured_discovery_endpoints`
  // ---------------------------------------------------------------------------

  /** The runtime configuration of one gateway: platform, device key, device data. */
  type RuntimePlatforms = map<string, map<string, map<string, Value>>>

  function DevicesOf(platforms: RuntimePlatforms, platform: string): map<string, map<string, Value>>
  {
    if platform in platforms then platforms[platform] else map[]
  }

  /** A set each of whose elements is the image of some key has no more
      elements than there are keys. */
  lemma {:induction false} ImageCard(keys: set<string>, f: string -> string, r: set<string>)
    requires forall w :: w in r ==> exists d :: d in keys && f(d) == w
    ensures |r| <= |keys|
    decreases |keys|
  {
    if r != {} {
      var w :| w in r;
      var d :| d in keys && f(d) == w;
      var rest := r - {w};
      forall v | v in rest ensures exists e :: e in keys - {d} && f(e) == v {
        var e :| e in keys && f(e) == v;
        assert e != d;
      }
      ImageCard(keys - {d}, f, rest);
    }
  }

  /** The values of `field` that the devices of a platform set to something
      other than None: at most one per device. */
  function FieldValues(devices: map<string, map<string, Value>>, field: string): (r: set<string>)
    ensures forall w :: w in r <==>
              exists d :: d in devices && field in devices[d] && devices[d][field] != Null && ToStr(devices[d][field]) == w
    ensures |r| <= |devices|
  {
    var keys := set d | d in devices && field in devices[d] && devices[d][field] != Null;
    var r := set d | d in keys :: ToStr(devices[d][field]);
    ImageCard(keys, d => if d in keys then ToStr(devices[d][field]) else "", r);
    SubsetCard(keys, devices.Keys);
    r
  }

  /** `str(d.get("class", "")).lower().split(".")[-1]`. */
  function SensorKind(data: map<string, Value>): string
  {
    var parts := Split(Lower(ToStr(GetOr(data, "class", Str("")))), '.');
    parts[|parts| - 1]
  }

  /** A sensor configured at `w` whose class is power or energy. */
  predicate IsPowerEndpoint(data: map<string, Value>, w: string)
  {
    "where" in data && data["where"] != Null && SensorKind(data) in {"power", "energy"} && ToStr(data["where"]) == w
  }

  /** The sensors that count as power endpoints: those of class power or
      energy, a subset of the sensors' WHEREs. */
  function PowerWheres(devices: map<string, map<string, Value>>): (r: set<string>)
    ensures forall w :: w in r <==>
              exists d :: d in devices && "where" in devices[d] && devices[d]["where"] != Null &&
                          SensorKind(devices[d]) in {"power", "energy"} && ToStr(devices[d]["where"]) == w
    ensures r <= FieldValues(devices, "where")
    ensures |r| <= |devices|
  {
    var keys := set d | d in devices && "where" in devices[d] && devices[d]["where"] != Null &&
                        SensorKind(devices[d]) in {"power", "energy"};
    var r := set d | d in keys :: ToStr(devices[d]["where"]);
    ImageCard(keys, d => if d in keys then ToStr(devices[d]["where"]) else "", r);
    SubsetCard(keys, devices.Keys);
    r
  }

  /** `_configured_discovery_endpoints`: the addresses already configured,
      per kind; a climate device counts by its zone, a sensor only when it
      measures power or energy. */
  function ConfiguredDiscoveryEndpoints(platforms: RuntimePlatforms): (r: Snapshot)
    ensures r.light == FieldValues(DevicesOf(platforms, LightPlatform), "where")
    ensures r.cover == FieldValues(DevicesOf(platforms, CoverPlatform), "where")
    ensures r.climate == FieldValues(DevicesOf(platforms, ClimatePlatform), "zone")
    ensures r.power <= FieldValues(DevicesOf(platforms, SensorPlatform), "where")
    ensures forall w :: w in r.power <==>
              exists d :: d in DevicesOf(platforms, SensorPlatform) && IsPowerEndpoint(DevicesOf(platforms, SensorPlatform)[d], w)
  {
    Snapshot(FieldValues(DevicesOf(platforms, LightPlatform), "where"),
             FieldValues(DevicesOf(platforms, CoverPlatform), "where"),
             FieldValues(DevicesOf(platforms, ClimatePlatform), "zone"),
             PowerWheres(DevicesOf(platforms, SensorPlatform)))
  }

  /** A light configured at `w` is reported as already configured, not as new. */
  lemma ConfiguredLightIsMapped(platforms: RuntimePlatforms, key: string, w: string, found: seq<string>)
    requires LightPlatform in platforms && key in platforms[LightPlatform]
    requires "where" in platforms[LightPlatform][key] && platforms[LightPlatform][key]["where"] == Str(w)
    requires w in found
    ensures var split := MappedResults(found, ConfiguredDiscoveryEndpoints(platforms).light);
            w in split.0 && w !in split.1
  {
    assert w in FieldValues(DevicesOf(platforms, LightPlatform), "where");
  }

  // ---------------------------------------------------------------------------
  // `_devices_for_ui`
  // ---------------------------------------------------------------------------

  /** The devices of one platform of a stored gateway payload that are
      dictionaries, as `_devices_for_ui` lists them. */
  function PlatformDicts(gatewayPayload: map<string, Value>, platform: string): map<string, map<string, Value>>
  {
    if platform in gatewayPayload && gatewayPayload[platform].Dict? then
      var entries := gatewayPayload[platform].entries;
      map k | k in entries && entries[k].Dict? :: entries[k].entries
    else map[]
  }

  function GetValue(d: map<string, Value>, k: string): Value
  {
    if k in d then d[k] else Null
  }

  /** `bool(value.get(k, default))`. */
  function FlagOr(d: map<string, Value>, k: string, default: bool): bool
  {
    if k in d then Truthy(d[k]) else default
  }

  /** The device fields every row of the panel's list copies, absent ones as None. */
  const CopiedFields: set<string> := {"name", "where", "zone", "who", "interface", "manufacturer", "model"}

  /** The fields a row adds for its platform. */
  function PlatformFields(platform: string): set<string>
  {
    if platform == LightPlatform then {"dimmable"}
    else if platform == SensorPlatform then {"class"}
    else if platform == ClimatePlatform then {"heat", "cool", "fan", "standalone"}
    else {}
  }

  /** The row fields, common and platform-specific, never collide. */
  lemma RowFieldsApart(platform: string)
    ensures "key" !in CopiedFields
    ensures ({"key"} + CopiedFields) !! PlatformFields(platform)
  {
  }

  /** The part of a row every platform shares: the key and the copied fields. */
  function CopiedEntry(key: string, value: map<string, Value>): (r: map<string, Value>)
    ensures r.Keys == {"key"} + CopiedFields
    ensures r["key"] == Str(key)
    ensures forall f :: f in CopiedFields ==> r[f] == GetValue(value, f)
  {
    RowFieldsApart("");
    (map f | f in CopiedFields :: GetValue(value, f))["key" := Str(key)]
  }

  /** The platform-specific part of a row: a light's dimming flag, a sensor's
      class, a thermostat's modes; missing flags default to off, except heating. */
  function PlatformEntry(platform: string, value: map<string, Value>): (r: map<string, Value>)
    ensures r.Keys == PlatformFields(platform)
    ensures platform == LightPlatform ==> r["dimmable"] == Bool(FlagOr(value, "dimmable", false))
    ensures platform == SensorPlatform ==> r["class"] == GetValue(value, "class")
    ensures platform == ClimatePlatform ==>
              r["heat"] == Bool(FlagOr(value, "heat", true)) && r["cool"] == Bool(FlagOr(value, "cool", false)) &&
              r["fan"] == Bool(FlagOr(value, "fan", false)) && r["standalone"] == Bool(FlagOr(value, "standalone", false))
  {
    if platform == LightPlatform then map["dimmable" := Bool(FlagOr(value, "dimmable", false))]
    else if platform == SensorPlatform then map["class" := GetValue(value, "class")]
    else if platform == ClimatePlatform then
      map["heat" := Bool(FlagOr(value, "heat", true)), "cool" := Bool(FlagOr(value, "cool", false)),
          "fan" := Bool(FlagOr(value, "fan", false)), "standalone" := Bool(FlagOr(value, "standalone", false))]
    else map[]
  }

  /** One row of the device list shown by the panel. */
  function UiEntry(platform: string, key: string, value: map<string, Value>): (e: map<string, Value>)
    ensures "key" in e && e["key"] == Str(key)
    ensures platform == LightPlatform ==> "dimmable" in e && e["dimmable"] == Bool(FlagOr(value, "dimmable", false))
    ensures platform == ClimatePlatform ==>
              "heat" in e && e["heat"] == Bool(FlagOr(value, "heat", true)) &&
              "cool" in e && e["cool"] == Bool(FlagOr(value, "cool", false)) &&
              "fan" in e && e["fan"] == Bool(FlagOr(value, "fan", false)) &&
              "standalone" in e && e["standalone"] == Bool(FlagOr(value, "standalone", false))
    ensures platform == SensorPlatform ==> "class" in e && e["class"] == GetValue(value, "class")
    ensures forall f :: f in CopiedFields ==> f in e && e[f] == GetValue(value, f)
    ensures e.Keys == {"key"} + CopiedFields + PlatformFields(platform)
  {
    RowFieldsApart(platform);
    CopiedEntry(key, value) + PlatformEntry(platform, value)
  }

  function EntryKey(e: map<string, Value>): string
  {
    if "key" in e && e["key"].Str? then e["key"].s else ""
  }

  /** The rows of one platform: one per dictionary-valued device, in key order. */
  predicate ListsDevices(rows: seq<map<string, Value>>, platform: string, devices: map<string, map<string, Value>>)
  {
    |rows| == |devices.Keys| &&
    (forall i, j :: 0 <= i < j < |rows| ==> Less(EntryKey(rows[i]), EntryKey(rows[j]))) &&
    (forall i :: 0 <= i < |rows| ==>
       EntryKey(rows[i]) in devices && rows[i] == UiEntry(platform, EntryKey(rows[i]), devices[EntryKey(rows[i])])) &&
    (forall k :: k in devices ==> exists i :: 0 <= i < |rows| && EntryKey(rows[i]) == k)
  }

  /** The rows of one platform, built from its sorted keys. */
  method PlatformRows(platform: string, devices: map<string, map<string, Value>>) returns (rows: seq<map<string, Value>>)
    ensures ListsDevices(rows, platform, devices)
  {
    var keys := SortedFromSet(devices.Keys);
    assert |keys| == |devices.Keys| by {
      StrictlySortedNoDuplicates(keys);
      DistinctCard(keys, devices.Keys);
    }
    rows := [];
    var i := 0;
    while i < |keys|
      invariant 0 <= i <= |keys|
      invariant |rows| == i
      invariant forall j :: 0 <= j < i ==>
                  EntryKey(rows[j]) == keys[j] && rows[j] == UiEntry(platform, keys[j], devices[keys[j]])
    {
      var entry := UiEntry(platform, keys[i], devices[keys[i]]);
      assert EntryKey(entry) == keys[i];
      rows := rows + [entry];
      i := i + 1;
    }
    RowsOfSortedKeys(rows, keys, platform, devices);
  }

  /** One row per key of a sorted key list lists the devices. */
  lemma RowsOfSortedKeys(rows: seq<map<string, Value>>, keys: seq<string>, platform: string,
                         devices: map<string, map<string, Value>>)
    requires StrictlySorted(keys)
    requires forall y :: y in keys <==> y in devices
    requires |rows| == |keys| == |devices.Keys|
    requires forall j :: 0 <= j < |rows| ==>
               EntryKey(rows[j]) == keys[j] && rows[j] == UiEntry(platform, keys[j], devices[keys[j]])
    ensures ListsDevices(rows, platform, devices)
  {
    forall k | k in devices ensures exists j :: 0 <= j < |rows| && EntryKey(rows[j]) == k {
      var j :| 0 <= j < |keys| && keys[j] == k;
      assert EntryKey(rows[j]) == k;
    }
  }

  /** A sequence without repeats has as many elements as the set it lists. */
  lemma {:induction false} DistinctCard(s: seq<string>, t: set<string>)
    requires forall i, j :: 0 <= i < j < |s| ==> s[i] != s[j]
    requires forall y :: y in s <==> y in t
    ensures |s| == |t|
    decreases |s|
  {
    if |s| > 0 {
      var last := s[|s| - 1];
      var init := s[..|s| - 1];
      assert last !in init;
      forall y ensures y in init <==> y in t - {last} {
        if y in init {
          var j :| 0 <= j < |init| && init[j] == y;
          assert s[j] == y;
        }
        if y in t - {last} {
          assert y in s;
          var j :| 0 <= j < |s| && s[j] == y;
          assert j < |s| - 1;
          assert init[j] == y;
        }
      }
      DistinctCard(init, t - {last});
    } else {
      assert forall y :: y !in t;
      assert t == {};
    }
  }

  /** `_devices_for_ui`: the four platform lists of the panel. */
  method DevicesForUi(gatewayPayload: map<string, Value>) returns (devices: map<string, seq<map<string, Value>>>)
    ensures devices.Keys == ConfigPlatforms
    ensures forall p :: p in ConfigPlatforms ==> ListsDevices(devices[p], p, PlatformDicts(gatewayPayload, p))
  {
    devices := map[];
    var platforms := [LightPlatform, CoverPlatform, ClimatePlatform, SensorPlatform];
    var i := 0;
    while i < |platforms|
      invariant 0 <= i <= |platforms|
      invariant devices.Keys == set j | 0 <= j < i :: platforms[j]
      invariant forall p :: p in devices ==> ListsDevices(devices[p], p, PlatformDicts(gatewayPayload, p))
    {
      var rows := PlatformRows(platforms[i], PlatformDicts(gatewayPayload, platforms[i]));
      devices := devices[platforms[i] := rows];
      i := i + 1;
    }
    assert devices.Keys == {platforms[0], platforms[1], platforms[2], platforms[3]};
  }

  // ---------------------------------------------------------------------------
  // Editing a gateway's stored configuration (the upsert, delete and import views)
  // ---------------------------------------------------------------------------

  /** The devices of a platform section, when the section is a dictionary. */
  function PlatformEntries(gatewayPayload: map<string, Value>, platform: string): map<string, Value>
  {
    if platform in gatewayPayload && gatewayPayload[platform].Dict? then gatewayPayload[platform].entries else map[]
  }

  /** The key of an upserted device: the given key when it is not blank,
      else `manual_<platform>_<address>`, sanitised either way. */
  function UpsertKey(provided: Value, platform: string, address: string): (key: string)
    ensures CleanKey(key)
    ensures provided.Null? ==> key == SanitizeKey("manual_" + platform + "_" + address)
  {
    var raw := if !provided.Null? && Strip(ToStr(provided)) != "" then Strip(ToStr(provided))
               else "manual_" + platform + "_" + address;
    SanitizeKey(raw)
  }

  /** A key the caller already sanitised is used as it is. */
  lemma UpsertKeyKeepsCleanKey(key: string, platform: string, address: string)
    requires CleanKey(key)
    ensures UpsertKey(Str(key), platform, address) == key
  {
    StripNoSpace(key);
    SanitizeKeyOfClean(key);
  }

  /** The delete view's request: a known platform and a non-blank key. */
  function DeleteRequest(request: map<string, Value>): (r: Result<(string, string), string>)
    ensures r.Success? <==> Lower(FieldText(request, "platform")) in ConfigPlatforms && FieldText(request, "key") != ""
    ensures r.Success? ==> r.value == (Lower(FieldText(request, "platform")), FieldText(request, "key"))
  {
    var platform := Lower(FieldText(request, "platform"));
    var key := FieldText(request, "key");
    if platform !in ConfigPlatforms || key == "" then Failure("Both `platform` and `key` are required.")
    else Success((platform, key))
  }

  /** The payload after deleting `key` from `platform`: the device is gone,
      the section is dropped once empty, and nothing else changes. */
  function DeleteDevice(gatewayPayload: map<string, Value>, platform: string, key: string): (r: map<string, Value>)
    ensures key !in PlatformEntries(r, platform)
    ensures forall p :: p != platform && p in gatewayPayload ==> p in r && r[p] == gatewayPayload[p]
    ensures forall p :: p in r ==> p in gatewayPayload
    ensures forall k :: k in PlatformEntries(gatewayPayload, platform) && k != key ==>
              k in PlatformEntries(r, platform) &&
              PlatformEntries(r, platform)[k] == PlatformEntries(gatewayPayload, platform)[k]
    ensures platform in gatewayPayload && gatewayPayload[platform].Dict? ==>
              (platform !in r <==> gatewayPayload[platform].entries.Keys <= {key})
    ensures platform in gatewayPayload && !gatewayPayload[platform].Dict? ==> r == gatewayPayload
  {
    if platform in gatewayPayload && gatewayPayload[platform].Dict? then
      var entries := gatewayPayload[platform].entries - {key};
      if |entries| == 0 then
        assert entries.Keys == {};
        gatewayPayload - {platform}
      else
        gatewayPayload[platform := Dict(entries)]
    else gatewayPayload
  }

  /** The section a discovered kind is imported into. */
  function PlatformOf(k: DiscoveryKind): string
  {
    match k
    case Light => LightPlatform
    case Cover => CoverPlatform
    case Climate => ClimatePlatform
    case Power => SensorPlatform
  }

  /** The device an imported address becomes. */
  function DiscoveredDevice(k: DiscoveryKind, w: string): Value
  {
    match k
    case Light => Dict(map["where" := Str(w), "name" := Str("Light " + w), "dimmable" := Bool(false)])
    case Cover => Dict(map["where" := Str(w), "name" := Str("Cover " + w)])
    case Climate => Dict(map["zone" := Str(w), "name" := Str("Climate " + w), "heat" := Bool(true),
                             "cool" := Bool(true), "fan" := Bool(true), "standalone" := Bool(true)])
    case Power => Dict(map["where" := Str(w), "name" := Str("Power " + w), "class" := Str("power")])
  }

  /** A section after adding `(key, device)` pairs in order, each one only
      when its key is not taken yet. */
  function AddMissing(base: map<string, Value>, pairs: seq<(string, Value)>): (r: map<string, Value>)
    ensures forall key :: key in base ==> key in r && r[key] == base[key]
  {
    if |pairs| == 0 then base
    else
      var prev := AddMissing(base, pairs[..|pairs| - 1]);
      var (key, device) := pairs[|pairs| - 1];
      if key in prev then prev else prev[key := device]
  }

  lemma AddMissingStep(base: map<string, Value>, pairs: seq<(string, Value)>, i: nat)
    requires i < |pairs|
    ensures var prev := AddMissing(base, pairs[..i]);
            AddMissing(base, pairs[..i + 1]) == if pairs[i].0 in prev then prev else prev[pairs[i].0 := pairs[i].1]
  {
    assert pairs[..i + 1][..i] == pairs[..i];
  }

  /** The keys after adding are the keys before and the keys of the pairs, and no others. */
  lemma {:induction false} AddMissingKeys(base: map<string, Value>, pairs: seq<(string, Value)>)
    ensures forall key :: key in AddMissing(base, pairs) <==>
              key in base || exists i :: 0 <= i < |pairs| && pairs[i].0 == key
  {
    if |pairs| > 0 {
      var front := pairs[..|pairs| - 1];
      AddMissingKeys(base, front);
      assert forall i :: 0 <= i < |front| ==> front[i] == pairs[i];
    }
  }

  /** A key that was free gets the device of the first pair carrying it. */
  lemma {:induction false} AddMissingFirstWins(base: map<string, Value>, pairs: seq<(string, Value)>, i: nat)
    requires i < |pairs| && pairs[i].0 !in base
    requires forall j :: 0 <= j < i ==> pairs[j].0 != pairs[i].0
    ensures pairs[i].0 in AddMissing(base, pairs)
    ensures AddMissing(base, pairs)[pairs[i].0] == pairs[i].1
  {
    var front := pairs[..|pairs| - 1];
    if i < |pairs| - 1 {
      AddMissingFirstWins(base, front, i);
    } else {
      AddMissingKeys(base, front);
      assert forall j :: 0 <= j < |front| ==> front[j] == pairs[j];
    }
  }

  /** Adding pairs whose keys are all present changes nothing. */
  lemma {:induction false} AddMissingOfPresent(m: map<string, Value>, pairs: seq<(string, Value)>)
    requires forall i :: 0 <= i < |pairs| ==> pairs[i].0 in m
    ensures AddMissing(m, pairs) == m
  {
    if |pairs| > 0 {
      var front := pairs[..|pairs| - 1];
      assert forall i :: 0 <= i < |front| ==> front[i] == pairs[i];
      AddMissingOfPresent(m, front);
    }
  }

  /** Adding the same pairs twice adds nothing the second time. */
  lemma AddMissingIdempotent(base: map<string, Value>, pairs: seq<(string, Value)>)
    ensures AddMissing(AddMissing(base, pairs), pairs) == AddMissing(base, pairs)
  {
    AddMissingKeys(base, pairs);
    AddMissingOfPresent(AddMissing(base, pairs), pairs);
  }

  /** The key and the device each discovered address is imported as. */
  function DiscoveredPairs(k: DiscoveryKind, items: seq<string>): (pairs: seq<(string, Value)>)
    ensures |pairs| == |items|
  {
    seq(|items|, i requires 0 <= i < |items| => (DiscoveredKey(KindName(k), items[i]), DiscoveredDevice(k, items[i])))
  }

  /** A section after importing `items` in order: each address is added under
      its discovered key unless that key is already taken. */
  function ImportEntries(base: map<string, Value>, k: DiscoveryKind, items: seq<string>): map<string, Value>
  {
    AddMissing(base, DiscoveredPairs(k, items))
  }

  /** The keys after an import are the keys before it and the discovered keys
      of the imported addresses, and no others. */
  lemma ImportedKeys(base: map<string, Value>, k: DiscoveryKind, items: seq<string>)
    ensures forall key :: key in ImportEntries(base, k, items) <==>
              key in base || exists i :: 0 <= i < |items| && key == DiscoveredKey(KindName(k), items[i])
  {
    var pairs := DiscoveredPairs(k, items);
    AddMissingKeys(base, pairs);
    forall key
      ensures key in ImportEntries(base, k, items) <==>
              key in base || exists i :: 0 <= i < |items| && key == DiscoveredKey(KindName(k), items[i])
    {
      if exists i :: 0 <= i < |pairs| && pairs[i].0 == key {
        var i :| 0 <= i < |pairs| && pairs[i].0 == key;
        assert key == DiscoveredKey(KindName(k), items[i]);
      }
      if exists i :: 0 <= i < |items| && key == DiscoveredKey(KindName(k), items[i]) {
        var i :| 0 <= i < |items| && key == DiscoveredKey(KindName(k), items[i]);
        assert pairs[i].0 == key;
      }
    }
  }

  /** How many devices an import adds to a section: the keys it did not have. */
  function ImportCount(base: map<string, Value>, k: DiscoveryKind, items: seq<string>): (n: nat)
    ensures n + |base.Keys| == |ImportEntries(base, k, items).Keys|
    ensures n <= |items|
  {
    var after := ImportEntries(base, k, items).Keys;
    ImportedKeysSubset(base, k, items);
    assert after == base.Keys + (after - base.Keys);
    ImportedNewKeys(base, k, items);
    |after - base.Keys|
  }

  lemma ImportedKeysSubset(base: map<string, Value>, k: DiscoveryKind, items: seq<string>)
    ensures base.Keys <= ImportEntries(base, k, items).Keys
  {
    forall key | key in base ensures key in ImportEntries(base, k, items) {
      ImportEntriesKeep(base, k, items, key);
    }
  }

  /** The new keys are discovered keys of the imported addresses, so there
      are no more of them than addresses. */
  lemma ImportedNewKeys(base: map<string, Value>, k: DiscoveryKind, items: seq<string>)
    ensures |ImportEntries(base, k, items).Keys - base.Keys| <= |items|
  {
    var added := ImportEntries(base, k, items).Keys - base.Keys;
    var keys := seq(|items|, i requires 0 <= i < |items| => DiscoveredKey(KindName(k), items[i]));
    var named := set x | x in keys;
    assert added <= named by {
      forall key | key in added ensures key in named {
        ImportedKeys(base, k, items);
        assert exists i :: 0 <= i < |items| && key == DiscoveredKey(KindName(k), items[i]);
        var i :| 0 <= i < |items| && key == DiscoveredKey(KindName(k), items[i]);
        assert keys[i] == key;
      }
    }
    SeqSetCard(keys);
    SubsetCard(added, named);
  }

  /** A sequence has at least as many elements as the set of its elements. */
  lemma {:induction false} SeqSetCard(xs: seq<string>)
    ensures |set x | x in xs| <= |xs|
    decreases |xs|
  {
    if |xs| > 0 {
      var front := xs[..|xs| - 1];
      SeqSetCard(front);
      assert (set x | x in xs) == (set x | x in front) + {xs[|xs| - 1]} by {
        assert xs == front + [xs[|xs| - 1]];
      }
    }
  }

  /** A subset has no more elements than its superset. */
  lemma {:induction false} SubsetCard(a: set<string>, b: set<string>)
    requires a <= b
    ensures |a| <= |b|
    decreases |b|
  {
    if b != {} {
      var x :| x in b;
      SubsetCard(a - {x}, b - {x});
    }
  }

  /** Importing the same addresses twice adds nothing the second time. */
  lemma ImportIdempotent(base: map<string, Value>, k: DiscoveryKind, items: seq<string>)
    ensures ImportEntries(ImportEntries(base, k, items), k, items) == ImportEntries(base, k, items)
  {
    AddMissingIdempotent(base, DiscoveredPairs(k, items));
  }

  /** The loop of the import view over one kind's addresses, adding each
      address whose key is free to the section; returns how many it added. */
  method ImportInto(base: map<string, Value>, k: DiscoveryKind, items: seq<string>)
      returns (entries: map<string, Value>, added: nat)
    ensures entries == ImportEntries(base, k, items)
    ensures added + |base.Keys| == |entries.Keys|
    ensures added == ImportCount(base, k, items)
  {
    ghost var pairs := DiscoveredPairs(k, items);
    entries := base;
    added := 0;
    var i := 0;
    while i < |items|
      invariant 0 <= i <= |items|
      invariant entries == AddMissing(base, pairs[..i])
      invariant added + |base.Keys| == |entries.Keys|
    {
      var key := DiscoveredKey(KindName(k), items[i]);
      AddMissingStep(base, pairs, i);
      assert pairs[i] == (key, DiscoveredDevice(k, items[i]));
      if key !in entries {
        entries := entries[key := DiscoveredDevice(k, items[i])];
        added := added + 1;
      }
      i := i + 1;
    }
    assert pairs[..i] == pairs;
  }

  /** The payload after importing one kind's addresses: the section is
      (re)created as a dictionary only when there is something to import. */
  function ApplyImport(gatewayPayload: map<string, Value>, k: DiscoveryKind, items: seq<string>): map<string, Value>
  {
    if |items| == 0 then gatewayPayload
    else gatewayPayload[PlatformOf(k) := Dict(ImportEntries(PlatformEntries(gatewayPayload, PlatformOf(k)), k, items))]
  }

  /** The payload with the sections of `platforms` dropped where they are empty dictionaries. */
  function PruneSections(gatewayPayload: map<string, Value>, platforms: seq<string>): (r: map<string, Value>)
    ensures forall p :: p in r <==> p in gatewayPayload && !(p in platforms && gatewayPayload[p] == Dict(map[]))
    ensures forall p :: p in r ==> r[p] == gatewayPayload[p]
  {
    if |platforms| == 0 then gatewayPayload
    else
      var prev := PruneSections(gatewayPayload, platforms[..|platforms| - 1]);
      var p := platforms[|platforms| - 1];
      assert forall q :: q in platforms <==> q in platforms[..|platforms| - 1] || q == p;
      if p in prev && prev[p] == Dict(map[]) then prev - {p} else prev
  }

  lemma PruneSectionsStep(gatewayPayload: map<string, Value>, platforms: seq<string>, i: nat)
    requires i < |platforms|
    ensures var prev := PruneSections(gatewayPayload, platforms[..i]);
            var p := platforms[i];
            PruneSections(gatewayPayload, platforms[..i + 1]) ==
              if p in prev && prev[p] == Dict(map[]) then prev - {p} else prev
  {
    assert platforms[..i + 1][..i] == platforms[..i];
  }

  /** The payload without empty platform sections. */
  function PruneEmpty(gatewayPayload: map<string, Value>): (r: map<string, Value>)
    ensures forall p :: p in r <==> p in gatewayPayload && !(p in ConfigPlatforms && gatewayPayload[p] == Dict(map[]))
    ensures forall p :: p in r ==> r[p] == gatewayPayload[p]
  {
    var platforms := [LightPlatform, CoverPlatform, ClimatePlatform, SensorPlatform];
    assert forall q :: q in platforms <==> q in ConfigPlatforms;
    PruneSections(gatewayPayload, platforms)
  }

  /** The whole import: lights, covers, climate zones and power meters in
      this order, then empty sections dropped. */
  function ImportPayload(gatewayPayload: map<string, Value>, lights: seq<string>, covers: seq<string>,
                         climates: seq<string>, powers: seq<string>): map<string, Value>
  {
    PruneEmpty(ApplyImport(ApplyImport(ApplyImport(ApplyImport(gatewayPayload, Light, lights), Cover, covers),
                                       Climate, climates), Power, powers))
  }

  lemma ApplyImportKeeps(gatewayPayload: map<string, Value>, k: DiscoveryKind, items: seq<string>, p: string, key: string)
    requires key in PlatformEntries(gatewayPayload, p)
    ensures key in PlatformEntries(ApplyImport(gatewayPayload, k, items), p)
    ensures PlatformEntries(ApplyImport(gatewayPayload, k, items), p)[key] == PlatformEntries(gatewayPayload, p)[key]
  {
    if |items| > 0 {
      var q := PlatformOf(k);
      var base := PlatformEntries(gatewayPayload, q);
      if q == p {
        ImportEntriesKeep(base, k, items, key);
      }
      SectionUpdateKeeps(gatewayPayload, q, ImportEntries(base, k, items), p, key);
    }
  }

  /** Importing one kind leaves every other section as it was. */
  lemma ApplyImportOtherSection(gatewayPayload: map<string, Value>, k: DiscoveryKind, items: seq<string>, p: string)
    requires p != PlatformOf(k)
    ensures PlatformEntries(ApplyImport(gatewayPayload, k, items), p) == PlatformEntries(gatewayPayload, p)
  {
  }

  /** During the whole import, each kind still finds its section as it was
      before the import began. */
  lemma ImportSectionsApart(p0: map<string, Value>, p1: map<string, Value>, p2: map<string, Value>,
                            p3: map<string, Value>, lights: seq<string>, covers: seq<string>, climates: seq<string>)
    requires p1 == ApplyImport(p0, Light, lights)
    requires p2 == ApplyImport(p1, Cover, covers)
    requires p3 == ApplyImport(p2, Climate, climates)
    ensures PlatformEntries(p0, PlatformOf(Light)) == PlatformEntries(p0, LightPlatform)
    ensures PlatformEntries(p1, PlatformOf(Cover)) == PlatformEntries(p0, CoverPlatform)
    ensures PlatformEntries(p2, PlatformOf(Climate)) == PlatformEntries(p0, ClimatePlatform)
    ensures PlatformEntries(p3, PlatformOf(Power)) == PlatformEntries(p0, SensorPlatform)
  {
    ApplyImportOtherSection(p0, Light, lights, CoverPlatform);
    ApplyImportOtherSection(p0, Light, lights, ClimatePlatform);
    ApplyImportOtherSection(p0, Light, lights, SensorPlatform);
    ApplyImportOtherSection(p1, Cover, covers, ClimatePlatform);
    ApplyImportOtherSection(p1, Cover, covers, SensorPlatform);
    ApplyImportOtherSection(p2, Climate, climates, SensorPlatform);
  }

  /** Replacing one section keeps an entry of another section, and of the
      same section when the new entries keep it. */
  lemma SectionUpdateKeeps(gatewayPayload: map<string, Value>, q: string, entries: map<string, Value>,
                           p: string, key: string)
    requires key in PlatformEntries(gatewayPayload, p)
    requires q == p ==> key in entries && entries[key] == PlatformEntries(gatewayPayload, p)[key]
    ensures key in PlatformEntries(gatewayPayload[q := Dict(entries)], p)
    ensures PlatformEntries(gatewayPayload[q := Dict(entries)], p)[key] == PlatformEntries(gatewayPayload, p)[key]
  {
  }

  lemma ImportEntriesKeep(base: map<string, Value>, k: DiscoveryKind, items: seq<string>, key: string)
    requires key in base
    ensures key in ImportEntries(base, k, items) && ImportEntries(base, k, items)[key] == base[key]
  {
    var pairs := DiscoveredPairs(k, items);
    assert key in AddMissing(base, pairs);
  }

  /** An import never overwrites or removes a device that was configured. */
  lemma ImportKeepsExisting(gatewayPayload: map<string, Value>, lights: seq<string>, covers: seq<string>,
                            climates: seq<string>, powers: seq<string>, p: string, key: string)
    requires key in PlatformEntries(gatewayPayload, p)
    ensures var r := ImportPayload(gatewayPayload, lights, covers, climates, powers);
            key in PlatformEntries(r, p) && PlatformEntries(r, p)[key] == PlatformEntries(gatewayPayload, p)[key]
  {
    var p1 := ApplyImport(gatewayPayload, Light, lights);
    ApplyImportKeeps(gatewayPayload, Light, lights, p, key);
    var p2 := ApplyImport(p1, Cover, covers);
    ApplyImportKeeps(p1, Cover, covers, p, key);
    var p3 := ApplyImport(p2, Climate, climates);
    ApplyImportKeeps(p2, Climate, climates, p, key);
    var p4 := ApplyImport(p3, Power, powers);
    ApplyImportKeeps(p3, Power, powers, p, key);
    assert p4[p] != Dict(map[]) by {
      assert key in p4[p].entries;
    }
  }

  /** How many devices each kind added. */
  datatype ImportCounts = ImportCounts(light: nat, cover: nat, climate: nat, power: nat)

  /** One gateway's configuration as the upsert, delete and import views edit
      it before saving it back. */
  class GatewayConfigDraft {
    var payload: map<string, Value>

    /** The stored configuration, or `{mac: gateway}` when none (or an empty one) is stored. */
    constructor(stored: Option<map<string, Value>>, gateway: string)
      ensures payload == if stored.Some? && stored.value != map[] then stored.value else map["mac" := Str(gateway)]
    {
      if stored.Some? && stored.value != map[] {
        payload := stored.value;
      } else {
        payload := map["mac" := Str(gateway)];
      }
    }

    /** The upsert view: the platform section is made a dictionary if it is
      not one, and the device is stored under `key`, replacing any device there. */
    method Upsert(platform: string, key: string, device: map<string, Value>)
      modifies this
      ensures payload == old(payload)[platform := Dict(PlatformEntries(old(payload), platform)[key := Dict(device)])]
    {
      if platform !in payload {
        payload := payload[platform := Dict(map[])];
      }
      if !payload[platform].Dict? {
        payload := payload[platform := Dict(map[])];
      }
      payload := payload[platform := Dict(payload[platform].entries[key := Dict(device)])];
    }

    /** The delete view's edit. */
    method Delete(platform: string, key: string)
      modifies this
      ensures payload == DeleteDevice(old(payload), platform, key)
    {
      var section := if platform in payload then payload[platform] else Dict(map[]);
      if section.Dict? {
        var entries := section.entries - {key};
        if |entries| == 0 {
          payload := payload - {platform};
        } else {
          payload := payload[platform := Dict(entries)];
        }
      }
    }

    /** One kind's step of the import view; returns how many devices it added. */
    method ImportKind(k: DiscoveryKind, items: seq<string>) returns (added: nat)
      modifies this
      ensures payload == ApplyImport(old(payload), k, items)
      ensures added == ImportCount(PlatformEntries(old(payload), PlatformOf(k)), k, items)
    {
      var platform := PlatformOf(k);
      added := 0;
      if |items| == 0 {
        assert ImportEntries(PlatformEntries(payload, platform), k, items) == PlatformEntries(payload, platform);
        return;
      }
      var entries;
      entries, added := ImportInto(PlatformEntries(payload, platform), k, items);
      payload := payload[platform := Dict(entries)];
    }

    /** The import view's last step: drop every empty platform section. */
    method PruneEmptyPlatforms()
      modifies this
      ensures payload == PruneEmpty(old(payload))
    {
      var platforms := [LightPlatform, CoverPlatform, ClimatePlatform, SensorPlatform];
      var i := 0;
      while i < |platforms|
        invariant 0 <= i <= |platforms|
        invariant payload == PruneSections(old(payload), platforms[..i])
      {
        var p := platforms[i];
        PruneSectionsStep(old(payload), platforms, i);
        if p in payload && payload[p].Dict? && |payload[p].entries| == 0 {
          assert payload[p] == Dict(map[]);
          payload := payload - {p};
        }
        i := i + 1;
      }
      assert platforms[..i] == platforms;
    }

    /** The import view: each kind in turn, then the clean-up. Each count is
        the number of devices that kind added to its section. */
    method ImportDiscovery(lights: seq<string>, covers: seq<string>, climates: seq<string>, powers: seq<string>)
        returns (imported: ImportCounts)
      modifies this
      ensures payload == ImportPayload(old(payload), lights, covers, climates, powers)
      ensures imported.light == ImportCount(PlatformEntries(old(payload), LightPlatform), Light, lights)
      ensures imported.cover == ImportCount(PlatformEntries(old(payload), CoverPlatform), Cover, covers)
      ensures imported.climate == ImportCount(PlatformEntries(old(payload), ClimatePlatform), Climate, climates)
      ensures imported.power == ImportCount(PlatformEntries(old(payload), SensorPlatform), Power, powers)
    {
      ghost var p0 := payload;
      var l := ImportKind(Light, lights);
      ghost var p1 := payload;
      var c := ImportKind(Cover, covers);
      ghost var p2 := payload;
      var cl := ImportKind(Climate, climates);
      ghost var p3 := payload;
      ImportSectionsApart(p0, p1, p2, p3, lights, covers, climates);
      var p := ImportKind(Power, powers);
      PruneEmptyPlatforms();
      imported := ImportCounts(l, c, cl, p);
    }
  }

  // ---------------------------------------------------------------------------
  // The panel's reference count (`async_setup_web` / `async_unload_web`)
  // ---------------------------------------------------------------------------

  class WebRuntime {
    var apiRegistered: bool
    var panelRegistered: bool
    var entryCount: nat

    constructor()
      ensures !apiRegistered && !panelRegistered && entryCount == 0
    {
      apiRegistered := false;
      panelRegistered := false;
      entryCount := 0;
    }

    /** Setting up an entry registers the views and the panel once and counts the entry. */
    method SetupWeb()
      modifies this
      ensures apiRegistered && panelRegistered && entryCount == old(entryCount) + 1
    {
      if !apiRegistered {
        apiRegistered := true;
      }
      entryCount := entryCount + 1;
      if panelRegistered {
        return;
      }
      panelRegistered := true;
    }

    /** Unloading an entry never takes the count below zero and removes the
        panel when the last entry goes. */
    method UnloadWeb()
      modifies this
      ensures entryCount == if old(entryCount) > 0 then old(entryCount) - 1 else 0
      ensures panelRegistered == (old(panelRegistered) && entryCount != 0)
      ensures apiRegistered == old(apiRegistered)
    {
      entryCount := if entryCount > 0 then entryCount - 1 else 0;
      if entryCount != 0 || !panelRegistered {
        return;
      }
      panelRegistered := false;
    }
  }
}
