/** The integration's set-up logic (custom_components/myhome/__init__.py):
    the discovery suggestions the `discover_devices` service logs, the
    unique ids the configuration expects, the registry pruning that drops
    entities and devices the configuration no longer has, and the choice of
    gateway a service call addresses. */
module Integration {
  import opened Wrappers
  import opened Strings

  // ---------------------------------------------------------------------------
  // Discovery suggestions (`_build_suggestion_lines`)
  // ---------------------------------------------------------------------------

  /** `- <field>=<address> (suggested key: discovered_<kind>_<address>)`. */
  function SuggestionLine(field: string, kind: string, address: string): string
  {
    "- " + field + "=" + address + " (suggested key: discovered_" + kind + "_" + address + ")"
  }

  function SuggestionItems(field: string, kind: string, items: seq<string>): (r: seq<string>)
    ensures |r| == |items|
    ensures forall i :: 0 <= i < |items| ==> r[i] == SuggestionLine(field, kind, items[i])
  {
    if |items| == 0 then [] else SuggestionItems(field, kind, items[..|items| - 1]) + [SuggestionLine(field, kind, items[|items| - 1])]
  }

  /** One kind's block: nothing for no results, else the header and a line per result. */
  function SuggestionSection(header: string, field: string, kind: string, items: seq<string>): seq<string>
  {
    if |items| == 0 then [] else [header] + SuggestionItems(field, kind, items)
  }

  /** The suggestions for the four kinds, in the order light, cover, climate, power. */
  function Suggestions(lights: seq<string>, covers: seq<string>, climates: seq<string>, powers: seq<string>): seq<string>
  {
    SuggestionSection("Light:", "where", "light", lights) + SuggestionSection("Cover:", "where", "cover", covers)
      + SuggestionSection("Climate:", "zone", "climate", climates)
      + SuggestionSection("Power sensor:", "where", "power", powers)
  }

  /** A header line: every result line starts with `-`, no header does. */
  predicate IsHeader(line: string)
  {
    |line| == 0 || line[0] != '-'
  }

  function Headers(lines: seq<string>): seq<string>
  {
    if |lines| == 0 then [] else Headers(lines[..|lines| - 1]) + (if IsHeader(lines[|lines| - 1]) then [lines[|lines| - 1]] else [])
  }

  lemma {:induction false} HeadersAppend(a: seq<string>, b: seq<string>)
    ensures Headers(a + b) == Headers(a) + Headers(b)
  {
    if |b| > 0 {
      assert (a + b)[..|a + b| - 1] == a + b[..|b| - 1];
      HeadersAppend(a, b[..|b| - 1]);
    } else {
      assert a + b == a;
    }
  }

  lemma {:induction false} HeadersOfItems(field: string, kind: string, items: seq<string>)
    ensures Headers(SuggestionItems(field, kind, items)) == []
  {
    if |items| > 0 {
      HeadersOfItems(field, kind, items[..|items| - 1]);
      assert SuggestionLine(field, kind, items[|items| - 1])[0] == '-';
    }
  }

  lemma HeadersOfSection(header: string, field: string, kind: string, items: seq<string>)
    requires IsHeader(header)
    ensures Headers(SuggestionSection(header, field, kind, items)) == if |items| == 0 then [] else [header]
  {
    if |items| > 0 {
      HeadersAppend([header], SuggestionItems(field, kind, items));
      HeadersOfItems(field, kind, items);
      assert Headers([header]) == [header] by {
        assert [header][..0] == [];
      }
    }
  }

  function HeaderIf(header: string, items: seq<string>): seq<string>
  {
    if |items| == 0 then [] else [header]
  }

  /** The headers appear exactly for the kinds that have results, in the
      order Light, Cover, Climate, Power sensor. */
  lemma SuggestionHeaders(lights: seq<string>, covers: seq<string>, climates: seq<string>, powers: seq<string>)
    ensures Headers(Suggestions(lights, covers, climates, powers)) ==
            HeaderIf("Light:", lights) + HeaderIf("Cover:", covers) + HeaderIf("Climate:", climates)
              + HeaderIf("Power sensor:", powers)
  {
    var l := SuggestionSection("Light:", "where", "light", lights);
    var c := SuggestionSection("Cover:", "where", "cover", covers);
    var z := SuggestionSection("Climate:", "zone", "climate", climates);
    var p := SuggestionSection("Power sensor:", "where", "power", powers);
    HeadersOfSection("Light:", "where", "light", lights);
    HeadersOfSection("Cover:", "where", "cover", covers);
    HeadersOfSection("Climate:", "zone", "climate", climates);
    HeadersOfSection("Power sensor:", "where", "power", powers);
    HeadersAppend(l, c);
    HeadersAppend(l + c, z);
    HeadersAppend(l + c + z, p);
  }

  /** No suggestions at all exactly when nothing was found; otherwise one
      header per kind with results and one line per result. */
  lemma SuggestionCount(lights: seq<string>, covers: seq<string>, climates: seq<string>, powers: seq<string>)
    ensures |Suggestions(lights, covers, climates, powers)| ==
            |HeaderIf("Light:", lights)| + |lights| + |HeaderIf("Cover:", covers)| + |covers|
              + |HeaderIf("Climate:", climates)| + |climates| + |HeaderIf("Power sensor:", powers)| + |powers|
    ensures Suggestions(lights, covers, climates, powers) == [] <==> lights == [] && covers == [] && climates == [] && powers == []
  {
  }

  lemma SectionMentions(header: string, field: string, kind: string, items: seq<string>)
    ensures forall w :: w in items ==> SuggestionLine(field, kind, w) in SuggestionSection(header, field, kind, items)
  {
    forall w | w in items ensures SuggestionLine(field, kind, w) in SuggestionSection(header, field, kind, items) {
      var i :| 0 <= i < |items| && items[i] == w;
      assert SuggestionSection(header, field, kind, items)[i + 1] == SuggestionLine(field, kind, w);
    }
  }

  /** Every result has its line, naming its suggested key. */
  lemma SuggestionMentionsEveryResult(lights: seq<string>, covers: seq<string>, climates: seq<string>, powers: seq<string>)
    ensures forall w :: w in lights ==> SuggestionLine("where", "light", w) in Suggestions(lights, covers, climates, powers)
    ensures forall w :: w in covers ==> SuggestionLine("where", "cover", w) in Suggestions(lights, covers, climates, powers)
    ensures forall z :: z in climates ==> SuggestionLine("zone", "climate", z) in Suggestions(lights, covers, climates, powers)
    ensures forall w :: w in powers ==> SuggestionLine("where", "power", w) in Suggestions(lights, covers, climates, powers)
  {
    SectionMentions("Light:", "where", "light", lights);
    SectionMentions("Cover:", "where", "cover", covers);
    SectionMentions("Climate:", "zone", "climate", climates);
    SectionMentions("Power sensor:", "where", "power", powers);
  }

  /** One `if results:` block of `_build_suggestion_lines`. */
  method AppendSuggestions(lines: seq<string>, header: string, field: string, kind: string, items: seq<string>)
      returns (out: seq<string>)
    ensures out == lines + SuggestionSection(header, field, kind, items)
  {
    out := lines;
    if |items| == 0 {
      return;
    }
    out := out + [header];
    var i := 0;
    while i < |items|
      invariant 0 <= i <= |items|
      invariant out == lines + [header] + SuggestionItems(field, kind, items[..i])
    {
      assert items[..i + 1][..i] == items[..i];
      AppendAssoc(lines + [header], SuggestionItems(field, kind, items[..i]), [SuggestionLine(field, kind, items[i])]);
      out := out + [SuggestionLine(field, kind, items[i])];
      i := i + 1;
    }
    assert items[..i] == items;
    AppendAssoc(lines, [header], SuggestionItems(field, kind, items));
  }

  /** `_build_suggestion_lines` (climate and power results default to none). */
  method BuildSuggestionLines(lights: seq<string>, covers: seq<string>, climates: seq<string>, powers: seq<string>)
      returns (lines: seq<string>)
    ensures lines == Suggestions(lights, covers, climates, powers)
  {
    lines := AppendSuggestions([], "Light:", "where", "light", lights);
    assert lines == SuggestionSection("Light:", "where", "light", lights);
    lines := AppendSuggestions(lines, "Cover:", "where", "cover", covers);
    lines := AppendSuggestions(lines, "Climate:", "zone", "climate", climates);
    lines := AppendSuggestions(lines, "Power sensor:", "where", "power", powers);
  }

  // ---------------------------------------------------------------------------
  // Expected unique ids and registry pruning (`async_setup_entry`)
  // ---------------------------------------------------------------------------

  /** A configured device: its key and the names of its entities, in order. */
  datatype DeviceConfig = DeviceConfig(device: string, entities: seq<string>)

  /** A platform's configured devices, in the configuration's order. */
  datatype PlatformConfig = PlatformConfig(platform: string, devices: seq<DeviceConfig>)

  /** The unique id an entity gets: `<mac>-<device>` for the entity named
      like its platform, `<mac>-<device>-<entity>` otherwise. */
  function UniqueId(mac: string, platform: string, device: string, entity: string): (u: string)
    ensures |u| > |mac| + |device| && u[..|mac|] == mac && u[|mac|] == '-'
    ensures u[|mac| + 1..|mac| + 1 + |device|] == device
    ensures entity == platform <==> |u| == |mac| + 1 + |device|
    ensures entity != platform ==> u[|mac| + 1 + |device|..] == "-" + entity
  {
    if entity != platform then mac + "-" + device + "-" + entity else mac + "-" + device
  }

  function DeviceIds(mac: string, platform: string, d: DeviceConfig): (r: seq<string>)
    ensures |r| == |d.entities|
    ensures forall i :: 0 <= i < |r| ==> r[i] == UniqueId(mac, platform, d.device, d.entities[i])
  {
    seq(|d.entities|, i requires 0 <= i < |d.entities| => UniqueId(mac, platform, d.device, d.entities[i]))
  }

  function PlatformIds(mac: string, p: PlatformConfig, n: nat): seq<string>
    requires n <= |p.devices|
  {
    if n == 0 then [] else PlatformIds(mac, p, n - 1) + DeviceIds(mac, p.platform, p.devices[n - 1])
  }

  /** `configured_entities`: every entity's unique id, platform by platform,
      device by device. */
  function ExpectedIds(mac: string, platforms: seq<PlatformConfig>): seq<string>
  {
    if |platforms| == 0 then []
    else ExpectedIds(mac, platforms[..|platforms| - 1])
           + PlatformIds(mac, platforms[|platforms| - 1], |platforms[|platforms| - 1].devices|)
  }

  predicate Configures(platforms: seq<PlatformConfig>, platform: string, device: string, entity: string)
  {
    exists i, j :: 0 <= i < |platforms| && 0 <= j < |platforms[i].devices| &&
                   platforms[i].platform == platform && platforms[i].devices[j].device == device &&
                   entity in platforms[i].devices[j].entities
  }

  /** `u` is the id of an entity of one of the first `n` devices of `p`. */
  predicate AmongDevices(mac: string, p: PlatformConfig, n: nat, u: string)
    requires n <= |p.devices|
  {
    exists j, e :: 0 <= j < n && e in p.devices[j].entities && u == UniqueId(mac, p.platform, p.devices[j].device, e)
  }

  /** `u` is the id of some configured entity. */
  ghost predicate IdConfigured(mac: string, platforms: seq<PlatformConfig>, u: string)
  {
    exists p, d, e :: Configures(platforms, p, d, e) && u == UniqueId(mac, p, d, e)
  }

  lemma DeviceIdsMembers(mac: string, platform: string, d: DeviceConfig, u: string)
    ensures u in DeviceIds(mac, platform, d) <==> exists e :: e in d.entities && u == UniqueId(mac, platform, d.device, e)
  {
    if u in DeviceIds(mac, platform, d) {
      var i :| 0 <= i < |d.entities| && DeviceIds(mac, platform, d)[i] == u;
      assert d.entities[i] in d.entities;
    }
    if e :| e in d.entities && u == UniqueId(mac, platform, d.device, e) {
      var i :| 0 <= i < |d.entities| && d.entities[i] == e;
      assert DeviceIds(mac, platform, d)[i] == u;
    }
  }

  lemma {:induction false} PlatformIdsMembers(mac: string, p: PlatformConfig, n: nat)
    requires n <= |p.devices|
    ensures forall u :: u in PlatformIds(mac, p, n) <==> AmongDevices(mac, p, n, u)
  {
    if n > 0 {
      PlatformIdsMembers(mac, p, n - 1);
      var d := p.devices[n - 1];
      forall u ensures u in PlatformIds(mac, p, n) <==> AmongDevices(mac, p, n, u) {
        DeviceIdsMembers(mac, p.platform, d, u);
        if AmongDevices(mac, p, n, u) {
          var j, e :| 0 <= j < n && e in p.devices[j].entities && u == UniqueId(mac, p.platform, p.devices[j].device, e);
          if j < n - 1 {
            assert AmongDevices(mac, p, n - 1, u);
          }
        }
        if AmongDevices(mac, p, n - 1, u) {
          var j, e :| 0 <= j < n - 1 && e in p.devices[j].entities && u == UniqueId(mac, p.platform, p.devices[j].device, e);
          assert AmongDevices(mac, p, n, u);
        }
      }
    }
  }

  /** A configured id comes from the platforms before the last one or from the last one. */
  lemma IdConfiguredSplit(mac: string, platforms: seq<PlatformConfig>, u: string)
    requires |platforms| > 0
    ensures var last := platforms[|platforms| - 1];
            IdConfigured(mac, platforms, u) <==>
              IdConfigured(mac, platforms[..|platforms| - 1], u) || AmongDevices(mac, last, |last.devices|, u)
  {
    var last := platforms[|platforms| - 1];
    if AmongDevices(mac, last, |last.devices|, u) {
      IdOfLastConfigured(mac, platforms, u);
    }
    if IdConfigured(mac, platforms[..|platforms| - 1], u) {
      IdOfFrontConfigured(mac, platforms, u);
    }
    if IdConfigured(mac, platforms, u) {
      IdConfiguredFrontOrLast(mac, platforms, u);
    }
  }

  lemma IdOfLastConfigured(mac: string, platforms: seq<PlatformConfig>, u: string)
    requires |platforms| > 0
    requires var last := platforms[|platforms| - 1]; AmongDevices(mac, last, |last.devices|, u)
    ensures IdConfigured(mac, platforms, u)
  {
    var last := platforms[|platforms| - 1];
    var j, e :| 0 <= j < |last.devices| && e in last.devices[j].entities &&
                u == UniqueId(mac, last.platform, last.devices[j].device, e);
    assert Configures(platforms, last.platform, last.devices[j].device, e);
  }

  lemma IdOfFrontConfigured(mac: string, platforms: seq<PlatformConfig>, u: string)
    requires |platforms| > 0
    requires IdConfigured(mac, platforms[..|platforms| - 1], u)
    ensures IdConfigured(mac, platforms, u)
  {
    var front := platforms[..|platforms| - 1];
    var p, d, e :| Configures(front, p, d, e) && u == UniqueId(mac, p, d, e);
    var i, j :| 0 <= i < |front| && 0 <= j < |front[i].devices| && front[i].platform == p &&
                front[i].devices[j].device == d && e in front[i].devices[j].entities;
    assert platforms[i] == front[i];
    assert Configures(platforms, p, d, e);
  }

  lemma IdConfiguredFrontOrLast(mac: string, platforms: seq<PlatformConfig>, u: string)
    requires |platforms| > 0
    requires IdConfigured(mac, platforms, u)
    ensures var last := platforms[|platforms| - 1];
            IdConfigured(mac, platforms[..|platforms| - 1], u) || AmongDevices(mac, last, |last.devices|, u)
  {
    var front := platforms[..|platforms| - 1];
    var last := platforms[|platforms| - 1];
    var p, d, e :| Configures(platforms, p, d, e) && u == UniqueId(mac, p, d, e);
    var i, j :| 0 <= i < |platforms| && 0 <= j < |platforms[i].devices| && platforms[i].platform == p &&
                platforms[i].devices[j].device == d && e in platforms[i].devices[j].entities;
    if i < |front| {
      assert front[i] == platforms[i];
      assert Configures(front, p, d, e);
    } else {
      assert platforms[i] == last;
      assert AmongDevices(mac, last, |last.devices|, u);
    }
  }

  /** An id is expected exactly when some configured entity has it. */
  lemma {:induction false} ExpectedIdsMembers(mac: string, platforms: seq<PlatformConfig>)
    ensures forall u :: u in ExpectedIds(mac, platforms) <==> IdConfigured(mac, platforms, u)
  {
    if |platforms| > 0 {
      var front := platforms[..|platforms| - 1];
      var last := platforms[|platforms| - 1];
      ExpectedIdsMembers(mac, front);
      PlatformIdsMembers(mac, last, |last.devices|);
      forall u ensures u in ExpectedIds(mac, platforms) <==> IdConfigured(mac, platforms, u) {
        IdConfiguredSplit(mac, platforms, u);
      }
    }
  }

  /** The innermost loop: one device's ids appended. */
  method AppendDeviceIds(ids: seq<string>, mac: string, platform: string, d: DeviceConfig) returns (out: seq<string>)
    ensures out == ids + DeviceIds(mac, platform, d)
  {
    out := ids;
    var i := 0;
    while i < |d.entities|
      invariant 0 <= i <= |d.entities|
      invariant out == ids + DeviceIds(mac, platform, d)[..i]
    {
      var entity := d.entities[i];
      if entity != platform {
        out := out + [mac + "-" + d.device + "-" + entity];
      } else {
        out := out + [mac + "-" + d.device];
      }
      assert DeviceIds(mac, platform, d)[..i + 1] == DeviceIds(mac, platform, d)[..i] + [DeviceIds(mac, platform, d)[i]];
      AppendAssoc(ids, DeviceIds(mac, platform, d)[..i], [DeviceIds(mac, platform, d)[i]]);
      i := i + 1;
    }
    assert DeviceIds(mac, platform, d)[..i] == DeviceIds(mac, platform, d);
  }

  /** The nested loops that collect `configured_entities`. */
  method ConfiguredEntities(mac: string, platforms: seq<PlatformConfig>) returns (ids: seq<string>)
    ensures ids == ExpectedIds(mac, platforms)
  {
    ids := [];
    var i := 0;
    while i < |platforms|
      invariant 0 <= i <= |platforms|
      invariant ids == ExpectedIds(mac, platforms[..i])
    {
      var p := platforms[i];
      ghost var before := ids;
      var j := 0;
      while j < |p.devices|
        invariant 0 <= j <= |p.devices|
        invariant ids == before + PlatformIds(mac, p, j)
      {
        AppendAssoc(before, PlatformIds(mac, p, j), DeviceIds(mac, p.platform, p.devices[j]));
        ids := AppendDeviceIds(ids, mac, p.platform, p.devices[j]);
        j := j + 1;
      }
      assert platforms[..i + 1][..i] == platforms[..i];
      i := i + 1;
    }
    assert platforms[..i] == platforms;
  }

  /** An entity registry entry of the config entry. */
  datatype EntityEntry = EntityEntry(entityId: string, uniqueId: string, deviceId: Option<string>)

  /** `list.remove(x)` when `x` is in the list: the first occurrence goes. */
  function RemoveFirst(xs: seq<string>, x: string): (r: seq<string>)
    ensures x !in xs ==> r == xs
    ensures forall y :: y in r ==> y in xs
    ensures forall y :: y in xs && y != x ==> y in r
  {
    if |xs| == 0 then []
    else if xs[0] == x then xs[1..]
    else [xs[0]] + RemoveFirst(xs[1..], x)
  }

  /** In a list without repeats, `remove` takes the element out entirely and
      keeps the list free of repeats. */
  lemma {:induction false} RemoveFirstDistinct(xs: seq<string>, x: string)
    requires forall i, j :: 0 <= i < j < |xs| ==> xs[i] != xs[j]
    ensures x !in RemoveFirst(xs, x)
    ensures forall i, j :: 0 <= i < j < |RemoveFirst(xs, x)| ==> RemoveFirst(xs, x)[i] != RemoveFirst(xs, x)[j]
  {
    if |xs| > 0 && xs[0] != x {
      RemoveFirstDistinct(xs[1..], x);
      var rest := RemoveFirst(xs[1..], x);
      assert xs[0] !in xs[1..];
      assert xs[0] !in rest;
      var r := [xs[0]] + rest;
      forall i, j | 0 <= i < j < |r| ensures r[i] != r[j] {
        if i == 0 {
          assert r[j] == rest[j - 1];
        } else {
          assert r[i] == rest[i - 1] && r[j] == rest[j - 1];
        }
      }
    } else if |xs| > 0 {
      assert x !in xs[1..];
    }
  }

  /** Whether some configured entry (one with an expected id) sits on the device. */
  predicate HostsKeptEntity(entries: seq<EntityEntry>, configured: seq<string>, device: string)
  {
    exists e :: e in entries && e.uniqueId in configured && e.deviceId == Some(device)
  }

  /** The first pruning loop: the ids of entries whose unique id is not
      expected, and the entry's devices that host none of the kept entries. */
  method SplitEntries(entries: seq<EntityEntry>, configured: seq<string>, entryDevices: seq<string>)
      returns (entitiesToRemove: seq<string>, devicesToRemove: seq<string>)
    requires forall i, j :: 0 <= i < j < |entryDevices| ==> entryDevices[i] != entryDevices[j]
    ensures forall id :: id in entitiesToRemove <==> exists e :: e in entries && e.uniqueId !in configured && e.entityId == id
    ensures forall d :: d in devicesToRemove <==> d in entryDevices && !HostsKeptEntity(entries, configured, d)
    ensures forall i, j :: 0 <= i < j < |devicesToRemove| ==> devicesToRemove[i] != devicesToRemove[j]
  {
    entitiesToRemove := [];
    devicesToRemove := entryDevices;
    var i := 0;
    while i < |entries|
      invariant 0 <= i <= |entries|
      invariant forall id :: id in entitiesToRemove <==>
                  exists e :: e in entries[..i] && e.uniqueId !in configured && e.entityId == id
      invariant forall d :: d in devicesToRemove <==> d in entryDevices && !HostsKeptEntity(entries[..i], configured, d)
      invariant forall a, b :: 0 <= a < b < |devicesToRemove| ==> devicesToRemove[a] != devicesToRemove[b]
    {
      var e := entries[i];
      assert entries[..i + 1] == entries[..i] + [e];
      if e.uniqueId in configured {
        if e.deviceId.Some? && e.deviceId.value in devicesToRemove {
          RemoveFirstDistinct(devicesToRemove, e.deviceId.value);
          devicesToRemove := RemoveFirst(devicesToRemove, e.deviceId.value);
        }
        forall d ensures HostsKeptEntity(entries[..i + 1], configured, d) <==>
                         HostsKeptEntity(entries[..i], configured, d) || e.deviceId == Some(d) {
          if HostsKeptEntity(entries[..i + 1], configured, d) {
            var x :| x in entries[..i + 1] && x.uniqueId in configured && x.deviceId == Some(d);
            if x != e {
              assert x in entries[..i];
            }
          }
        }
      } else {
        entitiesToRemove := entitiesToRemove + [e.entityId];
        forall d ensures HostsKeptEntity(entries[..i + 1], configured, d) <==> HostsKeptEntity(entries[..i], configured, d) {
          if HostsKeptEntity(entries[..i + 1], configured, d) {
            var x :| x in entries[..i + 1] && x.uniqueId in configured && x.deviceId == Some(d);
            assert x in entries[..i];
          }
        }
      }
      i := i + 1;
    }
    assert entries[..i] == entries;
  }

  /** The two registries the pruning edits: entity id to its device, and the
      device ids. */
  class Registries {
    var entityDevice: map<string, Option<string>>
    var devices: set<string>

    constructor(entityDevice: map<string, Option<string>>, devices: set<string>)
      ensures this.entityDevice == entityDevice && this.devices == devices
    {
      this.entityDevice := entityDevice;
      this.devices := devices;
    }

    /** Whether any entity of the registry (disabled ones included) is on the device. */
    predicate HasEntities(device: string)
      reads this`entityDevice
    {
      exists id :: id in entityDevice && entityDevice[id] == Some(device)
    }

    /** The pruning block: entries with an unexpected unique id are removed;
        then each device of the entry that hosts no kept entity and is not
        the gateway's own device is removed once it has no entity left. */
    method Prune(entries: seq<EntityEntry>, configured: seq<string>, entryDevices: seq<string>, gatewayDevice: string)
      requires forall i, j :: 0 <= i < j < |entryDevices| ==> entryDevices[i] != entryDevices[j]
      modifies this
      ensures forall id :: id in entityDevice <==>
                id in old(entityDevice) && !exists e :: e in entries && e.uniqueId !in configured && e.entityId == id
      ensures forall id :: id in entityDevice ==> entityDevice[id] == old(entityDevice)[id]
      ensures forall d :: d in devices <==>
                d in old(devices) &&
                !(d in entryDevices && d != gatewayDevice && !HostsKeptEntity(entries, configured, d) && !HasEntities(d))
      ensures gatewayDevice in old(devices) ==> gatewayDevice in devices
      ensures forall d :: d in old(devices) && HostsKeptEntity(entries, configured, d) ==> d in devices
    {
      var entitiesToRemove, devicesToRemove := SplitEntries(entries, configured, entryDevices);
      var i := 0;
      while i < |entitiesToRemove|
        invariant 0 <= i <= |entitiesToRemove|
        invariant forall id :: id in entityDevice <==> id in old(entityDevice) && id !in entitiesToRemove[..i]
        invariant forall id :: id in entityDevice ==> entityDevice[id] == old(entityDevice)[id]
        invariant devices == old(devices)
      {
        entityDevice := entityDevice - {entitiesToRemove[i]};
        assert entitiesToRemove[..i + 1] == entitiesToRemove[..i] + [entitiesToRemove[i]];
        i := i + 1;
      }
      assert entitiesToRemove[..i] == entitiesToRemove;
      if gatewayDevice in devicesToRemove {
        RemoveFirstDistinct(devicesToRemove, gatewayDevice);
        devicesToRemove := RemoveFirst(devicesToRemove, gatewayDevice);
      }
      var k := 0;
      while k < |devicesToRemove|
        invariant 0 <= k <= |devicesToRemove|
        invariant forall d :: d in devices <==> d in old(devices) && !(d in devicesToRemove[..k] && !HasEntities(d))
        invariant forall id :: id in entityDevice <==> id in old(entityDevice) && id !in entitiesToRemove
        invariant forall id :: id in entityDevice ==> entityDevice[id] == old(entityDevice)[id]
      {
        var d := devicesToRemove[k];
        if !HasEntities(d) {
          devices := devices - {d};
        }
        assert devicesToRemove[..k + 1] == devicesToRemove[..k] + [d];
        k := k + 1;
      }
      assert devicesToRemove[..k] == devicesToRemove;
    }
  }

  // ---------------------------------------------------------------------------
  // Service calls
  // ---------------------------------------------------------------------------

  /** `_resolve_gateway`: the first configured gateway when none is given
      (an error when there is none), else the given address as `format_mac`
      normalises it (None when it is not a MAC address). */
  function ResolveGateway(requested: Option<string>, configured: seq<string>, formatMac: string -> Option<string>)
    : (r: Result<Option<string>, string>)
    ensures requested.None? && |configured| > 0 ==> r == Success(Some(configured[0]))
    ensures requested.None? && |configured| == 0 ==> r.Failure?
    ensures requested.Some? ==> r == Success(formatMac(requested.value))
  {
    match requested
    case None => if |configured| == 0 then Failure("no gateway is configured") else Success(Some(configured[0]))
    case Some(g) => Success(formatMac(g))
  }
}
