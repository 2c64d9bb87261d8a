/** The persistent configuration store
    (custom_components/bticino_myhome/config_store.py): the normalisation of
    loaded data, of a gateway's configuration and of an activation-discovery
    snapshot, and the accessors that load the stored dictionary, edit it and
    save it back. The store itself is an in-memory value. */
module ConfigStore {
  import opened Wrappers
  import opened Strings
  import opened PyValue
  import opened Discovery

  const GatewaysKey: string := "gateways"
  const ActivationKey: string := "activation_discovery"
  const MacKey: string := "mac"

  // ---------------------------------------------------------------------------
  // Loading
  // ---------------------------------------------------------------------------

  /** `async_load_data`: `{"gateways": {}}` for anything but a dictionary;
      otherwise the stored dictionary with a non-dictionary `gateways` or
      `activation_discovery` entry replaced by `{}`. */
  function LoadData(stored: Value): (data: map<string, Value>)
    ensures GatewaysKey in data && data[GatewaysKey].Dict?
    ensures !stored.Dict? ==> data == map[GatewaysKey := Dict(map[])]
    ensures stored.Dict? ==> ActivationKey in data && data[ActivationKey].Dict?
    ensures stored.Dict? ==> data.Keys == stored.entries.Keys + {GatewaysKey, ActivationKey}
    ensures stored.Dict? ==> forall k :: k in stored.entries && stored.entries[k].Dict? ==> data[k] == stored.entries[k]
    ensures stored.Dict? ==> forall k :: k in stored.entries && k != GatewaysKey && k != ActivationKey ==>
              data[k] == stored.entries[k]
  {
    if !stored.Dict? then map[GatewaysKey := Dict(map[])]
    else
      var d := stored.entries;
      var d1 := if GatewaysKey in d && d[GatewaysKey].Dict? then d else d[GatewaysKey := Dict(map[])];
      if ActivationKey in d1 && d1[ActivationKey].Dict? then d1 else d1[ActivationKey := Dict(map[])]
  }

  /** Loading what was loaded changes nothing. */
  lemma LoadDataIdempotent(stored: Value)
    requires stored.Dict?
    ensures LoadData(Dict(LoadData(stored))) == LoadData(stored)
  {
  }

  /** The `gateways` dictionary of loaded data. */
  function Gateways(data: map<string, Value>): map<string, Value>
  {
    if GatewaysKey in data && data[GatewaysKey].Dict? then data[GatewaysKey].entries else map[]
  }

  /** `data.get("activation_discovery", {})` when it is a dictionary. */
  function Activation(data: map<string, Value>): map<string, Value>
  {
    if ActivationKey in data && data[ActivationKey].Dict? then data[ActivationKey].entries else map[]
  }

  // ---------------------------------------------------------------------------
  // Normalisation
  // ---------------------------------------------------------------------------

  /** `_normalize_gateway_payload`: a copy of a dictionary payload (or `{}`)
      with `mac` forced to the gateway. */
  function NormalizeGatewayPayload(gateway: string, payload: Value): (r: map<string, Value>)
    ensures MacKey in r && r[MacKey] == Str(gateway)
    ensures forall k :: k != MacKey ==> (k in r <==> payload.Dict? && k in payload.entries)
    ensures forall k :: k != MacKey && k in r ==> r[k] == payload.entries[k]
  {
    var base := if payload.Dict? then payload.entries else map[];
    base[MacKey := Str(gateway)]
  }

  /** The payload `{mac: gateway}` is already normal. */
  lemma NormalizeBareGateway(gateway: string)
    ensures NormalizeGatewayPayload(gateway, Dict(map[MacKey := Str(gateway)])) == map[MacKey := Str(gateway)]
  {
    var r := NormalizeGatewayPayload(gateway, Dict(map[MacKey := Str(gateway)]));
    assert r.Keys == {MacKey};
  }

  /** Normalising a normalised payload for the same gateway changes nothing. */
  lemma NormalizeGatewayPayloadIdempotent(gateway: string, payload: Value)
    ensures NormalizeGatewayPayload(gateway, Dict(NormalizeGatewayPayload(gateway, payload))) ==
            NormalizeGatewayPayload(gateway, payload)
  {
  }

  /** `[str(v) for v in values if str(v)]`. */
  function Texts(values: seq<Value>): (r: seq<string>)
    ensures forall y :: y in r <==> y != "" && exists v :: v in values && ToStr(v) == y
  {
    if |values| == 0 then []
    else
      var t := ToStr(values[0]);
      var rest := Texts(values[1..]);
      assert forall v :: v in values <==> v == values[0] || v in values[1..];
      (if t == "" then [] else [t]) + rest
  }

  /** The values listed under one kind: `raw.get(kind, [])` when `raw` is a
      dictionary and the entry is a list, nothing otherwise. */
  function KindValues(raw: Value, k: DiscoveryKind): seq<Value>
  {
    if raw.Dict? then
      var values := GetOr(raw.entries, KindName(k), List([]));
      if values.List? then values.items else []
    else []
  }

  /** `_normalize_activation_snapshot`: exactly the four kinds, each the
      sorted, duplicate-free list of the non-empty `str()` of its values;
      empty lists for a non-dictionary. */
  function NormalizeSnapshot(raw: Value): (r: Report)
    ensures forall k :: StrictlySorted(r.Get(k)) && "" !in r.Get(k)
    ensures forall k, y :: y in r.Get(k) <==> y != "" && exists v :: v in KindValues(raw, k) && ToStr(v) == y
    ensures !raw.Dict? ==> r == Report([], [], [], [])
  {
    var r := Report(NormalizedKind(raw, Light), NormalizedKind(raw, Cover),
                    NormalizedKind(raw, Climate), NormalizedKind(raw, Power));
    assert forall k :: r.Get(k) == NormalizedKind(raw, k);
    r
  }

  /** One kind of a normalised snapshot. */
  function NormalizedKind(raw: Value, k: DiscoveryKind): (r: seq<string>)
    ensures StrictlySorted(r) && "" !in r
    ensures forall y :: y in r <==> y != "" && exists v :: v in KindValues(raw, k) && ToStr(v) == y
  {
    SortDedup(Texts(KindValues(raw, k)))
  }

  function StrValues(xs: seq<string>): (r: seq<Value>)
    ensures |r| == |xs| && forall i :: 0 <= i < |xs| ==> r[i] == Str(xs[i])
  {
    seq(|xs|, i requires 0 <= i < |xs| => Str(xs[i]))
  }

  /** A snapshot as it is saved: a dictionary of four lists of strings. */
  function SnapshotValue(r: Report): Value
  {
    Dict(map[KindName(Light) := List(StrValues(r.light)), KindName(Cover) := List(StrValues(r.cover)),
             KindName(Climate) := List(StrValues(r.climate)), KindName(Power) := List(StrValues(r.power))])
  }

  lemma {:induction false} TextsOfStrings(xs: seq<string>)
    requires "" !in xs
    ensures Texts(StrValues(xs)) == xs
  {
    if |xs| > 0 {
      assert StrValues(xs)[1..] == StrValues(xs[1..]);
      TextsOfStrings(xs[1..]);
      assert xs == [xs[0]] + xs[1..];
    }
  }

  lemma SnapshotKindRoundTrip(r: Report, k: DiscoveryKind)
    requires StrictlySorted(r.Get(k)) && "" !in r.Get(k)
    ensures SortDedup(Texts(KindValues(SnapshotValue(r), k))) == r.Get(k)
  {
    assert KindValues(SnapshotValue(r), k) == StrValues(r.Get(k));
    TextsOfStrings(r.Get(k));
    SortDedupOfSorted(r.Get(k));
  }

  /** Normalising a saved snapshot gives it back unchanged. */
  lemma NormalizeSnapshotIdempotent(raw: Value)
    ensures NormalizeSnapshot(SnapshotValue(NormalizeSnapshot(raw))) == NormalizeSnapshot(raw)
  {
    SnapshotRoundTrip(NormalizeSnapshot(raw));
  }

  /** A normal snapshot survives saving and reading back. */
  lemma SnapshotRoundTrip(r: Report)
    requires forall k :: StrictlySorted(r.Get(k)) && "" !in r.Get(k)
    ensures NormalizeSnapshot(SnapshotValue(r)) == r
  {
    SnapshotKindRoundTrip(r, Light);
    SnapshotKindRoundTrip(r, Cover);
    SnapshotKindRoundTrip(r, Climate);
    SnapshotKindRoundTrip(r, Power);
  }

  // ---------------------------------------------------------------------------
  // What each accessor reads and what it saves
  // ---------------------------------------------------------------------------

  /** What `async_get_gateway_config` returns. */
  function GatewayConfig(stored: Value, gateway: string): Option<map<string, Value>>
  {
    var raw := GetOr(Gateways(LoadData(stored)), gateway, Null);
    if raw.Dict? then Some(NormalizeGatewayPayload(gateway, raw)) else None
  }

  /** What `async_get_activation_discovery_results` returns. */
  function ActivationResults(stored: Value, gateway: string): Report
  {
    NormalizeSnapshot(GetOr(Activation(LoadData(stored)), gateway, Null))
  }

  /** What `async_set_gateway_config` saves. */
  function WithGateway(stored: Value, gateway: string, payload: Value): Value
  {
    var data := LoadData(stored);
    Dict(data[GatewaysKey := Dict(Gateways(data)[gateway := Dict(NormalizeGatewayPayload(gateway, payload))])])
  }

  /** What `async_remove_gateway_config` saves. */
  function WithoutGateway(stored: Value, gateway: string): Value
  {
    var data := LoadData(stored);
    var data1 := data[GatewaysKey := Dict(Gateways(data) - {gateway})];
    Dict(if ActivationKey in data then data1[ActivationKey := Dict(Activation(data) - {gateway})] else data1)
  }

  /** What `async_set_activation_discovery_results` saves. */
  function WithActivation(stored: Value, gateway: string, snapshot: Value): Value
  {
    var data := LoadData(stored);
    Dict(data[ActivationKey := Dict(Activation(data)[gateway := SnapshotValue(NormalizeSnapshot(snapshot))])])
  }

  /** What `async_clear_activation_discovery_results` leaves: it saves only
      when the loaded data has an activation dictionary. */
  function WithoutActivation(stored: Value, gateway: string): Value
  {
    var data := LoadData(stored);
    if ActivationKey in data then Dict(data[ActivationKey := Dict(Activation(data) - {gateway})]) else stored
  }

  /** Reading back a gateway's configuration gives what was set, `mac` forced;
      other gateways and the activation results are untouched. */
  lemma GetAfterSetGateway(stored: Value, gateway: string, payload: Value, other: string)
    ensures GatewayConfig(WithGateway(stored, gateway, payload), gateway) == Some(NormalizeGatewayPayload(gateway, payload))
    ensures other != gateway ==> GatewayConfig(WithGateway(stored, gateway, payload), other) == GatewayConfig(stored, other)
    ensures ActivationResults(WithGateway(stored, gateway, payload), other) == ActivationResults(stored, other)
  {
    NormalizeGatewayPayloadIdempotent(gateway, payload);
  }

  /** After a removal the gateway has neither configuration nor activation
      results, and every other gateway keeps both. */
  lemma GetAfterRemoveGateway(stored: Value, gateway: string, other: string)
    ensures GatewayConfig(WithoutGateway(stored, gateway), gateway) == None
    ensures ActivationResults(WithoutGateway(stored, gateway), gateway) == Report([], [], [], [])
    ensures other != gateway ==> GatewayConfig(WithoutGateway(stored, gateway), other) == GatewayConfig(stored, other)
    ensures other != gateway ==> ActivationResults(WithoutGateway(stored, gateway), other) == ActivationResults(stored, other)
  {
  }

  /** Reading back an activation snapshot gives its normalised form; other
      gateways and every configuration are untouched. */
  lemma GetAfterSetActivation(stored: Value, gateway: string, snapshot: Value, other: string)
    ensures ActivationResults(WithActivation(stored, gateway, snapshot), gateway) == NormalizeSnapshot(snapshot)
    ensures other != gateway ==>
              ActivationResults(WithActivation(stored, gateway, snapshot), other) == ActivationResults(stored, other)
    ensures GatewayConfig(WithActivation(stored, gateway, snapshot), other) == GatewayConfig(stored, other)
  {
    SetActivationReadsBack(stored, gateway, snapshot);
    SetActivationKeepsOthers(stored, gateway, snapshot, other);
  }

  lemma SetActivationReadsBack(stored: Value, gateway: string, snapshot: Value)
    ensures ActivationResults(WithActivation(stored, gateway, snapshot), gateway) == NormalizeSnapshot(snapshot)
  {
    NormalizeSnapshotIdempotent(snapshot);
  }

  lemma SetActivationKeepsOthers(stored: Value, gateway: string, snapshot: Value, other: string)
    ensures other != gateway ==>
              ActivationResults(WithActivation(stored, gateway, snapshot), other) == ActivationResults(stored, other)
    ensures GatewayConfig(WithActivation(stored, gateway, snapshot), other) == GatewayConfig(stored, other)
  {
  }

  /** Clearing leaves the gateway with the empty snapshot and touches nothing else. */
  lemma GetAfterClearActivation(stored: Value, gateway: string, other: string)
    ensures ActivationResults(WithoutActivation(stored, gateway), gateway) == Report([], [], [], [])
    ensures other != gateway ==>
              ActivationResults(WithoutActivation(stored, gateway), other) == ActivationResults(stored, other)
    ensures GatewayConfig(WithoutActivation(stored, gateway), other) == GatewayConfig(stored, other)
  {
  }

  // ---------------------------------------------------------------------------
  // The store
  // ---------------------------------------------------------------------------

  /** The storage file's content; `Null` until something is saved. */
  class Store {
    var stored: Value

    constructor(initial: Value)
      ensures stored == initial
    {
      stored := initial;
    }

    method GetGatewayConfig(gateway: string) returns (r: Option<map<string, Value>>)
      ensures r == GatewayConfig(stored, gateway)
      ensures r.Some? ==> r.value[MacKey] == Str(gateway)
    {
      var data := LoadData(stored);
      var raw := GetOr(Gateways(data), gateway, Null);
      if !raw.Dict? {
        return None;
      }
      return Some(NormalizeGatewayPayload(gateway, raw));
    }

    method SetGatewayConfig(gateway: string, payload: Value)
      modifies this
      ensures stored == WithGateway(old(stored), gateway, payload)
    {
      var data := LoadData(stored);
      var gateways := Gateways(data)[gateway := Dict(NormalizeGatewayPayload(gateway, payload))];
      stored := Dict(data[GatewaysKey := Dict(gateways)]);
    }

    method RemoveGatewayConfig(gateway: string)
      modifies this
      ensures stored == WithoutGateway(old(stored), gateway)
    {
      var data := LoadData(stored);
      data := data[GatewaysKey := Dict(Gateways(data) - {gateway})];
      var activation := GetOr(data, ActivationKey, Dict(map[]));
      if activation.Dict? && ActivationKey in data {
        data := data[ActivationKey := Dict(activation.entries - {gateway})];
      }
      stored := Dict(data);
    }

    method GetActivationDiscoveryResults(gateway: string) returns (r: Report)
      ensures r == ActivationResults(stored, gateway)
      ensures forall k :: StrictlySorted(r.Get(k)) && "" !in r.Get(k)
    {
      var data := LoadData(stored);
      var activation := GetOr(data, ActivationKey, Dict(map[]));
      var raw := if activation.Dict? then GetOr(activation.entries, gateway, Null) else Null;
      r := NormalizeSnapshot(raw);
    }

    method SetActivationDiscoveryResults(gateway: string, snapshot: Value)
      modifies this
      ensures stored == WithActivation(old(stored), gateway, snapshot)
    {
      var data := LoadData(stored);
      var activation := GetOr(data, ActivationKey, Null);
      var entries := if activation.Dict? then activation.entries else map[];
      entries := entries[gateway := SnapshotValue(NormalizeSnapshot(snapshot))];
      stored := Dict(data[ActivationKey := Dict(entries)]);
    }

    method ClearActivationDiscoveryResults(gateway: string)
      modifies this
      ensures stored == WithoutActivation(old(stored), gateway)
    {
      var data := LoadData(stored);
      var activation := GetOr(data, ActivationKey, Null);
      if activation.Dict? {
        stored := Dict(data[ActivationKey := Dict(activation.entries - {gateway})]);
      }
    }

    /** The stored configuration, or `{mac: gateway}` stored and returned when
        there is none. */
    method GetOrInitGatewayConfig(gateway: string) returns (r: map<string, Value>)
      modifies this
      ensures old(GatewayConfig(stored, gateway)).Some? ==>
                r == old(GatewayConfig(stored, gateway)).value && stored == old(stored)
      ensures old(GatewayConfig(stored, gateway)).None? ==>
                r == map[MacKey := Str(gateway)] && stored == WithGateway(old(stored), gateway, Dict(r))
      ensures GatewayConfig(stored, gateway) == Some(r)
    {
      var found := GetGatewayConfig(gateway);
      if found.Some? && (assert MacKey in found.value; found.value != map[]) {
        return found.value;
      }
      r := map[MacKey := Str(gateway)];
      SetGatewayConfig(gateway, Dict(r));
      GetAfterSetGateway(old(stored), gateway, Dict(r), gateway);
      NormalizeBareGateway(gateway);
    }
  }
}
