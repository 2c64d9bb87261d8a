/** The discovery engine's pure part (custom_components/myhome/gateway.py):
    the four address sets of a snapshot, the rule that decides what a
    collector records for a message, the clamping of scan parameters, and the
    probes an active scan enqueues. The gateway class applies these. */
module Discovery {
  import opened Wrappers
  import opened Strings
  import opened OwnWhere
  import opened Messages

  datatype DiscoveryKind = Light | Cover | Climate | Power

  /** `{"light": set(), "cover": set(), "climate": set(), "power": set()}`. */
  datatype Snapshot = Snapshot(light: set<string>, cover: set<string>,
                               climate: set<string>, power: set<string>)
  {
    function Get(k: DiscoveryKind): set<string>
    {
      match k
      case Light => light
      case Cover => cover
      case Climate => climate
      case Power => power
    }

    function Add(k: DiscoveryKind, w: string): (s: Snapshot)
      ensures s.Get(k) == Get(k) + {w}
      ensures forall k' :: k' != k ==> s.Get(k') == Get(k')
    {
      match k
      case Light => this.(light := light + {w})
      case Cover => this.(cover := cover + {w})
      case Climate => this.(climate := climate + {w})
      case Power => this.(power := power + {w})
    }

    predicate Within(other: Snapshot)
    {
      forall k :: Get(k) <= other.Get(k)
    }

    predicate IsEmpty()
    {
      forall k :: Get(k) == {}
    }
  }

  const EmptySnapshot := Snapshot({}, {}, {}, {})

  /** The kinds in the order every report lists them. */
  const KindNames: seq<string> := ["light", "cover", "climate", "power"]

  function KindName(k: DiscoveryKind): string
  {
    match k
    case Light => "light"
    case Cover => "cover"
    case Climate => "climate"
    case Power => "power"
  }

  /** A snapshot as reported: each set as a list sorted by code point. */
  datatype Report = Report(light: seq<string>, cover: seq<string>, climate: seq<string>, power: seq<string>)
  {
    function Get(k: DiscoveryKind): seq<string>
    {
      match k
      case Light => light
      case Cover => cover
      case Climate => climate
      case Power => power
    }
  }

  /** `r` lists exactly the addresses of `s`, each kind sorted without repeats. */
  ghost predicate Reports(r: Report, s: Snapshot)
  {
    forall k :: StrictlySorted(r.Get(k)) && forall y :: y in r.Get(k) <==> y in s.Get(k)
  }

  /** There is only one way to report a snapshot. */
  lemma ReportIsUnique(r1: Report, r2: Report, s: Snapshot)
    requires Reports(r1, s) && Reports(r2, s)
    ensures r1 == r2
  {
    forall k ensures r1.Get(k) == r2.Get(k) {
      SortedUnique(r1.Get(k), r2.Get(k));
    }
    assert r1.light == r2.light by { assert r1.Get(Light) == r2.Get(Light); }
    assert r1.cover == r2.cover by { assert r1.Get(Cover) == r2.Get(Cover); }
    assert r1.climate == r2.climate by { assert r1.Get(Climate) == r2.Get(Climate); }
    assert r1.power == r2.power by { assert r1.Get(Power) == r2.Get(Power); }
  }

  /** The (kind, address) a collector records for a message, if any:
      point-to-point lighting and automation events, heating events whose zone
      is a positive number, and energy events with an address. */
  function Candidate(k: Kind): (r: Option<(DiscoveryKind, string)>)
    ensures IsBroadcast(k) ==> r.None?
    ensures r.Some? && r.value.0 == Light ==> k.LightingEvent? && r.value.1 == k.where
    ensures r.Some? && r.value.0 == Cover ==> k.AutomationEvent? && r.value.1 == k.where
    ensures r.Some? && r.value.0 == Climate ==> k.HeatingEvent? && r.value.1 == k.where
    ensures r.Some? && r.value.0 == Power ==> k.EnergyEvent?
    ensures !(k.LightingEvent? || k.AutomationEvent? || k.HeatingEvent? || k.EnergyEvent?) ==> r.None?
    ensures (k.LightingEvent? || k.AutomationEvent?) && !IsBroadcast(k) ==>
              r == Some((if k.LightingEvent? then Light else Cover, k.where))
    ensures k.HeatingEvent? ==>
              (r.Some? <==> ExtractDiscoveryClimateWhere(k.where).Some?) &&
              (r.Some? ==> r.value.1 == ExtractDiscoveryClimateWhere(k.where).value)
    ensures k.EnergyEvent? ==>
              (r.Some? <==> ExtractEnergyWhere(k.whereAttr, k.entity).Some?) &&
              (r.Some? ==> r.value == (Power, ExtractEnergyWhere(k.whereAttr, k.entity).value))
  {
    match k
    case LightingEvent(where, _, general, area, group, _, _, _, _, _) =>
      if general || area || group then None else Some((Light, where))
    case AutomationEvent(where, _, general, area, group, _, _, _, _, _) =>
      if general || area || group then None else Some((Cover, where))
    case HeatingEvent(where, _, _) =>
      (match ExtractDiscoveryClimateWhere(where)
       case Some(w) => Some((Climate, w))
       case None => None)
    case EnergyEvent(whereAttr, entity) =>
      (match ExtractEnergyWhere(whereAttr, entity)
       case Some(w) => Some((Power, w))
       case None => None)
    case _ => None
  }

  /** What one collector call does to its snapshot: it never removes
      anything and adds at most one address to one of the four sets;
      broadcast events are never recorded. */
  function Record(s: Snapshot, k: Kind): (r: Snapshot)
    ensures s.Within(r)
    ensures r == s || exists kind, w :: r == s.Add(kind, w)
    ensures IsBroadcast(k) ==> r == s
  {
    match Candidate(k)
    case Some((kind, w)) => s.Add(kind, w)
    case None => s
  }

  /** A climate event for the central zone is never recorded; one for zone 3 is. */
  lemma CentralClimateZoneNeverRecorded(s: Snapshot)
    ensures Record(s, HeatingEvent("0", "4-0", false)) == s
    ensures Record(s, HeatingEvent("#0", "4-#0", false)) == s
    ensures Record(s, HeatingEvent("3", "4-3", false)).climate == s.climate + {"3"}
  {
    ClimateZoneFilter("3", "1");
    RecordHeating(s, "0", "4-0", false);
    RecordHeating(s, "#0", "4-#0", false);
    RecordHeating(s, "3", "4-3", false);
  }

  /** A heating event is recorded under the climate WHERE it yields, if any. */
  lemma RecordHeating(s: Snapshot, where: string, entity: string, active: bool)
    ensures ExtractDiscoveryClimateWhere(where).None? ==> Record(s, HeatingEvent(where, entity, active)) == s
    ensures ExtractDiscoveryClimateWhere(where).Some? ==>
              Record(s, HeatingEvent(where, entity, active)) == s.Add(Climate, ExtractDiscoveryClimateWhere(where).value)
  {
  }

  // ---------------------------------------------------------------------------
  // Active scan parameters
  // ---------------------------------------------------------------------------

  /** `max(lo, min(hi, x))`. */
  function Clamp(lo: int, hi: int, x: int): int
  {
    if x > hi then (if lo > hi then lo else hi) else if x < lo then lo else x
  }

  datatype ScanRange = ScanRange(areaStart: nat, areaEnd: nat, pointStart: nat, pointEnd: nat,
                                 duration: nat)

  /** The scan range after clamping area to 0-10, point to 0-15 and the
      duration to 2-30 seconds, and swapping inverted bounds. */
  function NormalizeScan(areaStart: int, areaEnd: int, pointStart: int, pointEnd: int,
                         duration: int): (r: ScanRange)
    ensures r.areaStart <= r.areaEnd <= 10 && r.pointStart <= r.pointEnd <= 15
    ensures 2 <= r.duration <= 30
    ensures {r.areaStart, r.areaEnd} == {Clamp(0, 10, areaStart), Clamp(0, 10, areaEnd)}
    ensures {r.pointStart, r.pointEnd} == {Clamp(0, 15, pointStart), Clamp(0, 15, pointEnd)}
    ensures r.duration == Clamp(2, 30, duration)
    ensures 0 <= areaStart <= areaEnd <= 10 && 0 <= pointStart <= pointEnd <= 15 ==>
              r.areaStart == areaStart && r.areaEnd == areaEnd &&
              r.pointStart == pointStart && r.pointEnd == pointEnd
  {
    var a0, a1 := Clamp(0, 10, areaStart), Clamp(0, 10, areaEnd);
    var p0, p1 := Clamp(0, 15, pointStart), Clamp(0, 15, pointEnd);
    ScanRange(if a0 > a1 then a1 else a0, if a0 > a1 then a0 else a1,
              if p0 > p1 then p1 else p0, if p0 > p1 then p0 else p1,
              Clamp(2, 30, duration))
  }

  // ---------------------------------------------------------------------------
  // The probes an active scan enqueues
  // ---------------------------------------------------------------------------

  datatype ScanFlags = ScanFlags(lights: bool, covers: bool, climate: bool, power: bool)

  /** `POWER_DISCOVERY_DEFAULT_ENDPOINTS`. */
  const PowerDiscoveryEndpoints: seq<string> := ["51"]

  /** The number of categories probed at each grid address. */
  function GridCategories(f: ScanFlags): nat
  {
    (if f.lights then 1 else 0) + (if f.covers then 1 else 0) + (if f.climate then 1 else 0)
  }

  /** The status requests sent to one address, lighting then automation then heating. */
  function PointProbes(w: string, f: ScanFlags): (r: seq<Command>)
    ensures |r| == GridCategories(f)
  {
    (if f.lights then [LightingStatus(w)] else []) +
    (if f.covers then [AutomationStatus(w)] else []) +
    (if f.climate then [HeatingStatus(w)] else [])
  }

  /** Points `p0..pLast` of one area, in increasing order. */
  function RowProbes(area: nat, p0: nat, pLast: int, f: ScanFlags): seq<Command>
    decreases pLast - p0 + 1
  {
    if pLast < p0 then [] else RowProbes(area, p0, pLast - 1, f) + PointProbes(FormatPointToPoint(area, pLast as nat), f)
  }

  /** Areas `a0..aLast`, area-major. */
  function GridProbes(a0: nat, aLast: int, p0: nat, pLast: int, f: ScanFlags): seq<Command>
    decreases aLast - a0 + 1
  {
    if aLast < a0 then [] else GridProbes(a0, aLast - 1, p0, pLast, f) + RowProbes(aLast as nat, p0, pLast, f)
  }

  function PowerProbes(endpoints: seq<string>): (r: seq<Command>)
    ensures |r| == |endpoints|
    ensures forall i :: 0 <= i < |r| ==> r[i] == EnergyTotalConsumption(endpoints[i])
  {
    if |endpoints| == 0 then [] else [EnergyTotalConsumption(endpoints[0])] + PowerProbes(endpoints[1..])
  }

  /** Every status request of one scan, in the order it is enqueued. */
  function ProbePlan(r: ScanRange, f: ScanFlags): seq<Command>
  {
    GridProbes(r.areaStart, r.areaEnd, r.pointStart, r.pointEnd, f) +
    (if f.power then PowerProbes(PowerDiscoveryEndpoints) else [])
  }

  lemma MulSucc(n: int, k: int)
    ensures (n + 1) * k == n * k + k
  {
  }

  lemma {:induction false} RowProbesLength(area: nat, p0: nat, pLast: int, f: ScanFlags)
    requires pLast >= p0 - 1
    ensures |RowProbes(area, p0, pLast, f)| == (pLast - p0 + 1) * GridCategories(f)
    decreases pLast - p0 + 1
  {
    if pLast >= p0 {
      RowProbesLength(area, p0, pLast - 1, f);
      MulSucc(pLast - p0, GridCategories(f));
    }
  }

  lemma {:induction false} GridProbesLength(a0: nat, aLast: int, p0: nat, pLast: int, f: ScanFlags)
    requires aLast >= a0 - 1 && pLast >= p0 - 1
    ensures |GridProbes(a0, aLast, p0, pLast, f)| == (aLast - a0 + 1) * ((pLast - p0 + 1) * GridCategories(f))
    decreases aLast - a0 + 1
  {
    if aLast >= a0 {
      GridProbesLength(a0, aLast - 1, p0, pLast, f);
      RowProbesLength(aLast as nat, p0, pLast, f);
      MulSucc(aLast - a0, (pLast - p0 + 1) * GridCategories(f));
    }
  }

  /** A scan enqueues exactly #areas x #points x #enabled grid categories
      probes, plus one per power endpoint when power scanning is on. */
  lemma ProbePlanCount(r: ScanRange, f: ScanFlags)
    requires r.areaStart <= r.areaEnd && r.pointStart <= r.pointEnd
    ensures |ProbePlan(r, f)| ==
              (r.areaEnd - r.areaStart + 1) * ((r.pointEnd - r.pointStart + 1) * GridCategories(f)) +
              (if f.power then |PowerDiscoveryEndpoints| else 0)
  {
    GridProbesLength(r.areaStart, r.areaEnd, r.pointStart, r.pointEnd, f);
  }

  lemma {:induction false} RowProbesPrefix(area: nat, p0: nat, p: int, pLast: int, f: ScanFlags)
    requires p <= pLast
    ensures RowProbes(area, p0, p, f) <= RowProbes(area, p0, pLast, f)
    decreases pLast - p
  {
    if p < pLast {
      RowProbesPrefix(area, p0, p, pLast - 1, f);
      if p0 <= pLast {
        RowProbesStep(area, p0, pLast - 1, pLast, f);
      }
    }
  }

  lemma {:induction false} GridProbesPrefix(a0: nat, a: int, aLast: int, p0: nat, pLast: int, f: ScanFlags)
    requires a <= aLast
    ensures GridProbes(a0, a, p0, pLast, f) <= GridProbes(a0, aLast, p0, pLast, f)
    decreases aLast - a
  {
    if a < aLast {
      GridProbesPrefix(a0, a, aLast - 1, p0, pLast, f);
    }
  }

  /** Area-major, then point order: the probes for address (a, p) come right
      after those of every earlier area and of the earlier points of area a. */
  lemma GridProbesAt(a0: nat, aLast: int, p0: nat, pLast: int, f: ScanFlags, a: nat, p: nat, j: nat)
    requires a0 <= a <= aLast && p0 <= p <= pLast && j < GridCategories(f)
    ensures |GridProbes(a0, a - 1, p0, pLast, f)| + |RowProbes(a, p0, p - 1, f)| + j <
              |GridProbes(a0, aLast, p0, pLast, f)|
    ensures GridProbes(a0, aLast, p0, pLast, f)[|GridProbes(a0, a - 1, p0, pLast, f)| + |RowProbes(a, p0, p - 1, f)| + j] ==
              PointProbes(FormatPointToPoint(a, p), f)[j]
  {
    var before := GridProbes(a0, a - 1, p0, pLast, f);
    var earlier := RowProbes(a, p0, p - 1, f);
    var point := PointProbes(FormatPointToPoint(a, p), f);
    var row := RowProbes(a, p0, pLast, f);
    var grid := GridProbes(a0, aLast, p0, pLast, f);
    RowProbesStep(a, p0, p - 1, p, f);
    RowProbesPrefix(a, p0, p, pLast, f);
    GridProbesStep(a0, a - 1, a, p0, pLast, f);
    GridProbesPrefix(a0, a, aLast, p0, pLast, f);
    NestedAt(before, earlier, point, row, grid, j);
  }

  lemma RowProbesStep(area: nat, p0: nat, last: int, p: nat, f: ScanFlags)
    requires p0 <= p && last == p - 1
    ensures RowProbes(area, p0, p, f) == RowProbes(area, p0, last, f) + PointProbes(FormatPointToPoint(area, p), f)
  {
  }

  lemma GridProbesStep(a0: nat, last: int, a: nat, p0: nat, pLast: int, f: ScanFlags)
    requires a0 <= a && last == a - 1
    ensures GridProbes(a0, a, p0, pLast, f) == GridProbes(a0, last, p0, pLast, f) + RowProbes(a, p0, pLast, f)
  {
  }

  /** Element `j` of `point` inside `grid`, when `grid` starts with `before`
      followed by a row that starts with `earlier` followed by `point`. */
  lemma NestedAt<T>(before: seq<T>, earlier: seq<T>, point: seq<T>, row: seq<T>, grid: seq<T>, j: nat)
    requires earlier + point <= row && before + row <= grid && j < |point|
    ensures |before| + |earlier| + j < |grid| && grid[|before| + |earlier| + j] == point[j]
  {
    assert row[|earlier| + j] == (earlier + point)[|earlier| + j];
    assert grid[|before| + |earlier| + j] == (before + row)[|before| + |earlier| + j];
  }
}
