/** OpenWebNet WHERE helpers of the gateway handler
    (custom_components/myhome/gateway.py): point-to-point address formatting,
    zone/channel extraction, and the filters that decide which climate and
    energy addresses a discovery collector may record. */
module OwnWhere {
  import opened Wrappers
  import opened Strings

  /** `[part for part in where.split("#") if part]`. */
  function WhereParts(where: string): (parts: seq<string>)
    ensures forall i :: 0 <= i < |parts| ==> parts[i] != "" && '#' !in parts[i]
  {
    NonEmptyParts(Split(where, '#'))
  }

  datatype ZoneChannel = ZoneChannel(zone: Option<string>, channel: Option<string>)

  /** The part that names the zone: the second part in the central style
      `0#<zone>`, otherwise the first. */
  function ZonePartIndex(parts: seq<string>): nat
  {
    if |parts| >= 2 && parts[0] == "0" then 1 else 0
  }

  /** `_extract_zone_and_channel`: the zone is reported only when it is all
      digits; the channel is the part after the zone, if any. */
  function ExtractZoneAndChannel(where: string): (r: ZoneChannel)
    ensures r.zone.Some? ==> IsDigits(r.zone.value) && r.zone.value in WhereParts(where)
    ensures r.channel.Some? ==> r.channel.value != "" && '#' !in r.channel.value
    ensures WhereParts(where) == [] ==> r == ZoneChannel(None, None)
    ensures r.zone.Some? <==>
              WhereParts(where) != [] && IsDigits(WhereParts(where)[ZonePartIndex(WhereParts(where))])
    ensures r.zone.Some? ==> r.zone.value == WhereParts(where)[ZonePartIndex(WhereParts(where))]
    ensures r.channel.Some? <==> |WhereParts(where)| > ZonePartIndex(WhereParts(where)) + 1
    ensures r.channel.Some? ==> r.channel.value == WhereParts(where)[ZonePartIndex(WhereParts(where)) + 1]
  {
    var parts := WhereParts(where);
    if |parts| == 0 then ZoneChannel(None, None)
    else
      var k := ZonePartIndex(parts);
      ZoneChannel(if IsDigits(parts[k]) then Some(parts[k]) else None,
                  if |parts| > k + 1 then Some(parts[k + 1]) else None)
  }

  // ---------------------------------------------------------------------------
  // Splitting lemmas used to compute ExtractZoneAndChannel on concrete shapes
  // ---------------------------------------------------------------------------

  lemma {:induction false} SplitNoSeparator(a: string, sep: char)
    requires sep !in a
    ensures Split(a, sep) == [a]
  {
    if |a| > 0 {
      SplitNoSeparator(a[1..], sep);
      assert a == [a[0]] + a[1..];
    }
  }

  lemma {:induction false} SplitConcat(a: string, sep: char, b: string)
    requires sep !in a
    ensures Split(a + [sep] + b, sep) == [a] + Split(b, sep)
  {
    if |a| == 0 {
      assert a + [sep] + b == [sep] + b;
      assert ([sep] + b)[1..] == b;
    } else {
      var s := a + [sep] + b;
      assert s[1..] == a[1..] + [sep] + b;
      SplitConcat(a[1..], sep, b);
      assert [a[0]] + a[1..] == a;
    }
  }

  lemma {:induction false} NonEmptyPartsConcat(x: seq<string>, y: seq<string>)
    ensures NonEmptyParts(x + y) == NonEmptyParts(x) + NonEmptyParts(y)
  {
    if |x| > 0 {
      assert (x + y)[1..] == x[1..] + y;
      NonEmptyPartsConcat(x[1..], y);
    } else {
      assert x + y == y;
    }
  }

  lemma PartsOfPlain(z: string)
    requires z != "" && '#' !in z
    ensures WhereParts(z) == [z]
  {
    SplitNoSeparator(z, '#');
    assert NonEmptyParts([z]) == [z] by { assert [z][1..] == []; }
  }

  lemma PartsOfPair(z: string, c: string)
    requires z != "" && '#' !in z && c != "" && '#' !in c
    ensures WhereParts(z + "#" + c) == [z, c]
  {
    SplitNoSeparator(c, '#');
    SplitConcat(z, '#', c);
    assert z + "#" + c == z + ['#'] + c;
    NonEmptyPartsConcat([z], [c]);
    PartsOfPlain(z);
    PartsOfPlain(c);
  }

  lemma PartsOfCentral(z: string, c: string)
    requires z != "" && '#' !in z && c != "" && '#' !in c
    ensures WhereParts("#0#" + z + "#" + c) == ["0", z, c]
  {
    var w := "#0#" + z + "#" + c;
    var tail := z + ['#'] + c;
    assert w == "" + ['#'] + ("0" + ['#'] + tail);
    SplitConcat("", '#', "0" + ['#'] + tail);
    SplitConcat("0", '#', tail);
    assert Split(w, '#') == ["", "0"] + Split(tail, '#');
    assert tail == z + "#" + c;
    PartsOfPair(z, c);
    NonEmptyPartsConcat(["", "0"], Split(tail, '#'));
    assert NonEmptyParts(["", "0"]) == ["0"] by {
      assert ["", "0"][1..] == ["0"];
      assert ["0"][1..] == [];
    }
  }

  lemma PartsOfCentralZone(z: string)
    requires z != "" && '#' !in z
    ensures WhereParts("#0#" + z) == ["0", z]
  {
    var w := "#0#" + z;
    assert w == "" + ['#'] + ("0" + ['#'] + z);
    SplitConcat("", '#', "0" + ['#'] + z);
    SplitConcat("0", '#', z);
    SplitNoSeparator(z, '#');
    assert Split(w, '#') == ["", "0"] + [z];
    NonEmptyPartsConcat(["", "0"], [z]);
    PartsOfPlain(z);
    assert NonEmptyParts(["", "0"]) == ["0"] by {
      assert ["", "0"][1..] == ["0"];
      assert ["0"][1..] == [];
    }
  }

  lemma PartsOfTriple(a: string, b: string, c: string)
    requires a != "" && '#' !in a && b != "" && '#' !in b && c != "" && '#' !in c
    ensures WhereParts(a + "#" + b + "#" + c) == [a, b, c]
  {
    var tail := b + ['#'] + c;
    assert a + "#" + b + "#" + c == a + ['#'] + tail;
    SplitConcat(a, '#', tail);
    assert tail == b + "#" + c;
    PartsOfPair(b, c);
    NonEmptyPartsConcat([a], Split(tail, '#'));
    PartsOfPlain(a);
  }

  /** A plain zone `Z` and `Z#C` give zone `Z` (and channel `C`); the central
      styles `#0#Z` and `#0#Z#C` give the same. */
  lemma ZoneChannelOfComposedWhere(z: string, c: string)
    requires IsDigits(z) && z != "0"
    requires c != "" && '#' !in c
    ensures ExtractZoneAndChannel(z) == ZoneChannel(Some(z), None)
    ensures ExtractZoneAndChannel(z + "#" + c) == ZoneChannel(Some(z), Some(c))
    ensures ExtractZoneAndChannel("#0#" + z) == ZoneChannel(Some(z), None)
    ensures ExtractZoneAndChannel("#0#" + z + "#" + c) == ZoneChannel(Some(z), Some(c))
  {
    assert '#' !in z by { assert forall i :: 0 <= i < |z| ==> IsDigit(z[i]); }
    PartsOfPlain(z);
    PartsOfPair(z, c);
    PartsOfCentralZone(z);
    PartsOfCentral(z, c);
  }

  /** Outside the central style the first part is the zone and the second the
      channel, whatever follows; a zone that is not all digits is dropped
      while its channel is still reported. */
  lemma ZoneChannelOfPlainParts(z: string, c: string, rest: string)
    requires z != "" && '#' !in z && z != "0"
    requires c != "" && '#' !in c && rest != "" && '#' !in rest
    ensures ExtractZoneAndChannel(z + "#" + c + "#" + rest) ==
              ZoneChannel(if IsDigits(z) then Some(z) else None, Some(c))
    ensures !IsDigits(z) ==> ExtractZoneAndChannel(z + "#" + c) == ZoneChannel(None, Some(c))
  {
    PartsOfTriple(z, c, rest);
    PartsOfPair(z, c);
  }

  // ---------------------------------------------------------------------------
  // Point-to-point addresses
  // ---------------------------------------------------------------------------

  /** `_format_point_to_point_where`: `"{area}{point}"` when both are single
      digits, otherwise both zero-padded to two digits. */
  function FormatPointToPoint(area: nat, point: nat): (w: string)
    ensures IsDigits(w)
    ensures area <= 9 && point <= 9 ==> |w| == 2
    ensures !(area <= 9 && point <= 9) && area < 100 && point < 100 ==> |w| == 4
  {
    if area <= 9 && point <= 9 then NatToString(area) + NatToString(point)
    else ZeroPad2(area) + ZeroPad2(point)
  }

  /** Reads an address written by FormatPointToPoint back into (area, point). */
  function ParsePointToPoint(w: string): Option<(nat, nat)>
  {
    if IsDigits(w) && |w| == 2 then Some((DigitValue(w[0]), DigitValue(w[1])))
    else if IsDigits(w) && |w| == 4 then Some((DigitsValue(w[..2]), DigitsValue(w[2..])))
    else None
  }

  lemma TwoDigitValue(n: nat)
    requires n < 100
    ensures |ZeroPad2(n)| == 2 && DigitsValue(ZeroPad2(n)) == n
  {
    NatToStringValue(n);
    var s := ZeroPad2(n);
    if n < 10 {
      assert s[..1] == "0";
      assert DigitsValue(s[..1]) == 0 by { assert s[..1][..0] == []; }
    } else {
      assert s == NatToString(n);
    }
  }

  /** The address round-trips: formatting is injective on the scanned grid. */
  lemma {:induction false} PointToPointRoundTrip(area: nat, point: nat)
    requires area < 100 && point < 100
    ensures ParsePointToPoint(FormatPointToPoint(area, point)) == Some((area, point))
  {
    var w := FormatPointToPoint(area, point);
    if area <= 9 && point <= 9 {
      assert w == [DigitChar(area)] + [DigitChar(point)];
      assert |w| == 2;
    } else {
      TwoDigitValue(area);
      TwoDigitValue(point);
      assert w[..2] == ZeroPad2(area) && w[2..] == ZeroPad2(point);
      assert |w| == 4;
    }
  }

  lemma PointToPointInjective(a1: nat, p1: nat, a2: nat, p2: nat)
    requires a1 < 100 && p1 < 100 && a2 < 100 && p2 < 100
    requires FormatPointToPoint(a1, p1) == FormatPointToPoint(a2, p2)
    ensures a1 == a2 && p1 == p2
  {
    PointToPointRoundTrip(a1, p1);
    PointToPointRoundTrip(a2, p2);
  }

  // ---------------------------------------------------------------------------
  // Discovery filters
  // ---------------------------------------------------------------------------

  /** `_extract_discovery_climate_where`: the WHERE itself when its zone is a
      positive number, otherwise nothing (central zone 0, "", "*", malformed). */
  function ExtractDiscoveryClimateWhere(where: string): (r: Option<string>)
    ensures r.Some? ==> r.value == where && where != "" && where != "*"
    ensures r.Some? ==> var z := ExtractZoneAndChannel(where).zone;
                        z.Some? && DigitsValue(z.value) > 0
    ensures (where != "" && where != "*" && ExtractZoneAndChannel(where).zone.Some? &&
             DigitsValue(ExtractZoneAndChannel(where).zone.value) > 0) ==> r == Some(where)
  {
    if where == "" || where == "*" then None
    else
      var zone := ExtractZoneAndChannel(where).zone;
      if zone.None? then None
      else if DigitsValue(zone.value) <= 0 then None
      else Some(where)
  }

  lemma {:induction false} DigitsValueZero(s: string)
    requires AllDigits(s)
    ensures DigitsValue(s) == 0 <==> forall i :: 0 <= i < |s| ==> s[i] == '0'
  {
    if |s| > 0 {
      DigitsValueZero(s[..|s| - 1]);
      assert forall i :: 0 <= i < |s| - 1 ==> s[..|s| - 1][i] == s[i];
    }
  }

  /** A climate event of the central zone is never recorded; one of a numbered
      zone is recorded as it is (plain, with a channel, or central style). */
  lemma ClimateZoneFilter(z: string, c: string)
    requires IsDigits(z) && z != "0" && DigitsValue(z) > 0
    requires c != "" && '#' !in c
    ensures ExtractDiscoveryClimateWhere("0") == None
    ensures ExtractDiscoveryClimateWhere("#0") == None
    ensures ExtractDiscoveryClimateWhere(z) == Some(z)
    ensures ExtractDiscoveryClimateWhere(z + "#" + c) == Some(z + "#" + c)
    ensures ExtractDiscoveryClimateWhere("#0#" + z + "#" + c) == Some("#0#" + z + "#" + c)
  {
    ZoneChannelOfComposedWhere(z, c);
    CentralZoneIgnored();
  }

  lemma CentralZoneIgnored()
    ensures ExtractDiscoveryClimateWhere("0") == None
    ensures ExtractDiscoveryClimateWhere("#0") == None
  {
    SplitNoSeparator("0", '#');
    assert WhereParts("0") == ["0"];
    assert "#0" == "" + ['#'] + "0";
    SplitConcat("", '#', "0");
    NonEmptyPartsConcat([""], ["0"]);
    assert WhereParts("#0") == ["0"];
    DigitsValueZero("0");
  }

  /** `_extract_energy_where`: the event's own WHERE when it is non-empty,
      otherwise derived from the entity key (`18-<where>#...` or `<where>#...`). */
  function ExtractEnergyWhere(where: Option<string>, entity: string): (r: Option<string>)
    ensures where.Some? && where.value != "" ==> r == where
    ensures (where.None? || where.value == "") ==>
              (r.None? <==> entity == "") && (r.Some? ==> '#' !in r.value)
    ensures (where.None? || where.value == "") && StartsWith(entity, "18-") ==>
              r.Some? && r.value <= entity[3..]
    ensures (where.None? || where.value == "") && StartsWith(entity, "18-") ==>
              r == Some(BeforeFirst(entity[3..], '#'))
    ensures (where.None? || where.value == "") && !StartsWith(entity, "18-") && entity != "" ==>
              r == Some(BeforeFirst(entity, '#'))
  {
    if where.Some? && where.value != "" then where
    else if StartsWith(entity, "18-") then
      assert entity == "18" + ['-'] + entity[3..];
      IndexOfConcat("18", '-', entity[3..]);
      Some(BeforeFirst(AfterFirst(entity, '-'), '#'))
    else if entity != "" then Some(BeforeFirst(entity, '#'))
    else None
  }


  /** The entity key of an energy meter, `18-<where>#<suffix>`, yields `<where>`. */
  lemma EnergyWhereFromEntity(w: string, suffix: string)
    requires '#' !in w
    ensures ExtractEnergyWhere(None, "18-" + w + "#" + suffix) == Some(w)
    ensures ExtractEnergyWhere(Some(""), "18-" + w + "#" + suffix) == Some(w)
  {
    var e := "18-" + w + "#" + suffix;
    assert e[..3] == "18-";
    assert e[2..][0] == '-' && e[1..][1..] == e[2..];
    assert IndexOf(e[2..], '-') == 0;
    assert IndexOf(e[1..], '-') == 1;
    assert IndexOf(e, '-') == 2;
    assert AfterFirst(e, '-') == w + "#" + suffix;
    IndexOfConcat(w, '#', suffix);
    assert w + "#" + suffix == w + ['#'] + suffix;
    assert BeforeFirst(w + "#" + suffix, '#') == w;
  }
}
