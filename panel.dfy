/** The discovery panel's data logic
    (custom_components/myhome/frontend/myhome-discovery-panel.js): HTML
    escaping, the default draft of a discovered device, the refresh of the
    drafts from new results, and the requests the import sends. */
module Panel {
  import opened Wrappers
  import opened Strings

  // ---------------------------------------------------------------------------
  // `_esc`
  // ---------------------------------------------------------------------------

  /** `s.replace(/c/g, rep)`. */
  function ReplaceAll(s: string, c: char, rep: string): string
  {
    if |s| == 0 then "" else (if s[0] == c then rep else [s[0]]) + ReplaceAll(s[1..], c, rep)
  }

  /** The replacements of `_esc`, in order: `&` first, so that the `&` of
      the later entities is not escaped again. */
  function EscAmp(s: string): string { ReplaceAll(s, '&', "&amp;") }
  function EscLt(s: string): string { ReplaceAll(EscAmp(s), '<', "&lt;") }
  function EscGt(s: string): string { ReplaceAll(EscLt(s), '>', "&gt;") }
  function EscQuot(s: string): string { ReplaceAll(EscGt(s), '"', "&quot;") }
  function Chain(s: string): string { ReplaceAll(EscQuot(s), '\'', "&#39;") }

  /** `_esc`: `null`/`undefined` (None) become "", then the five
      replacements; the output has no raw markup characters and no stray `&`. */
  function Esc(value: Option<string>): (r: string)
    ensures Escaped(r)
    ensures value.None? ==> r == ""
  {
    var s := if value.Some? then value.value else "";
    ChainIsPerCharacter(s);
    EscapeEachEscaped(s);
    Chain(s)
  }

  /** The same escaping, one character at a time. */
  function EscChar(c: char): string
  {
    if c == '&' then "&amp;"
    else if c == '<' then "&lt;"
    else if c == '>' then "&gt;"
    else if c == '"' then "&quot;"
    else if c == '\'' then "&#39;"
    else [c]
  }

  function EscapeEach(s: string): string
  {
    if |s| == 0 then "" else EscChar(s[0]) + EscapeEach(s[1..])
  }

  lemma {:induction false} ReplaceAllAppend(a: string, b: string, c: char, rep: string)
    ensures ReplaceAll(a + b, c, rep) == ReplaceAll(a, c, rep) + ReplaceAll(b, c, rep)
  {
    if |a| > 0 {
      assert (a + b)[1..] == a[1..] + b;
      ReplaceAllAppend(a[1..], b, c, rep);
    } else {
      assert a + b == b;
    }
  }

  lemma ChainAppend(a: string, b: string)
    ensures Chain(a + b) == Chain(a) + Chain(b)
  {
    ReplaceAllAppend(a, b, '&', "&amp;");
    ReplaceAllAppend(EscAmp(a), EscAmp(b), '<', "&lt;");
    ReplaceAllAppend(EscLt(a), EscLt(b), '>', "&gt;");
    ReplaceAllAppend(EscGt(a), EscGt(b), '"', "&quot;");
    ReplaceAllAppend(EscQuot(a), EscQuot(b), '\'', "&#39;");
  }

  lemma ReplaceAllWithout(s: string, c: char, rep: string)
    requires c !in s
    ensures ReplaceAll(s, c, rep) == s
  {
  }

  lemma ReplaceAllSingle(x: char, c: char, rep: string)
    ensures ReplaceAll([x], c, rep) == if x == c then rep else [x]
  {
    assert [x][1..] == "";
  }

  /** After the replacements of the characters in `done`, a one-character
      string is escaped if its character is among them and unchanged
      otherwise. */
  predicate EscapedUpTo(e: string, c: char, done: string)
  {
    e == if c in done then EscChar(c) else [c]
  }

  lemma ChainStep(e: string, c: char, done: string, d: char, rep: string)
    requires EscapedUpTo(e, c, done)
    requires rep == EscChar(d) && d !in done
    requires done == "" || d == '<' || d == '>' || d == '"' || d == '\''
    requires forall x :: x in done ==> x == '&' || x == '<' || x == '>' || x == '"'
    ensures EscapedUpTo(ReplaceAll(e, d, rep), c, done + [d])
  {
    if c in done {
      ReplaceAllWithout(e, d, rep);
    } else {
      ReplaceAllSingle(c, d, rep);
    }
  }

  lemma ChainOfChar(c: char)
    ensures Chain([c]) == EscChar(c)
  {
    ChainStep([c], c, "", '&', "&amp;");
    ChainStep(EscAmp([c]), c, "&", '<', "&lt;");
    ChainStep(EscLt([c]), c, "&<", '>', "&gt;");
    ChainStep(EscGt([c]), c, "&<>", '"', "&quot;");
    ChainStep(EscQuot([c]), c, "&<>\"", '\'', "&#39;");
  }

  /** The chain of five global replacements escapes each character on its own
      (no replacement introduces a character a later one rewrites). */
  lemma {:induction false} ChainIsPerCharacter(s: string)
    ensures Chain(s) == EscapeEach(s)
  {
    if |s| > 0 {
      assert s == [s[0]] + s[1..];
      ChainAppend([s[0]], s[1..]);
      ChainOfChar(s[0]);
      ChainIsPerCharacter(s[1..]);
    }
  }

  const Entities: seq<string> := ["&amp;", "&lt;", "&gt;", "&quot;", "&#39;"]

  /** What escaped text looks like: no raw `<`, `>`, `"` or `'`, and every `&`
      begins one of the five entities. */
  predicate Escaped(r: string)
  {
    (forall i :: 0 <= i < |r| ==> r[i] != '<' && r[i] != '>' && r[i] != '"' && r[i] != '\'') &&
    forall i :: 0 <= i < |r| && r[i] == '&' ==> exists e :: e in Entities && e <= r[i..]
  }

  lemma EscapedAppend(a: string, b: string)
    requires Escaped(a) && Escaped(b)
    ensures Escaped(a + b)
  {
    var r := a + b;
    forall i | 0 <= i < |r| && r[i] == '&' ensures exists e :: e in Entities && e <= r[i..] {
      if i < |a| {
        var e :| e in Entities && e <= a[i..];
        assert r[i..] == a[i..] + b;
        assert e <= r[i..];
      } else {
        var e :| e in Entities && e <= b[i - |a|..];
        assert r[i..] == b[i - |a|..];
      }
    }
  }

  lemma EscCharEscaped(c: char)
    ensures Escaped(EscChar(c))
  {
    var r := EscChar(c);
    if r in Entities {
      EntityEscaped(r);
    } else {
      assert r == [c];
    }
  }

  /** An entity is escaped text: it starts with its only `&`. */
  lemma EntityEscaped(r: string)
    requires r in Entities
    ensures Escaped(r)
  {
    forall i | 0 <= i < |r|
      ensures r[i] != '<' && r[i] != '>' && r[i] != '"' && r[i] != '\''
      ensures r[i] == '&' ==> i == 0
    {
      EntityChar(r, i);
    }
    assert r[0..] == r;
  }

  lemma EntityChar(r: string, i: int)
    requires r in Entities && 0 <= i < |r|
    ensures r[i] != '<' && r[i] != '>' && r[i] != '"' && r[i] != '\''
    ensures r[i] == '&' ==> i == 0
  {
    if r == "&amp;" {
      assert r[i] in "&amp;";
    } else if r == "&lt;" {
      assert r[i] in "&lt;";
    } else if r == "&gt;" {
      assert r[i] in "&gt;";
    } else if r == "&quot;" {
      assert r[i] in "&quot;";
    } else {
      assert r[i] in "&#39;";
    }
  }

  lemma {:induction false} EscapeEachEscaped(s: string)
    ensures Escaped(EscapeEach(s))
  {
    if |s| > 0 {
      EscCharEscaped(s[0]);
      EscapeEachEscaped(s[1..]);
      EscapedAppend(EscChar(s[0]), EscapeEach(s[1..]));
    }
  }

  /** Reading entities back: the inverse of the escaping. */
  function Unescape(r: string): string
  {
    if |r| == 0 then ""
    else if "&amp;" <= r then "&" + Unescape(r[5..])
    else if "&lt;" <= r then "<" + Unescape(r[4..])
    else if "&gt;" <= r then ">" + Unescape(r[4..])
    else if "&quot;" <= r then "\"" + Unescape(r[6..])
    else if "&#39;" <= r then "'" + Unescape(r[5..])
    else [r[0]] + Unescape(r[1..])
  }

  lemma UnescapeStep(c: char, t: string)
    ensures Unescape(EscChar(c) + t) == [c] + Unescape(t)
  {
    var r := EscChar(c) + t;
    if c == '&' {
      assert "&amp;" <= r && r[5..] == t;
    } else if c == '<' {
      assert r[1] == 'l' && !("&amp;" <= r);
      assert "&lt;" <= r && r[4..] == t;
    } else if c == '>' {
      assert r[1] == 'g' && !("&amp;" <= r) && !("&lt;" <= r);
      assert "&gt;" <= r && r[4..] == t;
    } else if c == '"' {
      assert r[1] == 'q' && !("&amp;" <= r) && !("&lt;" <= r) && !("&gt;" <= r);
      assert "&quot;" <= r && r[6..] == t;
    } else if c == '\'' {
      assert r[1] == '#' && !("&amp;" <= r) && !("&lt;" <= r) && !("&gt;" <= r) && !("&quot;" <= r);
      assert "&#39;" <= r && r[5..] == t;
    } else {
      assert r[0] == c && r[1..] == t;
    }
  }

  /** Escaping loses nothing: reading the entities back gives the text. */
  lemma {:induction false} UnescapeEsc(s: string)
    ensures Unescape(Esc(Some(s))) == s
  {
    ChainIsPerCharacter(s);
    UnescapeEscapeEach(s);
  }

  lemma {:induction false} UnescapeEscapeEach(s: string)
    ensures Unescape(EscapeEach(s)) == s
  {
    if |s| > 0 {
      UnescapeStep(s[0], EscapeEach(s[1..]));
      UnescapeEscapeEach(s[1..]);
      assert s == [s[0]] + s[1..];
    }
  }

  // ---------------------------------------------------------------------------
  // Candidate drafts
  // ---------------------------------------------------------------------------

  /** A discovered device as the panel offers it for import. */
  datatype Candidate = Candidate(
    id: string, selected: bool, platform: string, address: string, key: string, name: string,
    dimmable: Option<bool>, heat: Option<bool>, cool: Option<bool>, fan: Option<bool>,
    standalone: Option<bool>, deviceClass: Option<string>)

  /** `_defaultCandidate`. */
  function DefaultCandidate(platform: string, address: string): (c: Candidate)
    ensures c.id == platform + ":" + address && c.selected
    ensures c.platform == platform && c.address == address
    ensures platform == "light" ==> c.key == "discovered_light_" + address && c.name == "Light " + address &&
                                    c.dimmable == Some(false)
    ensures platform == "cover" ==> c.key == "discovered_cover_" + address && c.name == "Cover " + address
    ensures platform == "climate" ==> c.key == "discovered_climate_" + address && c.name == "Climate " + address &&
                                      c.heat == Some(true) && c.cool == Some(true) && c.fan == Some(true) &&
                                      c.standalone == Some(true)
    ensures platform !in {"light", "cover", "climate"} ==>
              c.key == "discovered_power_" + address && c.name == "Power " + address && c.deviceClass == Some("power")
  {
    var id := platform + ":" + address;
    if platform == "light" then
      Candidate(id, true, platform, address, "discovered_light_" + address, "Light " + address,
                Some(false), None, None, None, None, None)
    else if platform == "cover" then
      Candidate(id, true, platform, address, "discovered_cover_" + address, "Cover " + address,
                None, None, None, None, None, None)
    else if platform == "climate" then
      Candidate(id, true, platform, address, "discovered_climate_" + address, "Climate " + address,
                None, Some(true), Some(true), Some(true), Some(true), None)
    else
      Candidate(id, true, platform, address, "discovered_power_" + address, "Power " + address,
                None, None, None, None, None, Some("power"))
  }

  /** The new addresses of a discovery result (a missing list is empty). */
  datatype NewResults = NewResults(newLight: seq<string>, newCover: seq<string>,
                                   newClimate: seq<string>, newPower: seq<string>)

  /** The drafts after `append(platform, list)`: each address gets its
      previous draft (`previous`) or a default one. */
  function AppendDrafts(next: map<string, Candidate>, previous: map<string, Candidate>, platform: string,
                        addresses: seq<string>): map<string, Candidate>
  {
    if |addresses| == 0 then next
    else
      var front := AppendDrafts(next, previous, platform, addresses[..|addresses| - 1]);
      var address := addresses[|addresses| - 1];
      var id := platform + ":" + address;
      front[id := if id in previous then previous[id] else DefaultCandidate(platform, address)]
  }

  /** The drafts a refresh produces from a result. */
  function RefreshedDrafts(previous: map<string, Candidate>, r: NewResults): map<string, Candidate>
  {
    var n1 := AppendDrafts(map[], previous, "light", r.newLight);
    var n2 := AppendDrafts(n1, previous, "cover", r.newCover);
    var n3 := AppendDrafts(n2, previous, "climate", r.newClimate);
    AppendDrafts(n3, previous, "sensor", r.newPower)
  }

  /** `platform:address` for some address of the list. */
  predicate OfferedBy(platform: string, addresses: seq<string>, id: string)
  {
    exists a :: a in addresses && id == platform + ":" + a
  }

  /** The ids a result offers. */
  predicate Offers(r: NewResults, id: string)
  {
    OfferedBy("light", r.newLight, id) || OfferedBy("cover", r.newCover, id) ||
    OfferedBy("climate", r.newClimate, id) || OfferedBy("sensor", r.newPower, id)
  }

  /** A draft made by a refresh from scratch: the default of its own
      platform and address. */
  predicate FreshDraft(c: Candidate, id: string)
  {
    c.id == id && c == DefaultCandidate(c.platform, c.address) &&
    c.platform in {"light", "cover", "climate", "sensor"}
  }

  /** Every draft in `next` is either the previous one under the same id or
      a fresh default. */
  predicate DraftsFrom(next: map<string, Candidate>, previous: map<string, Candidate>)
  {
    forall id :: id in next ==>
      (id in previous ==> next[id] == previous[id]) && (id !in previous ==> FreshDraft(next[id], id))
  }

  lemma {:induction false} AppendDraftsSpec(next: map<string, Candidate>, previous: map<string, Candidate>,
                                            platform: string, addresses: seq<string>)
    requires platform in {"light", "cover", "climate", "sensor"}
    requires DraftsFrom(next, previous)
    ensures forall id :: id in AppendDrafts(next, previous, platform, addresses) <==>
              id in next || OfferedBy(platform, addresses, id)
    ensures DraftsFrom(AppendDrafts(next, previous, platform, addresses), previous)
  {
    if |addresses| > 0 {
      var front := addresses[..|addresses| - 1];
      var address := addresses[|addresses| - 1];
      var id := platform + ":" + address;
      AppendDraftsSpec(next, previous, platform, front);
      OfferedBySnoc(platform, addresses);
      if id !in previous {
        DefaultIsFresh(platform, address);
      }
      DraftsFromUpdate(AppendDrafts(next, previous, platform, front), previous, id,
                       if id in previous then previous[id] else DefaultCandidate(platform, address));
    }
  }

  lemma OfferedBySnoc(platform: string, addresses: seq<string>)
    requires |addresses| > 0
    ensures forall id :: OfferedBy(platform, addresses, id) <==>
              OfferedBy(platform, addresses[..|addresses| - 1], id) || id == platform + ":" + addresses[|addresses| - 1]
  {
    assert forall a :: a in addresses <==> a in addresses[..|addresses| - 1] || a == addresses[|addresses| - 1];
  }

  lemma DefaultIsFresh(platform: string, address: string)
    requires platform in {"light", "cover", "climate", "sensor"}
    ensures FreshDraft(DefaultCandidate(platform, address), platform + ":" + address)
  {
  }

  lemma DraftsFromUpdate(next: map<string, Candidate>, previous: map<string, Candidate>, id: string, c: Candidate)
    requires DraftsFrom(next, previous)
    requires id in previous ==> c == previous[id]
    requires id !in previous ==> FreshDraft(c, id)
    ensures DraftsFrom(next[id := c], previous)
  {
  }

  /** Refreshing offers exactly the result's ids, keeps the draft of every id
      still offered and starts every other one from its default. */
  lemma RefreshedDraftsSpec(previous: map<string, Candidate>, r: NewResults)
    ensures forall id :: id in RefreshedDrafts(previous, r) <==> Offers(r, id)
    ensures DraftsFrom(RefreshedDrafts(previous, r), previous)
  {
    var n1 := AppendDrafts(map[], previous, "light", r.newLight);
    var n2 := AppendDrafts(n1, previous, "cover", r.newCover);
    var n3 := AppendDrafts(n2, previous, "climate", r.newClimate);
    AppendDraftsSpec(map[], previous, "light", r.newLight);
    AppendDraftsSpec(n1, previous, "cover", r.newCover);
    AppendDraftsSpec(n2, previous, "climate", r.newClimate);
    AppendDraftsSpec(n3, previous, "sensor", r.newPower);
  }

  /** `append(platform, list)`: one loop over the addresses. */
  method AppendCandidates(next: map<string, Candidate>, previous: map<string, Candidate>, platform: string,
                          addresses: seq<string>) returns (r: map<string, Candidate>)
    ensures r == AppendDrafts(next, previous, platform, addresses)
  {
    r := next;
    var i := 0;
    while i < |addresses|
      invariant 0 <= i <= |addresses|
      invariant r == AppendDrafts(next, previous, platform, addresses[..i])
    {
      assert addresses[..i + 1][..i] == addresses[..i];
      var id := platform + ":" + addresses[i];
      r := r[id := if id in previous then previous[id] else DefaultCandidate(platform, addresses[i])];
      i := i + 1;
    }
    assert addresses[..i] == addresses;
  }

  // ---------------------------------------------------------------------------
  // Import of the selected candidates
  // ---------------------------------------------------------------------------

  /** The body posted to `myhome/configuration/device` for one candidate;
      absent members are None. */
  datatype DeviceBody = DeviceBody(
    gateway: string, platform: string, key: string, name: string,
    zone: Option<string>, where: Option<string>,
    heat: Option<bool>, cool: Option<bool>, fan: Option<bool>, standalone: Option<bool>,
    dimmable: Option<bool>, deviceClass: Option<string>)

  /** `!!value` for an optional flag. */
  function Truthy(b: Option<bool>): bool { b == Some(true) }

  function ImportBody(gateway: string, c: Candidate): (b: DeviceBody)
    ensures b.gateway == gateway && b.platform == c.platform && b.key == c.key && b.name == c.name
    ensures c.platform == "climate" <==> b.zone.Some?
    ensures c.platform == "climate" ==>
              (b.zone == Some(c.address) && b.where.None? &&
               b.heat == Some(Truthy(c.heat)) && b.cool == Some(Truthy(c.cool)) &&
               b.fan == Some(Truthy(c.fan)) && b.standalone == Some(Truthy(c.standalone)))
    ensures c.platform != "climate" ==>
              (b.where == Some(c.address) && b.heat.None? && b.cool.None? && b.fan.None? && b.standalone.None?)
    ensures b.dimmable.Some? <==> c.platform == "light"
    ensures c.platform == "light" ==> b.dimmable == Some(Truthy(c.dimmable))
    ensures b.deviceClass.Some? <==> c.platform == "sensor"
    ensures c.platform == "sensor" ==>
              (b.deviceClass.value != "" &&
               (c.deviceClass.Some? && c.deviceClass.value != "" ==> b.deviceClass == c.deviceClass))
    ensures c.platform == "sensor" && (c.deviceClass.None? || c.deviceClass == Some("")) ==>
              b.deviceClass == Some("power")
  {
    var climate := c.platform == "climate";
    DeviceBody(
      gateway, c.platform, c.key, c.name,
      if climate then Some(c.address) else None,
      if climate then None else Some(c.address),
      if climate then Some(Truthy(c.heat)) else None,
      if climate then Some(Truthy(c.cool)) else None,
      if climate then Some(Truthy(c.fan)) else None,
      if climate then Some(Truthy(c.standalone)) else None,
      if c.platform == "light" then Some(Truthy(c.dimmable)) else None,
      if c.platform == "sensor" then
        (if c.deviceClass.Some? && c.deviceClass.value != "" then c.deviceClass else Some("power"))
      else None)
  }

  function Selected(entries: seq<Candidate>): (r: seq<Candidate>)
    ensures |r| <= |entries|
    ensures forall c :: c in r <==> c in entries && c.selected
  {
    if |entries| == 0 then []
    else Selected(entries[..|entries| - 1]) + (if entries[|entries| - 1].selected then [entries[|entries| - 1]] else [])
  }

  function Bodies(gateway: string, candidates: seq<Candidate>): (r: seq<DeviceBody>)
    ensures |r| == |candidates|
    ensures forall i :: 0 <= i < |r| ==> r[i] == ImportBody(gateway, candidates[i])
  {
    seq(|candidates|, i requires 0 <= i < |candidates| => ImportBody(gateway, candidates[i]))
  }

  /** The error text of one failed request: `err?.body?.message ||
      err?.message || "error"`, given as the server's message. */
  function FailureLine(c: Candidate, message: string): string
  {
    c.platform + ":" + c.address + " -> " + (if message == "" then "error" else message)
  }

  /** The failure lines of a run, in request order. */
  function Failures(candidates: seq<Candidate>, bodies: seq<DeviceBody>, respond: DeviceBody -> Option<string>): seq<string>
    requires |bodies| == |candidates|
  {
    if |candidates| == 0 then []
    else
      var n := |candidates| - 1;
      Failures(candidates[..n], bodies[..n], respond) +
        (if respond(bodies[n]).Some? then [FailureLine(candidates[n], respond(bodies[n]).value)] else [])
  }

  /** How many requests succeeded. */
  function Successes(bodies: seq<DeviceBody>, respond: DeviceBody -> Option<string>): nat
  {
    if |bodies| == 0 then 0
    else Successes(bodies[..|bodies| - 1], respond) + (if respond(bodies[|bodies| - 1]).None? then 1 else 0)
  }

  lemma {:induction false} OutcomesAddUp(candidates: seq<Candidate>, bodies: seq<DeviceBody>,
                                         respond: DeviceBody -> Option<string>)
    requires |bodies| == |candidates|
    ensures Successes(bodies, respond) + |Failures(candidates, bodies, respond)| == |bodies|
  {
    if |candidates| > 0 {
      var n := |candidates| - 1;
      OutcomesAddUp(candidates[..n], bodies[..n], respond);
    }
  }

  lemma {:induction false} AllAcceptedNoFailures(candidates: seq<Candidate>, bodies: seq<DeviceBody>,
                                                 respond: DeviceBody -> Option<string>)
    requires |bodies| == |candidates|
    ensures (forall b :: b in bodies ==> respond(b).None?) <==> Failures(candidates, bodies, respond) == []
  {
    if |candidates| > 0 {
      var n := |candidates| - 1;
      AllAcceptedNoFailures(candidates[..n], bodies[..n], respond);
      assert forall b :: b in bodies <==> b in bodies[..n] || b == bodies[n];
    }
  }

  /** The panel's state that these operations read and write. */
  class DiscoveryPanel {
    var result: Option<NewResults>
    var drafts: map<string, Candidate>
    var notice: string
    var error: string

    constructor()
      ensures result.None? && drafts == map[] && notice == "" && error == ""
    {
      result := None;
      drafts := map[];
      notice := "";
      error := "";
    }

    /** `_refreshCandidateDrafts`. */
    method RefreshCandidateDrafts()
      modifies this`drafts
      ensures result.None? ==> drafts == map[]
      ensures result.Some? ==> drafts == RefreshedDrafts(old(drafts), result.value)
    {
      if result.None? {
        drafts := map[];
        return;
      }
      var r := result.value;
      var next := AppendCandidates(map[], drafts, "light", r.newLight);
      next := AppendCandidates(next, drafts, "cover", r.newCover);
      next := AppendCandidates(next, drafts, "climate", r.newClimate);
      next := AppendCandidates(next, drafts, "sensor", r.newPower);
      drafts := next;
    }

    /** `_importSelectedCandidates` over the candidate entries in display
        order; `respond` stands for the server's answer to one request (None
        when it is accepted, the error message otherwise). Returns the bodies
        posted, in order. */
    method ImportSelectedCandidates(gateway: string, entries: seq<Candidate>,
                                    respond: DeviceBody -> Option<string>) returns (posted: seq<DeviceBody>)
      modifies this`notice, this`error
      ensures gateway == "" ==> posted == [] && notice == old(notice) && error == old(error)
      ensures gateway != "" && Selected(entries) == [] ==>
                posted == [] && notice == "No selected devices to import." && error == ""
      ensures gateway != "" && Selected(entries) != [] ==>
                posted == Bodies(gateway, Selected(entries)) &&
                var imported := Successes(posted, respond);
                var failures := Failures(Selected(entries), posted, respond);
                notice == (if imported > 0 then "Import completed: " + NatToString(imported) + " devices." else "") &&
                error == (if failures != [] then "Partial import. Errors: " + Join(failures, " | ") else "")
    {
      posted := [];
      if gateway == "" {
        return;
      }
      var selected := SelectEntries(entries);
      if |selected| == 0 {
        notice := "No selected devices to import.";
        error := "";
        return;
      }
      error := "";
      notice := "";
      var imported: nat;
      var failures: seq<string>;
      posted, imported, failures := PostAll(gateway, selected, respond);
      if imported > 0 {
        notice := "Import completed: " + NatToString(imported) + " devices.";
      }
      if |failures| > 0 {
        error := "Partial import. Errors: " + Join(failures, " | ");
      }
    }
  }

  /** The request loop: one post per selected candidate, counting the
      accepted ones and collecting a line per failure. */
  method PostAll(gateway: string, selected: seq<Candidate>, respond: DeviceBody -> Option<string>)
    returns (posted: seq<DeviceBody>, imported: nat, failures: seq<string>)
    ensures posted == Bodies(gateway, selected)
    ensures imported == Successes(posted, respond)
    ensures failures == Failures(selected, posted, respond)
  {
    posted, imported, failures := [], 0, [];
    var i := 0;
    while i < |selected|
      invariant 0 <= i <= |selected|
      invariant posted == Bodies(gateway, selected[..i])
      invariant imported == Successes(posted, respond)
      invariant failures == Failures(selected[..i], posted, respond)
    {
      PostStep(gateway, selected, i, respond);
      var body := ImportBody(gateway, selected[i]);
      var answer := respond(body);
      posted := posted + [body];
      if answer.None? {
        imported := imported + 1;
      } else {
        failures := failures + [FailureLine(selected[i], answer.value)];
      }
      i := i + 1;
    }
    assert selected[..i] == selected;
  }

  /** One more request: its body is appended, and it counts as a success or
      adds its failure line. */
  lemma PostStep(gateway: string, selected: seq<Candidate>, i: nat, respond: DeviceBody -> Option<string>)
    requires i < |selected|
    ensures var before := Bodies(gateway, selected[..i]);
            var body := ImportBody(gateway, selected[i]);
            var after := Bodies(gateway, selected[..i + 1]);
            after == before + [body] &&
            Successes(after, respond) == Successes(before, respond) + (if respond(body).None? then 1 else 0) &&
            Failures(selected[..i + 1], after, respond) ==
              Failures(selected[..i], before, respond) +
                (if respond(body).Some? then [FailureLine(selected[i], respond(body).value)] else [])
  {
    var before := Bodies(gateway, selected[..i]);
    var after := Bodies(gateway, selected[..i + 1]);
    assert after == before + [ImportBody(gateway, selected[i])];
    assert selected[..i + 1][..i] == selected[..i];
    assert after[..i] == before;
  }

  /** `.filter((entry) => entry.selected)`. */
  method SelectEntries(entries: seq<Candidate>) returns (selected: seq<Candidate>)
    ensures selected == Selected(entries)
  {
    selected := [];
    var i := 0;
    while i < |entries|
      invariant 0 <= i <= |entries|
      invariant selected == Selected(entries[..i])
    {
      assert entries[..i + 1][..i] == entries[..i];
      if entries[i].selected {
        selected := selected + [entries[i]];
      }
      i := i + 1;
    }
    assert entries[..i] == entries;
  }
}
