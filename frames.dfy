/** Raw-frame recognisers of the gateway handler (custom_components/myhome/gateway.py):
    the WHO=4 dimension 20 (valve position) frame that the message library
    does not decode, and the signature `*[#]who*where[*[#]dimension]` used to
    group unsupported frames for rate-limited logging. Both regular
    expressions are anchored at the start and are deterministic, so each is
    modelled as a direct scan. */
module Frames {
  import opened Wrappers
  import opened Strings

  // ---------------------------------------------------------------------------
  // `^\*#4\*(?P<where>[^*]+)\*\#20\*(?P<value>\d{1,3})##$`
  // ---------------------------------------------------------------------------

  datatype Dim20Frame = Dim20Frame(where: string, digits: string)

  predicate IsDim20Where(w: string) { w != [] && '*' !in w }

  predicate IsDim20Digits(d: string) { 1 <= |d| <= 3 && IsDigits(d) }

  /** The frame a zone's actuator sends to report its valve opening. */
  function Dim20Text(where: string, digits: string): string
  {
    "*#4*" + where + "*#20*" + digits + "##"
  }

  /** Drops one newline at the very end, which `$` accepts. */
  function DropFinalNewline(b: string): (r: string)
    ensures b == r || b == r + "\n"
  {
    if |b| > 0 && b[|b| - 1] == '\n' then b[..|b| - 1] else b
  }

  /** `\d{1,3}##$` on what follows `*#20*`: the digits, if it matches. */
  function Dim20Body(b: string): (r: Option<string>)
    ensures r.Some? ==> IsDim20Digits(r.value) && (b == r.value + "##" || b == r.value + "##\n")
  {
    var body := DropFinalNewline(b);
    if |body| >= 2 && body[|body| - 2..] == "##" && IsDim20Digits(body[..|body| - 2]) then
      assert body == body[..|body| - 2] + "##";
      Some(body[..|body| - 2])
    else None
  }

  /** `\*\#20\*` and the rest, on what follows the zone address. */
  function Dim20Tail(t: string): (r: Option<string>)
    ensures r.Some? ==> IsDim20Digits(r.value) && (t == "#20*" + r.value + "##" || t == "#20*" + r.value + "##\n")
  {
    if |t| >= 4 && t[..4] == "#20*" then
      assert t == "#20*" + t[4..];
      Dim20Body(t[4..])
    else None
  }

  /** `\*#4\*(?P<where>[^*]+)\*`: the zone address and what follows its
      closing `*`. */
  function Dim20Parts(raw: string): (r: Option<(string, string)>)
    ensures r.Some? ==> IsDim20Where(r.value.0) && raw == "*#4*" + r.value.0 + "*" + r.value.1
  {
    if |raw| < 4 || raw[..4] != "*#4*" then None
    else
      var rest := raw[4..];
      var k := IndexOf(rest, '*');
      if k == 0 || k == |rest| then None
      else
        Dim20Split(raw, k);
        assert '*' !in rest[..k];
        Some((rest[..k], rest[k + 1..]))
  }

  /** The pattern's match. */
  function ParseDim20(raw: string): (r: Option<Dim20Frame>)
    ensures r.Some? ==> IsDim20Where(r.value.where) && IsDim20Digits(r.value.digits)
  {
    match Dim20Parts(raw)
    case None => None
    case Some((where, tail)) =>
      match Dim20Tail(tail)
      case Some(d) => Some(Dim20Frame(where, d))
      case None => None
  }

  /** The valve position carried by a frame: at most 999, by construction. */
  function Dim20Value(f: Dim20Frame): (v: nat)
    requires IsDim20Digits(f.digits)
    ensures v <= 999
  {
    DigitsValueBound(f.digits);
    DigitsValue(f.digits)
  }

  lemma {:induction false} DigitsValueBound(s: string)
    requires AllDigits(s) && |s| <= 3
    ensures DigitsValue(s) < (if |s| == 0 then 1 else if |s| == 1 then 10 else if |s| == 2 then 100 else 1000)
  {
    if |s| > 0 {
      DigitsValueBound(s[..|s| - 1]);
    }
  }

  /** Everything the parser accepts is a dimension 20 frame, optionally
      followed by one newline. */
  lemma ParseDim20Sound(raw: string)
    requires ParseDim20(raw).Some?
    ensures var f := ParseDim20(raw).value;
            raw == Dim20Text(f.where, f.digits) || raw == Dim20Text(f.where, f.digits) + "\n"
  {
    var (where, tail) := Dim20Parts(raw).value;
    Dim20Assemble(where, Dim20Tail(tail).value, tail);
  }

  lemma Dim20Split(raw: string, k: nat)
    requires |raw| >= 4 && raw[..4] == "*#4*" && 0 < k < |raw| - 4 && raw[4..][k] == '*'
    ensures raw == "*#4*" + raw[4..][..k] + "*" + raw[4..][k + 1..]
  {
    var rest := raw[4..];
    assert raw == raw[..4] + rest;
    assert rest == rest[..k] + [rest[k]] + rest[k + 1..];
  }

  lemma Dim20Assemble(w: string, d: string, t: string)
    requires t == "#20*" + d + "##" || t == "#20*" + d + "##\n"
    ensures "*#4*" + w + "*" + t == Dim20Text(w, d) || "*#4*" + w + "*" + t == Dim20Text(w, d) + "\n"
  {
    assert "*#20*" == "*" + "#20*";
    if t == "#20*" + d + "##" {
      assert "*" + t == "*#20*" + d + "##";
      assert "*#4*" + w + "*" + t == ("*#4*" + w) + ("*" + t);
    } else {
      assert "*" + t == "*#20*" + d + "##" + "\n";
      assert "*#4*" + w + "*" + t == ("*#4*" + w) + ("*" + t);
    }
  }

  lemma Dim20TailOf(digits: string, nl: string)
    requires IsDim20Digits(digits)
    requires nl == "" || nl == "\n"
    ensures Dim20Tail("#20*" + digits + "##" + nl) == Some(digits)
  {
    var t := "#20*" + digits + "##" + nl;
    assert t[..4] == "#20*";
    assert t[4..] == digits + "##" + nl;
    assert DropFinalNewline(digits + "##" + nl) == digits + "##";
    var body := digits + "##";
    assert body[|body| - 2..] == "##" && body[..|body| - 2] == digits;
  }

  /** Every dimension 20 frame, with or without a final newline, is accepted
      with its own zone address and digits. */
  lemma ParseDim20Complete(where: string, digits: string, nl: string)
    requires IsDim20Where(where) && IsDim20Digits(digits)
    requires nl == "" || nl == "\n"
    ensures ParseDim20(Dim20Text(where, digits) + nl) == Some(Dim20Frame(where, digits))
  {
    var raw := Dim20Text(where, digits) + nl;
    var t := "#20*" + digits + "##" + nl;
    assert raw[..4] == "*#4*";
    var rest := raw[4..];
    assert rest == where + ['*'] + t;
    IndexOfConcat(where, '*', t);
    assert rest[..|where|] == where;
    assert rest[|where| + 1..] == t;
    assert Dim20Parts(raw) == Some((where, t));
    Dim20TailOf(digits, nl);
  }


  // ---------------------------------------------------------------------------
  // `^\*#?(?P<who>\d+)\*(?P<where>[^*#]+)(?:\*\#?(?P<dimension>\d+))?`
  // ---------------------------------------------------------------------------

  datatype Signature = Signature(who: string, where: string, dimension: Option<string>)

  predicate IsAddressChar(c: char) { c != '*' && c != '#' }

  /** End of the longest run of digits in `s` from `i`. */
  function DigitRunEnd(s: string, i: nat): (e: nat)
    requires i <= |s|
    ensures i <= e <= |s|
    ensures forall k :: i <= k < e ==> IsDigit(s[k])
    ensures e < |s| ==> !IsDigit(s[e])
    decreases |s| - i
  {
    if i < |s| && IsDigit(s[i]) then DigitRunEnd(s, i + 1) else i
  }

  /** End of the longest run of address characters (neither `*` nor `#`) in `s` from `i`. */
  function AddressRunEnd(s: string, i: nat): (e: nat)
    requires i <= |s|
    ensures i <= e <= |s|
    ensures forall k :: i <= k < e ==> IsAddressChar(s[k])
    ensures e < |s| ==> !IsAddressChar(s[e])
    decreases |s| - i
  {
    if i < |s| && IsAddressChar(s[i]) then AddressRunEnd(s, i + 1) else i
  }

  /** The optional `*[#]digits` group at position `i`. */
  function DimensionAt(s: string, i: nat): (r: Option<string>)
    requires i <= |s|
    ensures r.Some? ==> IsDigits(r.value)
  {
    if i < |s| && s[i] == '*' then
      var d0 := if i + 1 < |s| && s[i + 1] == '#' then i + 2 else i + 1;
      var d1 := DigitRunEnd(s, d0);
      if d1 == d0 then None else Some(s[d0..d1])
    else None
  }

  function ParseSignature(raw: string): (r: Option<Signature>)
    ensures r.Some? ==> IsDigits(r.value.who) && r.value.where != [] &&
                        (forall k :: 0 <= k < |r.value.where| ==> IsAddressChar(r.value.where[k])) &&
                        (r.value.dimension.Some? ==> IsDigits(r.value.dimension.value))
  {
    if |raw| == 0 || raw[0] != '*' then None
    else
      var w0 := if |raw| > 1 && raw[1] == '#' then 2 else 1;
      var w1 := DigitRunEnd(raw, w0);
      if w1 == w0 || w1 == |raw| || raw[w1] != '*' then None
      else
        var a1 := AddressRunEnd(raw, w1 + 1);
        if a1 == w1 + 1 then None
        else
          var who, where := raw[w0..w1], raw[w1 + 1..a1];
          assert IsDigits(who) by {
            forall k | 0 <= k < |who| ensures IsDigit(who[k]) { assert who[k] == raw[w0 + k]; }
          }
          assert forall k :: 0 <= k < |where| ==> IsAddressChar(where[k]) by {
            forall k | 0 <= k < |where| ensures IsAddressChar(where[k]) { assert where[k] == raw[w1 + 1 + k]; }
          }
          Some(Signature(who, where, DimensionAt(raw, a1)))
  }

  function Min(a: int, b: int): int { if a < b then a else b }

  /** The rate-limiting key of an unsupported frame. */
  function UnsupportedKey(raw: string): (key: string)
    ensures "unsupported_" <= key
  {
    match ParseSignature(raw)
    case Some(sig) =>
      "unsupported_who" + sig.who + "_where" + sig.where + "_dim" + sig.dimension.GetOr("na")
    case None => "unsupported_" + raw[..Min(30, |raw|)]
  }

  /** A frame whose signature does not parse is keyed by its first 30
      characters, so two such frames that agree on those share a key. */
  lemma UnsupportedKeyFallback(raw: string, other: string)
    requires ParseSignature(raw).None? && ParseSignature(other).None?
    requires |raw| >= 30 && |other| >= 30 && raw[..30] == other[..30]
    ensures UnsupportedKey(raw) == UnsupportedKey(other)
    ensures |UnsupportedKey(raw)| == 42 && UnsupportedKey(raw)[12..] <= raw
  {
  }

  /** Text that is not a `*`-frame at all is keyed by itself when short. */
  lemma UnsupportedKeyOfText(raw: string)
    requires |raw| <= 30 && (raw == [] || raw[0] != '*')
    ensures UnsupportedKey(raw) == "unsupported_" + raw
  {
    assert raw[..|raw|] == raw;
  }

  lemma {:induction false} DigitRunEndAt(s: string, i: nat, j: nat)
    requires i <= j <= |s|
    requires forall k :: i <= k < j ==> IsDigit(s[k])
    requires j == |s| || !IsDigit(s[j])
    ensures DigitRunEnd(s, i) == j
    decreases j - i
  {
    if i < j {
      DigitRunEndAt(s, i + 1, j);
    }
  }

  lemma {:induction false} AddressRunEndAt(s: string, i: nat, j: nat)
    requires i <= j <= |s|
    requires forall k :: i <= k < j ==> IsAddressChar(s[k])
    requires j == |s| || !IsAddressChar(s[j])
    ensures AddressRunEnd(s, i) == j
    decreases j - i
  {
    if i < j {
      AddressRunEndAt(s, i + 1, j);
    }
  }

  /** `*[#]who*where` with an optional `*[#]dimension`. */
  function SignatureText(who: string, where: string, whoHash: bool, dimHash: bool,
                         dimension: Option<string>): string
  {
    "*" + (if whoHash then "#" else "") + who + "*" + where + DimensionText(dimHash, dimension)
  }

  lemma Middle(a: string, b: string, c: string)
    ensures |a| + |b| <= |a + b + c|
    ensures (a + b + c)[|a|..|a| + |b|] == b
    ensures |c| > 0 ==> (a + b + c)[|a| + |b|] == c[0]
  {
  }

  lemma DigitRunOf(pre: string, body: string, post: string)
    requires AllDigits(body)
    requires post == [] || !IsDigit(post[0])
    ensures DigitRunEnd(pre + body + post, |pre|) == |pre| + |body|
  {
    var s := pre + body + post;
    Middle(pre, body, post);
    forall k | |pre| <= k < |pre| + |body| ensures IsDigit(s[k]) {
      assert s[k] == body[k - |pre|];
    }
    DigitRunEndAt(s, |pre|, |pre| + |body|);
  }

  lemma AddressRunOf(pre: string, body: string, post: string)
    requires forall k :: 0 <= k < |body| ==> IsAddressChar(body[k])
    requires post == [] || !IsAddressChar(post[0])
    ensures AddressRunEnd(pre + body + post, |pre|) == |pre| + |body|
  {
    var s := pre + body + post;
    Middle(pre, body, post);
    forall k | |pre| <= k < |pre| + |body| ensures IsAddressChar(s[k]) {
      assert s[k] == body[k - |pre|];
    }
    AddressRunEndAt(s, |pre|, |pre| + |body|);
  }

  /** `*[#]digits` at the end of `pre`, followed by `post`. */
  lemma DimensionOf(pre: string, dimHash: bool, d: string, post: string)
    requires IsDigits(d)
    requires post == [] || !IsDigit(post[0])
    ensures DimensionAt(pre + ("*" + (if dimHash then "#" else "") + d) + post, |pre|) == Some(d)
  {
    var dh := if dimHash then "#" else "";
    var s := pre + ("*" + dh + d) + post;
    assert s == (pre + "*" + dh) + d + post;
    assert s[|pre|] == '*';
    assert |pre| + 1 < |s|;
    assert s[|pre| + 1] == (if dimHash then '#' else d[0]);
    DigitRunOf(pre + "*" + dh, d, post);
    Middle(pre + "*" + dh, d, post);
  }

  /** The `*[#]who` head of a frame whose next character is `*`. */
  lemma WhoOf(whoHash: bool, who: string, rest: string)
    requires IsDigits(who) && |rest| > 0 && rest[0] == '*'
    ensures var pre := "*" + (if whoHash then "#" else "");
            var raw := pre + who + rest;
            raw[0] == '*' &&
            |pre| == (if |raw| > 1 && raw[1] == '#' then 2 else 1) &&
            DigitRunEnd(raw, |pre|) == |pre| + |who| && raw[|pre| + |who|] == '*' &&
            raw[|pre|..|pre| + |who|] == who
  {
    var pre := "*" + (if whoHash then "#" else "");
    var raw := pre + who + rest;
    assert |raw| > 1 && raw[1] == (if whoHash then '#' else who[0]);
    DigitRunOf(pre, who, rest);
    Middle(pre, who, rest);
  }

  /** What follows the address: the dimension group, if any, then the payload. */
  lemma DimensionTailOf(raw: string, head: string, dimHash: bool, dimension: Option<string>, payload: string,
                        i: nat)
    requires raw == head + DimensionText(dimHash, dimension) + payload && i == |head|
    requires dimension.Some? ==> IsDigits(dimension.value)
    requires dimension.Some? ==> payload == [] || !IsDigit(payload[0])
    requires dimension.None? ==> payload == [] || payload[0] == '#'
    ensures i <= |raw| && DimensionAt(raw, i) == dimension
  {
    match dimension {
      case Some(d) =>
        DimensionOf(head, dimHash, d, payload);
      case None =>
        assert raw == head + payload;
    }
  }

  /** Frames that differ only in what follows the signature (values, times,
      dates) share one key; a missing dimension is keyed as `na`. */
  lemma UnsupportedKeyIgnoresPayload(who: string, where: string, whoHash: bool, dimHash: bool,
                                     dimension: Option<string>, payload: string)
    requires IsDigits(who) && where != [] && forall k :: 0 <= k < |where| ==> IsAddressChar(where[k])
    requires dimension.Some? ==> IsDigits(dimension.value)
    requires dimension.Some? ==> payload == [] || !IsDigit(payload[0])
    requires dimension.None? ==> payload == [] || payload[0] == '#'
    ensures UnsupportedKey(SignatureText(who, where, whoHash, dimHash, dimension) + payload) ==
              "unsupported_who" + who + "_where" + where + "_dim" + dimension.GetOr("na")
  {
    SignatureParsed(who, where, whoHash, dimHash, dimension, payload);
  }

  /** The signature of a frame is read back from its text. */
  lemma SignatureParsed(who: string, where: string, whoHash: bool, dimHash: bool,
                        dimension: Option<string>, payload: string)
    requires IsDigits(who) && where != [] && forall k :: 0 <= k < |where| ==> IsAddressChar(where[k])
    requires dimension.Some? ==> IsDigits(dimension.value)
    requires dimension.Some? ==> payload == [] || !IsDigit(payload[0])
    requires dimension.None? ==> payload == [] || payload[0] == '#'
    ensures ParseSignature(SignatureText(who, where, whoHash, dimHash, dimension) + payload) ==
              Some(Signature(who, where, dimension))
  {
    var raw := SignatureText(who, where, whoHash, dimHash, dimension) + payload;
    var w0 := if whoHash then 2 else 1;
    var w1 := w0 + |who|;
    var a1 := w1 + 1 + |where|;
    SignatureWho(raw, who, where, whoHash, dimHash, dimension, payload, w0, w1);
    SignatureWhere(raw, who, where, whoHash, dimHash, dimension, payload, w1, a1);
    SignatureDimension(raw, who, where, whoHash, dimHash, dimension, payload, a1);
    ParseSignatureAt(raw, w0, w1, a1, Signature(who, where, dimension));
  }

  /** The text after the address: the dimension group and the payload. */
  function DimensionText(dimHash: bool, dimension: Option<string>): string
  {
    match dimension
    case Some(d) => "*" + (if dimHash then "#" else "") + d
    case None => ""
  }

  lemma SignatureWho(raw: string, who: string, where: string, whoHash: bool, dimHash: bool,
                     dimension: Option<string>, payload: string, w0: nat, w1: nat)
    requires raw == SignatureText(who, where, whoHash, dimHash, dimension) + payload
    requires w0 == (if whoHash then 2 else 1) && w1 == w0 + |who|
    requires IsDigits(who)
    ensures raw[0] == '*' && w0 == (if |raw| > 1 && raw[1] == '#' then 2 else 1)
    ensures w0 <= |raw| && DigitRunEnd(raw, w0) == w1 && w0 < w1 < |raw| && raw[w1] == '*'
    ensures raw[w0..w1] == who
  {
    var pre := "*" + (if whoHash then "#" else "");
    var rest := "*" + where + (DimensionText(dimHash, dimension) + payload);
    SignatureLayout(pre, who, where, DimensionText(dimHash, dimension), payload);
    WhoOf(whoHash, who, rest);
  }

  lemma SignatureWhere(raw: string, who: string, where: string, whoHash: bool, dimHash: bool,
                       dimension: Option<string>, payload: string, w1: nat, a1: nat)
    requires raw == SignatureText(who, where, whoHash, dimHash, dimension) + payload
    requires w1 == (if whoHash then 2 else 1) + |who| && a1 == w1 + 1 + |where|
    requires forall k :: 0 <= k < |where| ==> IsAddressChar(where[k])
    requires dimension.Some? ==> IsDigits(dimension.value)
    requires dimension.None? ==> payload == [] || payload[0] == '#'
    ensures w1 + 1 <= a1 <= |raw| && AddressRunEnd(raw, w1 + 1) == a1
    ensures raw[w1 + 1..a1] == where
  {
    var pre := "*" + (if whoHash then "#" else "");
    var dimText := DimensionText(dimHash, dimension);
    var rest2 := dimText + payload;
    var mid := pre + who + "*";
    SignatureLayout(pre, who, where, dimText, payload);
    assert rest2 == [] || !IsAddressChar(rest2[0]) by {
      if dimension.Some? {
        assert rest2[0] == '*';
      } else {
        assert rest2 == payload;
      }
    }
    AddressRunOf(mid, where, rest2);
    Middle(mid, where, rest2);
  }

  lemma SignatureDimension(raw: string, who: string, where: string, whoHash: bool, dimHash: bool,
                           dimension: Option<string>, payload: string, a1: nat)
    requires raw == SignatureText(who, where, whoHash, dimHash, dimension) + payload
    requires a1 == (if whoHash then 2 else 1) + |who| + 1 + |where|
    requires dimension.Some? ==> IsDigits(dimension.value)
    requires dimension.Some? ==> payload == [] || !IsDigit(payload[0])
    requires dimension.None? ==> payload == [] || payload[0] == '#'
    ensures a1 <= |raw| && DimensionAt(raw, a1) == dimension
  {
    var pre := "*" + (if whoHash then "#" else "");
    var dimText := DimensionText(dimHash, dimension);
    var head := pre + who + "*" + where;
    SignatureLayout(pre, who, where, dimText, payload);
    assert raw == head + dimText + payload;
    DimensionTailOf(raw, head, dimHash, dimension, payload, a1);
  }

  lemma SignatureLayout(pre: string, who: string, where: string, dimText: string, payload: string)
    ensures pre + who + "*" + where + dimText + payload == pre + who + ("*" + where + (dimText + payload))
    ensures pre + who + "*" + where + dimText + payload == (pre + who + "*") + where + (dimText + payload)
  {
  }

  lemma ParseSignatureAt(raw: string, w0: nat, w1: nat, a1: nat, sig: Signature)
    requires |raw| > 0 && raw[0] == '*'
    requires w0 == (if |raw| > 1 && raw[1] == '#' then 2 else 1)
    requires w0 <= |raw| && DigitRunEnd(raw, w0) == w1 && w0 < w1 < |raw| && raw[w1] == '*'
    requires AddressRunEnd(raw, w1 + 1) == a1 && a1 > w1 + 1
    requires sig.who == raw[w0..w1] && sig.where == raw[w1 + 1..a1] && sig.dimension == DimensionAt(raw, a1)
    ensures ParseSignature(raw) == Some(sig)
  {
  }
}
