/** Text helpers shared by the model: ASCII digits and decimal rendering,
    Python's `str.split`, `str.join`, `str.strip`, `str.lower` (ASCII only),
    and the code-point order that Python's `sorted()` uses on `str`. */
module Strings {

  // ---------------------------------------------------------------------------
  // Digits and decimal numbers
  // ---------------------------------------------------------------------------

  predicate IsDigit(c: char) { '0' <= c <= '9' }

  predicate AllDigits(s: string) { forall i :: 0 <= i < |s| ==> IsDigit(s[i]) }

  /** `str.isdigit()` over ASCII: non-empty and every character a digit. */
  predicate IsDigits(s: string) { |s| > 0 && AllDigits(s) }

  function DigitValue(c: char): (d: nat)
    requires IsDigit(c)
    ensures d < 10
  {
    c as int - '0' as int
  }

  function DigitChar(d: nat): (c: char)
    requires d < 10
    ensures IsDigit(c) && DigitValue(c) == d
  {
    ('0' as int + d) as char
  }

  /** `int(s)` for a string of ASCII digits. */
  function DigitsValue(s: string): nat
    requires AllDigits(s)
  {
    if |s| == 0 then 0 else DigitsValue(s[..|s| - 1]) * 10 + DigitValue(s[|s| - 1])
  }

  /** `str(n)` for a natural number. */
  function NatToString(n: nat): (s: string)
    ensures IsDigits(s)
    ensures (n < 10) == (|s| == 1)
    ensures 10 <= n < 100 ==> |s| == 2
  {
    if n < 10 then [DigitChar(n)] else NatToString(n / 10) + [DigitChar(n % 10)]
  }

  lemma {:induction false} NatToStringValue(n: nat)
    ensures DigitsValue(NatToString(n)) == n
  {
    if n >= 10 {
      NatToStringValue(n / 10);
      var s := NatToString(n);
      assert s[..|s| - 1] == NatToString(n / 10);
    }
  }

  /** `str(i)` for any integer. */
  function IntToString(i: int): string
  {
    if i < 0 then "-" + NatToString(-i) else NatToString(i)
  }

  /** Python's `f"{n:02d}"` for a natural number. */
  function ZeroPad2(n: nat): (s: string)
    ensures IsDigits(s)
    ensures n < 100 ==> |s| == 2
  {
    if n < 10 then "0" + NatToString(n) else NatToString(n)
  }

  /** Concatenation regroups freely (stated once so that long loops over
      appended buffers need not rediscover it). */
  lemma AppendAssoc<T>(a: seq<T>, b: seq<T>, c: seq<T>)
    ensures a + (b + c) == (a + b) + c
  {
  }

  // ---------------------------------------------------------------------------
  // Splitting, joining, prefixes
  // ---------------------------------------------------------------------------

  /** `s.split(sep)` for a one-character separator: never empty, and the
      parts joined back with `sep` give `s`. */
  function Split(s: string, sep: char): (parts: seq<string>)
    ensures |parts| >= 1
    ensures forall i :: 0 <= i < |parts| ==> sep !in parts[i]
  {
    if |s| == 0 then [""]
    else if s[0] == sep then [""] + Split(s[1..], sep)
    else
      var rest := Split(s[1..], sep);
      [[s[0]] + rest[0]] + rest[1..]
  }

  /** Joining the parts of a split with its separator gives the string back. */
  lemma {:induction false} SplitJoin(s: string, sep: char)
    ensures Join(Split(s, sep), [sep]) == s
  {
    if |s| > 0 {
      var rest := Split(s[1..], sep);
      SplitJoin(s[1..], sep);
      var parts := Split(s, sep);
      if s[0] == sep {
        assert parts[1..] == rest;
        assert Join(parts, [sep]) == "" + [sep] + Join(rest, [sep]);
      } else if |rest| == 1 {
        assert parts == [[s[0]] + rest[0]];
      } else {
        assert parts[1..] == rest[1..];
        calc {
          Join(parts, [sep]);
          ([s[0]] + rest[0]) + [sep] + Join(rest[1..], [sep]);
          [s[0]] + (rest[0] + [sep] + Join(rest[1..], [sep]));
          [s[0]] + Join(rest, [sep]);
        }
      }
      assert s == [s[0]] + s[1..];
    }
  }

  /** The parts that survive `[part for part in parts if part]`. */
  function NonEmptyParts(parts: seq<string>): (r: seq<string>)
    ensures forall i :: 0 <= i < |r| ==> r[i] != [] && r[i] in parts
    ensures forall p :: p in parts && p != [] ==> p in r
  {
    if |parts| == 0 then []
    else if parts[0] == [] then NonEmptyParts(parts[1..])
    else [parts[0]] + NonEmptyParts(parts[1..])
  }

  /** Index of the first occurrence of `c` in `s`, or `|s|` when absent. */
  function IndexOf(s: string, c: char): (k: nat)
    ensures k <= |s|
    ensures k < |s| ==> s[k] == c
    ensures forall i :: 0 <= i < k ==> s[i] != c
  {
    if |s| == 0 then 0 else if s[0] == c then 0 else 1 + IndexOf(s[1..], c)
  }

  /** The first `c` after a `c`-free prefix is found at the end of that prefix. */
  lemma {:induction false} IndexOfConcat(a: string, c: char, b: string)
    requires c !in a
    ensures IndexOf(a + [c] + b, c) == |a|
  {
    if |a| > 0 {
      assert (a + [c] + b)[1..] == a[1..] + [c] + b;
      IndexOfConcat(a[1..], c, b);
    }
  }

  /** `s.split(c, 1)[0]`: everything before the first `c`. */
  function BeforeFirst(s: string, c: char): (r: string)
    ensures c !in r
    ensures r <= s
    ensures |r| == |s| || s[|r|] == c
  {
    s[..IndexOf(s, c)]
  }

  /** `s.split(c, 1)[1]` when `c` occurs in `s`: everything after the first `c`. */
  function AfterFirst(s: string, c: char): string
    requires c in s
  {
    s[IndexOf(s, c) + 1..]
  }

  predicate StartsWith(s: string, prefix: string) { prefix <= s }

  /** `sep.join(parts)`. */
  function Join(parts: seq<string>, sep: string): string
  {
    if |parts| == 0 then ""
    else if |parts| == 1 then parts[0]
    else parts[0] + sep + Join(parts[1..], sep)
  }

  // ---------------------------------------------------------------------------
  // Case and whitespace (ASCII)
  // ---------------------------------------------------------------------------

  function LowerChar(c: char): char
  {
    if 'A' <= c <= 'Z' then (c as int + 32) as char else c
  }

  /** `str.lower()` for ASCII letters; other characters are left alone. */
  function Lower(s: string): (r: string)
    ensures |r| == |s|
    ensures forall i :: 0 <= i < |s| ==> r[i] == LowerChar(s[i])
    ensures forall i :: 0 <= i < |r| ==> !('A' <= r[i] <= 'Z')
  {
    if |s| == 0 then "" else [LowerChar(s[0])] + Lower(s[1..])
  }

  /** ASCII whitespace as `str.strip()` removes it: space, \t, \n, \v, \f, \r. */
  predicate IsSpace(c: char)
  {
    c == ' ' || 9 <= c as int <= 13
  }

  /** What a strip removes from the ends: ASCII whitespace, or one given character. */
  datatype Trimmed = Whitespace | Only(c: char)

  predicate Drops(t: Trimmed, ch: char)
  {
    match t
    case Whitespace => IsSpace(ch)
    case Only(c) => ch == c
  }

  function TrimStart(s: string, t: Trimmed): (r: string)
    ensures |r| <= |s| && r == s[|s| - |r|..]
    ensures |r| > 0 ==> !Drops(t, r[0])
    ensures forall i :: 0 <= i < |s| - |r| ==> Drops(t, s[i])
  {
    if |s| > 0 && Drops(t, s[0]) then TrimStart(s[1..], t) else s
  }

  function TrimEnd(s: string, t: Trimmed): (r: string)
    ensures r <= s
    ensures |r| > 0 ==> !Drops(t, r[|r| - 1])
    ensures forall i :: |r| <= i < |s| ==> Drops(t, s[i])
  {
    if |s| > 0 && Drops(t, s[|s| - 1]) then TrimEnd(s[..|s| - 1], t) else s
  }

  /** `s.strip()` (ASCII whitespace). */
  function Strip(s: string): string
  {
    TrimEnd(TrimStart(s, Whitespace), Whitespace)
  }

  /** `s.strip(c)` for one character. */
  function StripChar(s: string, c: char): (r: string)
    ensures |r| > 0 ==> r[0] != c && r[|r| - 1] != c
  {
    TrimEnd(TrimStart(s, Only(c)), Only(c))
  }

  lemma StripNoSpace(s: string)
    requires forall i :: 0 <= i < |s| ==> !IsSpace(s[i])
    ensures Strip(s) == s
  {
  }

  lemma StripCharNoop(s: string, c: char)
    requires |s| > 0 ==> s[0] != c && s[|s| - 1] != c
    ensures StripChar(s, c) == s
  {
  }

  /** What trimming both ends keeps is the run of `s` starting at `a`. */
  lemma TrimSlice(s: string, t: Trimmed) returns (a: nat)
    ensures var r := TrimEnd(TrimStart(s, t), t);
            a + |r| <= |s| && forall i :: 0 <= i < |r| ==> r[i] == s[a + i]
  {
    var u := TrimStart(s, t);
    a := |s| - |u|;
    var r := TrimEnd(u, t);
    forall i | 0 <= i < |r| ensures r[i] == s[a + i] {
      assert r[i] == u[i];
    }
  }

  // ---------------------------------------------------------------------------
  // Python's order on str (code point by code point) and sorted(set(...))
  // ---------------------------------------------------------------------------

  /** `a < b` on Python strings. */
  predicate Less(a: string, b: string)
  {
    if |a| == 0 then |b| > 0
    else if |b| == 0 then false
    else if a[0] != b[0] then a[0] < b[0]
    else Less(a[1..], b[1..])
  }

  lemma {:induction false} LessIrreflexive(a: string)
    ensures !Less(a, a)
  {
    if |a| > 0 { LessIrreflexive(a[1..]); }
  }

  lemma {:induction false} LessAsymmetric(a: string, b: string)
    ensures Less(a, b) ==> !Less(b, a)
  {
    if |a| > 0 && |b| > 0 && a[0] == b[0] { LessAsymmetric(a[1..], b[1..]); }
  }

  lemma {:induction false} LessTransitive(a: string, b: string, c: string)
    ensures Less(a, b) && Less(b, c) ==> Less(a, c)
  {
    if |a| > 0 && |b| > 0 && |c| > 0 && a[0] == b[0] == c[0] {
      LessTransitive(a[1..], b[1..], c[1..]);
    }
  }

  lemma {:induction false} LessTotal(a: string, b: string)
    ensures a == b || Less(a, b) || Less(b, a)
  {
    if |a| > 0 && |b| > 0 && a[0] == b[0] {
      LessTotal(a[1..], b[1..]);
      if a[1..] == b[1..] {
        assert a == [a[0]] + a[1..] && b == [b[0]] + b[1..];
      }
    }
  }

  /** Sorted in increasing order with no element twice. */
  predicate StrictlySorted(s: seq<string>)
  {
    forall i, j :: 0 <= i < j < |s| ==> Less(s[i], s[j])
  }

  lemma StrictlySortedNoDuplicates(s: seq<string>)
    requires StrictlySorted(s)
    ensures forall i, j :: 0 <= i < j < |s| ==> s[i] != s[j]
  {
    forall i, j | 0 <= i < j < |s| ensures s[i] != s[j] {
      LessIrreflexive(s[i]);
    }
  }

  /** Inserts `x` into a strictly sorted sequence unless it is already there. */
  function Insert(s: seq<string>, x: string): (r: seq<string>)
    requires StrictlySorted(s)
    ensures StrictlySorted(r)
    ensures forall y :: y in r <==> y in s || y == x
  {
    if |s| == 0 then [x]
    else if x == s[0] then s
    else if Less(x, s[0]) then
      assert forall j :: 0 < j < |s| ==> Less(x, s[j]) by {
        forall j | 0 < j < |s| ensures Less(x, s[j]) { LessTransitive(x, s[0], s[j]); }
      }
      [x] + s
    else
      var tail := Insert(s[1..], x);
      LessTotal(x, s[0]);
      assert forall y :: y in tail ==> Less(s[0], y);
      [s[0]] + tail
  }

  /** `sorted(set(xs))`. */
  function SortDedup(xs: seq<string>): (r: seq<string>)
    ensures StrictlySorted(r)
    ensures forall y :: y in r <==> y in xs
  {
    if |xs| == 0 then [] else Insert(SortDedup(xs[1..]), xs[0])
  }

  /** A strictly sorted sequence is determined by its elements: this is why
      every snapshot in the integration is reported deterministically. */
  lemma {:induction false} SortedUnique(a: seq<string>, b: seq<string>)
    requires StrictlySorted(a) && StrictlySorted(b)
    requires forall y :: y in a <==> y in b
    ensures a == b
  {
    assert |a| > 0 ==> a[0] in b;
    assert |b| > 0 ==> b[0] in a;
    if |a| > 0 {
      assert a == [a[0]] + a[1..] && b == [b[0]] + b[1..];
      if a[0] != b[0] {
        assert b[0] in a && a[0] in b;
        var j :| 0 <= j < |a| && a[j] == b[0];
        var k :| 0 <= k < |b| && b[k] == a[0];
        assert j > 0 && k > 0;
        LessAsymmetric(a[0], b[0]);
        assert false;
      }
      forall y ensures y in a[1..] <==> y in b[1..] {
        if y in a[1..] {
          var j :| 1 <= j < |a| && a[j] == y;
          LessIrreflexive(a[0]);
          assert y != b[0] && y in b;
        }
        if y in b[1..] {
          var j :| 1 <= j < |b| && b[j] == y;
          LessIrreflexive(b[0]);
          assert y != a[0] && y in a;
        }
      }
      SortedUnique(a[1..], b[1..]);
      assert a == [a[0]] + a[1..] && b == [b[0]] + b[1..];
    }
  }

  lemma SortDedupOfSorted(s: seq<string>)
    requires StrictlySorted(s)
    ensures SortDedup(s) == s
  {
    SortedUnique(SortDedup(s), s);
  }

  /** `sorted(s)` for a set of strings, computed the way Python's `sorted`
      consumes an unordered set: one element at a time. */
  method SortedFromSet(s: set<string>) returns (r: seq<string>)
    ensures StrictlySorted(r)
    ensures forall y :: y in r <==> y in s
  {
    r := [];
    var rest := s;
    while rest != {}
      invariant StrictlySorted(r)
      invariant forall y :: y in s <==> y in r || y in rest
      decreases rest
    {
      var x :| x in rest;
      r := Insert(r, x);
      rest := rest - {x};
    }
  }
}
