/**
 * Shared vocabulary for the whole model: optional values and results, and the
 * handful of JavaScript string and number primitives the services rely on
 * (`\s`, `\d`, `toUpperCase`, `Math.round`, `Math.ceil`, `Array.prototype.slice`,
 * `String.prototype.includes`, `Number.prototype.toString` on integers).
 */
module Common {

  datatype Option<T> = None | Some(value: T)

  /** A thrown JavaScript error is modelled as `Err` carrying its message. */
  datatype Result<T> = Ok(value: T) | Err(error: string)

  /** JavaScript truthiness of an optional string field of a request body. */
  predicate Truthy(o: Option<string>)
  {
    o.Some? && o.value != ""
  }

  // ---------------------------------------------------------------------------
  // Characters

  /** The characters matched by `\s` in an ECMAScript regular expression. */
  predicate IsSpace(c: char)
  {
    c == ' ' || c == '\t' || c == '\n' || c == '\r' || c == '\U{000B}' || c == '\U{000C}'
    || c == '\U{00A0}' || c == '\U{1680}' || ('\U{2000}' <= c <= '\U{200A}')
    || c == '\U{2028}' || c == '\U{2029}' || c == '\U{202F}' || c == '\U{205F}'
    || c == '\U{3000}' || c == '\U{FEFF}'
  }

  /** The characters matched by `\d`. */
  predicate IsDigit(c: char)
  {
    '0' <= c <= '9'
  }

  /** Lower-case letters that `toUpperCase` maps one-to-one (ASCII and Latin-1). */
  predicate IsLowerLetter(c: char)
  {
    ('a' <= c <= 'z') || ('\U{00E0}' <= c <= '\U{00FE}' && c != '\U{00F7}')
  }

  predicate IsUpperLetter(c: char)
  {
    ('A' <= c <= 'Z') || ('\U{00C0}' <= c <= '\U{00DE}' && c != '\U{00D7}')
  }

  function UpperChar(c: char): (u: char)
    ensures IsLowerLetter(c) ==> IsUpperLetter(u) && LowerChar(u) == c
    ensures !IsLowerLetter(c) ==> u == c
  {
    if IsLowerLetter(c) then (c as int - 32) as char else c
  }

  function LowerChar(c: char): (l: char)
    ensures IsUpperLetter(c) ==> IsLowerLetter(l) && (l as int) == (c as int) + 32
    ensures !IsUpperLetter(c) ==> l == c
  {
    if IsUpperLetter(c) then (c as int + 32) as char else c
  }

  /** `String.prototype.toUpperCase` on the letters listed above. */
  function ToUpper(s: string): (r: string)
    ensures |r| == |s|
    ensures forall i :: 0 <= i < |s| ==> r[i] == UpperChar(s[i])
  {
    seq(|s|, i requires 0 <= i < |s| => UpperChar(s[i]))
  }

  /** `String.prototype.toLowerCase` on the letters listed above. */
  function ToLower(s: string): (r: string)
    ensures |r| == |s|
    ensures forall i :: 0 <= i < |s| ==> r[i] == LowerChar(s[i])
  {
    seq(|s|, i requires 0 <= i < |s| => LowerChar(s[i]))
  }

  // ---------------------------------------------------------------------------
  // Strings

  /** `s.replace(/\s/g, '')`. */
  function StripSpaces(s: string): (r: string)
    ensures forall i :: 0 <= i < |r| ==> !IsSpace(r[i])
    ensures |r| <= |s|
  {
    if s == [] then []
    else if IsSpace(s[0]) then StripSpaces(s[1..])
    else [s[0]] + StripSpaces(s[1..])
  }

  /** `s.replace(/\D/g, '')`. */
  function DigitsOnly(s: string): (r: string)
    ensures forall i :: 0 <= i < |r| ==> IsDigit(r[i])
    ensures |r| <= |s|
  {
    if s == [] then []
    else if IsDigit(s[0]) then [s[0]] + DigitsOnly(s[1..])
    else DigitsOnly(s[1..])
  }

  lemma {:induction false} StripSpacesConcat(a: string, b: string)
    ensures StripSpaces(a + b) == StripSpaces(a) + StripSpaces(b)
  {
    if a != [] {
      assert (a + b)[1..] == a[1..] + b;
      StripSpacesConcat(a[1..], b);
    } else {
      assert a + b == b;
    }
  }

  /** A string without whitespace is its own normal form. */
  lemma {:induction false} StripSpacesNoop(s: string)
    requires forall i :: 0 <= i < |s| ==> !IsSpace(s[i])
    ensures StripSpaces(s) == s
  {
    if s != [] {
      StripSpacesNoop(s[1..]);
    }
  }

  /** Removing whitespace twice is removing it once. */
  lemma StripSpacesIdempotent(s: string)
    ensures StripSpaces(StripSpaces(s)) == StripSpaces(s)
  {
    StripSpacesNoop(StripSpaces(s));
  }

  lemma {:induction false} DigitsOnlyConcat(a: string, b: string)
    ensures DigitsOnly(a + b) == DigitsOnly(a) + DigitsOnly(b)
  {
    if a != [] {
      assert (a + b)[1..] == a[1..] + b;
      DigitsOnlyConcat(a[1..], b);
    } else {
      assert a + b == b;
    }
  }

  lemma {:induction false} DigitsOnlyNoop(s: string)
    requires forall i :: 0 <= i < |s| ==> IsDigit(s[i])
    ensures DigitsOnly(s) == s
  {
    if s != [] {
      DigitsOnlyNoop(s[1..]);
    }
  }

  predicate StartsWith(s: string, prefix: string)
  {
    |prefix| <= |s| && s[..|prefix|] == prefix
  }

  /** `sub` occurs in `s` starting at position `i`. */
  predicate OccursAt(s: string, sub: string, i: nat)
  {
    i + |sub| <= |s| && s[i..i + |sub|] == sub
  }

  /** `s.includes(sub)`: `sub` occurs at some position of `s`. */
  ghost predicate Includes(s: string, sub: string)
  {
    exists i: nat :: OccursAt(s, sub, i)
  }

  /** A left-to-right search for `sub`, the way `includes` scans. */
  function Search(s: string, sub: string): (found: bool)
    decreases |s|
  {
    if StartsWith(s, sub) then true
    else if |s| <= |sub| then false
    else Search(s[1..], sub)
  }

  lemma {:induction false} SearchFindsOccurrence(s: string, sub: string)
    ensures Search(s, sub) <==> Includes(s, sub)
    decreases |s|
  {
    if StartsWith(s, sub) {
      assert OccursAt(s, sub, 0);
    } else if |s| <= |sub| {
      forall i: nat
        ensures !OccursAt(s, sub, i)
      {
        if i + |sub| <= |s| {
          assert i == 0 && s[..|sub|] != sub;
        }
      }
    } else {
      SearchFindsOccurrence(s[1..], sub);
      forall i: nat | OccursAt(s, sub, i)
        ensures i >= 1 && OccursAt(s[1..], sub, i - 1)
      {
        assert i != 0;
        forall k | 0 <= k < |sub| ensures s[1..][i - 1 + k] == sub[k] {
          assert s[i..i + |sub|][k] == sub[k];
        }
        assert s[1..][i - 1..i - 1 + |sub|] == sub;
      }
      forall i: nat | OccursAt(s[1..], sub, i)
        ensures OccursAt(s, sub, i + 1)
      {
        forall k | 0 <= k < |sub| ensures s[i + 1 + k] == sub[k] {
          assert s[1..][i..i + |sub|][k] == sub[k];
        }
        assert s[i + 1..i + 1 + |sub|] == sub;
      }
    }
  }

  /** The search finds an infix wherever it sits. */
  lemma SearchFindsInfix(p: string, sub: string, q: string)
    ensures Search(p + sub + q, sub)
  {
    assert OccursAt(p + sub + q, sub, |p|) by {
      assert (p + sub + q)[|p|..|p| + |sub|] == sub;
    }
    SearchFindsOccurrence(p + sub + q, sub);
  }

  /** A string without the first character of `sub` does not contain `sub`. */
  lemma SearchMissesAbsentChar(s: string, sub: string)
    requires |sub| > 0
    requires forall i :: 0 <= i < |s| ==> s[i] != sub[0]
    ensures !Search(s, sub)
  {
    forall i: nat ensures !OccursAt(s, sub, i) {
      if i + |sub| <= |s| {
        assert s[i..i + |sub|][0] == s[i];
      }
    }
    SearchFindsOccurrence(s, sub);
  }

  /** A string in which the first three characters of `sub` never appear in a row does not contain `sub`. */
  lemma SearchMissesAbsentTriple(s: string, sub: string)
    requires |sub| >= 3
    requires forall i :: 0 <= i < |s| - 2 ==> !(s[i] == sub[0] && s[i + 1] == sub[1] && s[i + 2] == sub[2])
    ensures !Search(s, sub)
  {
    forall i: nat ensures !OccursAt(s, sub, i) {
      if i + |sub| <= |s| {
        assert s[i..i + |sub|][0] == s[i] && s[i..i + |sub|][1] == s[i + 1] && s[i..i + |sub|][2] == s[i + 2];
      }
    }
    SearchFindsOccurrence(s, sub);
  }

  /** `s.replace(' ', '_')` with a string pattern: only the first occurrence. */
  function ReplaceFirst(s: string, from: char, to: char): (r: string)
    ensures |r| == |s|
    ensures from !in s ==> r == s
  {
    if s == [] then []
    else if s[0] == from then [to] + s[1..]
    else [s[0]] + ReplaceFirst(s[1..], from, to)
  }

  /** First position of `c` in `s`, as `indexOf` would report it. */
  function FirstIndex(s: string, c: char): (k: nat)
    requires c in s
    ensures k < |s| && s[k] == c && c !in s[..k]
  {
    if s[0] == c then 0 else 1 + FirstIndex(s[1..], c)
  }

  lemma {:induction false} ReplaceFirstAt(s: string, from: char, to: char)
    requires from in s
    ensures ReplaceFirst(s, from, to) == s[..FirstIndex(s, from)] + [to] + s[FirstIndex(s, from) + 1..]
  {
    if s[0] != from {
      ReplaceFirstAt(s[1..], from, to);
      assert s[1..][..FirstIndex(s[1..], from)] == s[1..FirstIndex(s, from)];
    }
  }

  /** `Array.prototype.slice(start, end)`, with negative indices counted from the end. */
  function SliceIndex(n: nat, k: int): (j: nat)
    ensures j <= n
    ensures k >= 0 ==> j == if k <= n then k else n
    ensures k < 0 ==> j == if n + k >= 0 then n + k else 0
  {
    if k < 0 then (if n + k >= 0 then n + k else 0) else if k <= n then k else n
  }

  function JsSlice<T>(s: seq<T>, start: int, end: int): (r: seq<T>)
    ensures 0 <= start <= end <= |s| ==> r == s[start..end]
    ensures |r| <= |s|
  {
    var a := SliceIndex(|s|, start);
    var b := SliceIndex(|s|, end);
    if a < b then s[a..b] else []
  }

  /** The last `n` elements, as `slice(-n)` returns them. */
  function KeepLast<T>(s: seq<T>, n: nat): (r: seq<T>)
    requires n > 0
    ensures |r| == if |s| <= n then |s| else n
    ensures r == s[|s| - |r|..]
  {
    if |s| <= n then s else s[|s| - n..]
  }

  /** `history.push(x)` followed by `history.slice(-cap)`. */
  function AppendCapped<T>(history: seq<T>, x: T, cap: nat): (r: seq<T>)
    requires cap > 0
    ensures 1 <= |r| <= cap
    ensures r[|r| - 1] == x
    ensures |history| < cap ==> r == history + [x]
    ensures |history| >= cap ==> r == history[|history| - cap + 1..] + [x]
  {
    var h := history + [x];
    assert |history| >= cap ==> h[|h| - cap..] == history[|history| - cap + 1..] + [x];
    KeepLast(h, cap)
  }

  // ---------------------------------------------------------------------------
  // Numbers

  /** `Math.round`: the nearest integer, halves rounded towards +infinity. */
  function Round(x: real): (r: int)
    ensures r as real - 0.5 <= x < r as real + 0.5
  {
    (x + 0.5).Floor
  }

  /** `Math.ceil`. */
  function Ceil(x: real): (r: int)
    ensures x <= r as real < x + 1.0
  {
    -((-x).Floor)
  }

  /** `Math.round(x * 100) / 100`. */
  function Round2(x: real): (r: real)
    ensures x - 0.005 < r <= x + 0.005
  {
    var k := Round(x * 100.0);
    assert k as real - 0.5 <= x * 100.0 < k as real + 0.5;
    var r := k as real / 100.0;
    assert k as real == 100.0 * r;
    r
  }

  /** `Math.round(x * 10) / 10`. */
  function Round1(x: real): (r: real)
    ensures x - 0.05 < r <= x + 0.05
  {
    var k := Round(x * 10.0);
    assert k as real - 0.5 <= x * 10.0 < k as real + 0.5;
    var r := k as real / 10.0;
    assert k as real == 10.0 * r;
    r
  }

  function Sum(s: seq<real>): real
  {
    if s == [] then 0.0 else s[0] + Sum(s[1..])
  }

  lemma {:induction false} SumConcat(a: seq<real>, b: seq<real>)
    ensures Sum(a + b) == Sum(a) + Sum(b)
  {
    if a != [] {
      assert (a + b)[1..] == a[1..] + b;
      SumConcat(a[1..], b);
    } else {
      assert a + b == b;
    }
  }

  /** The decimal digit string of a natural number. */
  function NatToString(n: nat): (s: string)
    ensures |s| > 0 && forall i :: 0 <= i < |s| ==> IsDigit(s[i])
    decreases n
  {
    if n < 10 then [('0' as int + n) as char]
    else NatToString(n / 10) + [('0' as int + n % 10) as char]
  }

  /** Reads a non-empty decimal digit string back into a number. */
  function ParseNat(s: string): nat
    requires forall i :: 0 <= i < |s| ==> IsDigit(s[i])
  {
    if s == [] then 0
    else
      assert IsDigit(s[|s| - 1]);
      10 * ParseNat(s[..|s| - 1]) + (s[|s| - 1] as int - '0' as int)
  }

  lemma {:induction false} NatToStringRoundTrip(n: nat)
    ensures ParseNat(NatToString(n)) == n
    decreases n
  {
    if n >= 10 {
      var s := NatToString(n);
      assert s[..|s| - 1] == NatToString(n / 10);
      NatToStringRoundTrip(n / 10);
    }
  }

  /** Different numbers print differently. */
  lemma NatToStringInjective(m: nat, n: nat)
    requires NatToString(m) == NatToString(n)
    ensures m == n
  {
    NatToStringRoundTrip(m);
    NatToStringRoundTrip(n);
  }

  /** Template-literal interpolation of an integer. */
  function IntToString(n: int): (s: string)
    ensures n >= 0 ==> s == NatToString(n)
    ensures n < 0 ==> s == "-" + NatToString(-n)
  {
    if n >= 0 then NatToString(n) else "-" + NatToString(-n)
  }

  /** Numbers extended with the infinities `Math.min`/`Math.max` give on empty input. */
  datatype ExtReal = Fin(v: real) | PosInf | NegInf

  /** `Math.min(...s)`. */
  function MinOf(s: seq<real>): (r: ExtReal)
    ensures s == [] <==> r == PosInf
    ensures r.Fin? ==> r.v in s && forall i :: 0 <= i < |s| ==> r.v <= s[i]
  {
    if s == [] then PosInf
    else
      var rest := MinOf(s[1..]);
      if rest.Fin? && rest.v < s[0] then rest else Fin(s[0])
  }

  /** `Math.max(...s)`. */
  function MaxOf(s: seq<real>): (r: ExtReal)
    ensures s == [] <==> r == NegInf
    ensures r.Fin? ==> r.v in s && forall i :: 0 <= i < |s| ==> s[i] <= r.v
  {
    if s == [] then NegInf
    else
      var rest := MaxOf(s[1..]);
      if rest.Fin? && rest.v > s[0] then rest else Fin(s[0])
  }

  // ---------------------------------------------------------------------------
  // Array.prototype.sort((a, b) => key(b) - key(a)): stable, descending

  predicate SortedDesc<T>(s: seq<T>, key: T -> int)
  {
    forall i, j :: 0 <= i < j < |s| ==> key(s[i]) >= key(s[j])
  }

  /** Inserts `x` before the first element whose key does not exceed its own. */
  function InsertDesc<T>(x: T, s: seq<T>, key: T -> int): (r: seq<T>)
    ensures |r| == |s| + 1
    ensures multiset(r) == multiset(s) + multiset{x}
    ensures forall y :: y in r ==> y == x || y in s
    ensures SortedDesc(s, key) ==> SortedDesc(r, key)
  {
    if s == [] || key(s[0]) <= key(x) then [x] + s
    else
      var rest := InsertDesc(x, s[1..], key);
      assert s == [s[0]] + s[1..];
      InsertedBelowHead(x, s, rest, key);
      [s[0]] + rest
  }

  lemma InsertedBelowHead<T>(x: T, s: seq<T>, rest: seq<T>, key: T -> int)
    requires s != [] && key(s[0]) > key(x)
    requires forall y :: y in rest ==> y == x || y in s[1..]
    requires SortedDesc(s, key) ==> SortedDesc(rest, key)
    ensures SortedDesc(s, key) ==> SortedDesc([s[0]] + rest, key)
  {
    if SortedDesc(s, key) {
      forall j | 0 <= j < |rest| ensures key(s[0]) >= key(rest[j]) {
        assert rest[j] in rest;
        if rest[j] != x {
          var k :| 0 <= k < |s[1..]| && s[1..][k] == rest[j];
          assert s[k + 1] == rest[j];
        }
      }
    }
  }

  /** A descending sort that keeps equal keys in their original order. */
  function SortDesc<T>(s: seq<T>, key: T -> int): (r: seq<T>)
    ensures |r| == |s|
    ensures multiset(r) == multiset(s)
    ensures SortedDesc(r, key)
  {
    if s == [] then []
    else
      assert s == [s[0]] + s[1..];
      InsertDesc(s[0], SortDesc(s[1..], key), key)
  }

  // ---------------------------------------------------------------------------
  // Real arithmetic steps

  /** A common non-zero factor cancels. */
  lemma Cancel(x: real, y: real, u: real)
    requires u != 0.0 && x * u == y * u
    ensures x == y
  {
    assert (x - y) * u == 0.0;
  }

  lemma MulPositive(x: real, y: real)
    requires x > 0.0 && y > 0.0
    ensures x * y > 0.0
  {
  }

  /** A part over a whole is at most one, and exactly one when they are equal. */
  lemma FractionAtMostOne(a: real, b: real)
    requires 0.0 <= a <= b && b > 0.0
    ensures 0.0 <= a / b <= 1.0
    ensures a == b ==> a / b == 1.0
  {
    var q := a / b;
    assert q * b == a;
    if q > 1.0 {
      MulPositive(q - 1.0, b);
    } else if q < 0.0 {
      MulPositive(-q, b);
    }
    if a == b {
      assert (q - 1.0) * b == 0.0;
      if q != 1.0 {
        if q > 1.0 { MulPositive(q - 1.0, b); } else { MulPositive(1.0 - q, b); }
      }
    }
  }
}
