/** String operations of JavaScript that the dashboard relies on: `toLowerCase`,
    `startsWith`, `includes`, `trim` and the decimal rendering of an index. */
module Text {

  /** `toLowerCase` on one character; only ASCII letters are mapped. */
  function LowerChar(c: char): char {
    if 'A' <= c <= 'Z' then (c as int + 32) as char else c
  }

  /** `toUpperCase` on one character; only ASCII letters are mapped. */
  function UpperChar(c: char): char {
    if 'a' <= c <= 'z' then (c as int - 32) as char else c
  }

  function Lower(s: string): (r: string)
    ensures |r| == |s|
  {
    seq(|s|, i requires 0 <= i < |s| => LowerChar(s[i]))
  }

  function Upper(s: string): (r: string)
    ensures |r| == |s|
  {
    seq(|s|, i requires 0 <= i < |s| => UpperChar(s[i]))
  }

  /** Lower-casing forgets whatever case a string was written in, for the ASCII
      case mapping modelled here. */
  lemma LowerOfUpper(s: string)
    ensures Lower(Upper(s)) == Lower(s)
  {
    forall i | 0 <= i < |s|
      ensures Lower(Upper(s))[i] == Lower(s)[i]
    {
      assert Upper(s)[i] == UpperChar(s[i]);
    }
  }

  lemma LowerIdempotent(s: string)
    ensures Lower(Lower(s)) == Lower(s)
  {
    forall i | 0 <= i < |s|
      ensures Lower(Lower(s))[i] == Lower(s)[i]
    {
      assert Lower(s)[i] == LowerChar(s[i]);
    }
  }

  /** `s.startsWith(p)` */
  predicate StartsWith(s: string, p: string) {
    |p| <= |s| && s[..|p|] == p
  }

  /** p sits in s at position j. */
  predicate MatchAt(s: string, p: string, j: int) {
    0 <= j && j + |p| <= |s| && s[j..j + |p|] == p
  }

  /** The reference meaning of "p occurs in s": some window of s equals p. */
  ghost predicate Occurs(p: string, s: string) {
    exists j :: MatchAt(s, p, j)
  }

  /** `s.includes(p)`, scanning the start positions one by one. */
  predicate Includes(s: string, p: string)
    decreases |s|
  {
    if StartsWith(s, p) then true
    else if |s| == 0 then false
    else Includes(s[1..], p)
  }

  /** A window of the tail is the window one place further in the string. */
  lemma TailWindow(s: string, i: int, k: int)
    requires 0 <= i <= k < |s|
    ensures s[1..][i..k] == s[i + 1..k + 1]
  {
    forall m | 0 <= m < k - i
      ensures s[1..][i..k][m] == s[i + 1..k + 1][m]
    {
    }
  }

  lemma {:induction false} IncludesIff(s: string, p: string)
    ensures Includes(s, p) <==> Occurs(p, s)
    decreases |s|
  {
    if StartsWith(s, p) {
      assert MatchAt(s, p, 0);
    } else if |s| == 0 {
      assert |p| > 0;
    } else {
      IncludesIff(s[1..], p);
      if Occurs(p, s[1..]) {
        var j :| MatchAt(s[1..], p, j);
        TailWindow(s, j, j + |p|);
        assert MatchAt(s, p, j + 1);
      }
      if Occurs(p, s) {
        var j :| MatchAt(s, p, j);
        assert j != 0;
        TailWindow(s, j - 1, j - 1 + |p|);
        assert MatchAt(s[1..], p, j - 1);
      }
    }
  }

  /** A word with a letter that a string lacks does not occur in it. */
  lemma AbsentLetter(p: string, s: string, c: char)
    requires c in p && c !in s
    ensures !Occurs(p, s)
  {
  }

  /** The characters `String.prototype.trim` removes: WhiteSpace and LineTerminator
      of section 12.2 and 12.3 of ECMA-262. */
  predicate IsSpace(c: char) {
    || '\U{0009}' <= c <= '\U{000D}'
    || c == ' ' || c == '\U{00A0}' || c == '\U{1680}'
    || '\U{2000}' <= c <= '\U{200A}'
    || c == '\U{2028}' || c == '\U{2029}' || c == '\U{202F}' || c == '\U{205F}' || c == '\U{3000}'
    || c == '\U{FEFF}'
  }

  ghost predicate AllSpace(s: string) {
    forall i :: 0 <= i < |s| ==> IsSpace(s[i])
  }

  function TrimStart(s: string): string
    decreases |s|
  {
    if |s| > 0 && IsSpace(s[0]) then TrimStart(s[1..]) else s
  }

  function TrimEnd(s: string): string
    decreases |s|
  {
    if |s| > 0 && IsSpace(s[|s| - 1]) then TrimEnd(s[..|s| - 1]) else s
  }

  /** `s.trim()` */
  function Trim(s: string): string {
    TrimEnd(TrimStart(s))
  }

  lemma {:induction false} TrimStartEmptyIff(s: string)
    ensures TrimStart(s) == "" <==> AllSpace(s)
    decreases |s|
  {
    if |s| > 0 && IsSpace(s[0]) {
      TrimStartEmptyIff(s[1..]);
      if AllSpace(s[1..]) {
        forall i | 0 <= i < |s| ensures IsSpace(s[i]) {
          if i > 0 { assert s[i] == s[1..][i - 1]; }
        }
      }
      if AllSpace(s) {
        forall i | 0 <= i < |s| - 1 ensures IsSpace(s[1..][i]) {
          assert s[1..][i] == s[i + 1];
        }
      }
    }
  }

  lemma {:induction false} TrimEndEmptyIff(s: string)
    ensures TrimEnd(s) == "" <==> AllSpace(s)
    decreases |s|
  {
    if |s| > 0 && IsSpace(s[|s| - 1]) {
      var t := s[..|s| - 1];
      TrimEndEmptyIff(t);
      if AllSpace(t) {
        forall i | 0 <= i < |s| ensures IsSpace(s[i]) {
          if i < |s| - 1 { assert s[i] == t[i]; }
        }
      }
      if AllSpace(s) {
        forall i | 0 <= i < |t| ensures IsSpace(t[i]) {
          assert t[i] == s[i];
        }
      }
    }
  }

  lemma TrimStartAllSpace(s: string)
    requires TrimStart(s) != ""
    ensures !AllSpace(TrimStart(s))
  {
    TrimStartEmptyIff(s);
    TrimStartNotSpace(s);
  }

  lemma {:induction false} TrimStartNotSpace(s: string)
    ensures TrimStart(s) != "" ==> !IsSpace(TrimStart(s)[0])
    decreases |s|
  {
    if |s| > 0 && IsSpace(s[0]) {
      TrimStartNotSpace(s[1..]);
    }
  }

  /** A string trims to nothing exactly when every character of it is white space;
      this is what `!s.trim()` tests. */
  lemma TrimEmptyIff(s: string)
    ensures Trim(s) == "" <==> AllSpace(s)
  {
    TrimStartEmptyIff(s);
    TrimEndEmptyIff(TrimStart(s));
    if TrimStart(s) != "" {
      TrimStartAllSpace(s);
    }
  }

  lemma {:induction false} TrimStartPadded(w: string, x: string)
    requires AllSpace(w) && (x == "" || !IsSpace(x[0]))
    ensures TrimStart(w + x) == x
    decreases |w|
  {
    if w == [] {
      assert w + x == x;
    } else {
      assert (w + x)[1..] == w[1..] + x;
      TrimStartPadded(w[1..], x);
    }
  }

  lemma {:induction false} TrimEndPadded(x: string, w: string)
    requires AllSpace(w) && (x == "" || !IsSpace(x[|x| - 1]))
    ensures TrimEnd(x + w) == x
    decreases |w|
  {
    if w == [] {
      assert x + w == x;
    } else {
      assert (x + w)[..|x + w| - 1] == x + w[..|w| - 1];
      TrimEndPadded(x, w[..|w| - 1]);
    }
  }

  /** White space around a string that neither starts nor ends with white space
      is exactly what `trim()` removes. */
  lemma TrimPadded(lead: string, c: string, trail: string)
    requires AllSpace(lead) && AllSpace(trail)
    requires c == "" || (!IsSpace(c[0]) && !IsSpace(c[|c| - 1]))
    ensures Trim(lead + c + trail) == c
  {
    if c == "" {
      assert lead + c + trail == lead + trail;
      assert AllSpace(lead + trail) by {
        forall i | 0 <= i < |lead + trail| ensures IsSpace((lead + trail)[i]) {
          if i >= |lead| { assert (lead + trail)[i] == trail[i - |lead|]; }
        }
      }
      TrimEmptyIff(lead + trail);
    } else {
      assert lead + c + trail == lead + (c + trail);
      TrimStartPadded(lead, c + trail);
      TrimEndPadded(c, trail);
    }
  }

  function DigitChar(d: nat): char
    requires d < 10
  {
    "0123456789"[d]
  }

  /** The decimal rendering of a natural number, as template literals produce it. */
  function NatToString(n: nat): (r: string)
    ensures |r| >= 1
    ensures forall i :: 0 <= i < |r| ==> '0' <= r[i] <= '9'
    decreases n
  {
    if n < 10 then [DigitChar(n)] else NatToString(n / 10) + [DigitChar(n % 10)]
  }

  predicate IsDigits(s: string) {
    forall i :: 0 <= i < |s| ==> '0' <= s[i] <= '9'
  }

  /** The value of a string of decimal digits. */
  function DigitsValue(s: string): nat
    requires IsDigits(s)
    decreases |s|
  {
    if s == [] then 0 else DigitsValue(s[..|s| - 1]) * 10 + (s[|s| - 1] as int - '0' as int)
  }

  /** Reading back a rendered number gives the number: the rendering is injective. */
  lemma {:induction false} DigitsRoundTrip(n: nat)
    ensures DigitsValue(NatToString(n)) == n
    decreases n
  {
    var r := NatToString(n);
    if n < 10 {
      assert r[..|r| - 1] == [];
    } else {
      DigitsRoundTrip(n / 10);
      assert r[..|r| - 1] == NatToString(n / 10);
    }
  }

  lemma NatToStringInjective(m: nat, n: nat)
    requires NatToString(m) == NatToString(n)
    ensures m == n
  {
    DigitsRoundTrip(m);
    DigitsRoundTrip(n);
  }
}
