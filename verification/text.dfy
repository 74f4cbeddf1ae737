/** The handful of JavaScript string built-ins the front end relies on:
    `trim`, `toLowerCase` (ASCII letters only), `includes`, `startsWith`,
    `parseInt(s, 10)` and `String(n)` for integers. */
module Text {
  import opened Wrappers

  /** JavaScript's WhiteSpace and LineTerminator code points, as far as this
      model tracks them (the other Unicode space separators are left out). */
  predicate IsSpace(c: char) {
    || c == ' ' || c == '\t' || c == '\n' || c == '\r'
    || c == '\U{000B}' || c == '\U{000C}' || c == '\U{00A0}'
    || c == '\U{FEFF}' || c == '\U{2028}' || c == '\U{2029}'
  }

  predicate AllSpace(s: string) {
    forall k :: 0 <= k < |s| ==> IsSpace(s[k])
  }

  /** `s` with its leading white space removed: a suffix of `s`. */
  function TrimStart(s: string): (r: string)
    ensures |r| <= |s| && r == s[|s| - |r|..]
    ensures forall k :: 0 <= k < |s| - |r| ==> IsSpace(s[k])
    ensures r == [] || !IsSpace(r[0])
  {
    if s != [] && IsSpace(s[0]) then TrimStart(s[1..]) else s
  }

  /** `s` with its trailing white space removed: a prefix of `s`. */
  function TrimEnd(s: string): (r: string)
    ensures |r| <= |s| && r == s[..|r|]
    ensures forall k :: |r| <= k < |s| ==> IsSpace(s[k])
    ensures r == [] || !IsSpace(r[|r| - 1])
  {
    if s != [] && IsSpace(s[|s| - 1]) then TrimEnd(s[..|s| - 1]) else s
  }

  /** How many leading white-space characters `String.prototype.trim` drops. */
  function Lead(s: string): nat {
    |s| - |TrimStart(s)|
  }

  /** `String.prototype.trim`: the infix of `s` left once white space is
      stripped from both ends; everything stripped is white space and the
      result neither starts nor ends with it. */
  function Trim(s: string): (r: string)
    ensures Lead(s) + |r| <= |s| && r == s[Lead(s)..Lead(s) + |r|]
    ensures forall k :: 0 <= k < Lead(s) ==> IsSpace(s[k])
    ensures forall k :: Lead(s) + |r| <= k < |s| ==> IsSpace(s[k])
    ensures r == [] || (!IsSpace(r[0]) && !IsSpace(r[|r| - 1]))
  {
    TrimEnd(TrimStart(s))
  }

  /** A string trims to "" exactly when it is all white space. */
  lemma TrimEmptyIff(s: string)
    ensures Trim(s) == "" <==> AllSpace(s)
  {
    var r := Trim(s);
    assert r == [] || (r[0] == s[Lead(s)] && !IsSpace(s[Lead(s)]));
  }

  /** ASCII case folding of one character, as `toLowerCase` does for A-Z. */
  function LowerChar(c: char): (d: char)
    ensures IsSpace(d) <==> IsSpace(c)
    ensures 'a' <= d <= 'z' ==> 'a' <= c <= 'z' || 'A' <= c <= 'Z'
  {
    if 'A' <= c <= 'Z' then (c as int + 32) as char else c
  }

  /** `String.prototype.toLowerCase`, restricted to ASCII letters. */
  function ToLower(s: string): (r: string)
    ensures |r| == |s|
    ensures forall i :: 0 <= i < |s| ==> r[i] == LowerChar(s[i])
  {
    if s == [] then [] else [LowerChar(s[0])] + ToLower(s[1..])
  }

  predicate StartsWith(s: string, p: string) {
    |p| <= |s| && s[..|p|] == p
  }

  predicate EndsWith(s: string, p: string) {
    |p| <= |s| && s[|s| - |p|..] == p
  }

  /** `String.prototype.includes`, written as a scan over the start positions. */
  predicate Includes(s: string, p: string)
    decreases |s|
  {
    StartsWith(s, p) || (s != [] && Includes(s[1..], p))
  }

  /** The declarative reading of a substring occurrence. */
  ghost predicate OccursAt(s: string, p: string, i: int) {
    0 <= i && i + |p| <= |s| && s[i..i + |p|] == p
  }

  /** `Includes` finds an occurrence exactly when one exists. */
  lemma {:induction false} IncludesIff(s: string, p: string)
    ensures Includes(s, p) <==> exists i :: OccursAt(s, p, i)
    decreases |s|
  {
    if StartsWith(s, p) {
      assert OccursAt(s, p, 0);
    } else if s != [] {
      IncludesIff(s[1..], p);
      forall i | OccursAt(s, p, i)
        ensures OccursAt(s[1..], p, i - 1)
      {
        assert s[1..][i - 1..i - 1 + |p|] == s[i..i + |p|];
      }
      forall i | OccursAt(s[1..], p, i)
        ensures OccursAt(s, p, i + 1)
      {
        assert s[1..][i..i + |p|] == s[i + 1..i + 1 + |p|];
      }
    }
  }

  /** An occurrence inside an infix is an occurrence in the whole string. */
  lemma OccursInInfix(s: string, a: int, b: int, p: string, i: int)
    requires 0 <= a <= b <= |s|
    requires OccursAt(s[a..b], p, i)
    ensures OccursAt(s, p, a + i)
  {
    forall k | 0 <= k < |p|
      ensures s[a + i..a + i + |p|][k] == p[k]
    {
      assert s[a..b][i..i + |p|][k] == p[k];
    }
  }

  /** An occurrence lying within an infix is an occurrence in that infix. */
  lemma OccursWithinInfix(s: string, a: int, b: int, p: string, i: int)
    requires 0 <= a <= i && i + |p| <= b <= |s|
    requires OccursAt(s, p, i)
    ensures OccursAt(s[a..b], p, i - a)
  {
    forall k | 0 <= k < |p|
      ensures s[a..b][i - a..i - a + |p|][k] == p[k]
    {
      assert s[i..i + |p|][k] == p[k];
    }
  }

  /** Case folding commutes with taking an infix. */
  lemma ToLowerSlice(s: string, a: int, b: int)
    requires 0 <= a <= b <= |s|
    ensures ToLower(s[a..b]) == ToLower(s)[a..b]
  {
  }

  /** Looking for a non-empty word without white space in it gives the same
      answer before and after trimming: no occurrence can overlap the white
      space `trim` removes. */
  lemma IncludesLowerTrim(s: string, p: string)
    requires p != []
    requires forall j :: 0 <= j < |p| ==> !IsSpace(p[j])
    ensures Includes(ToLower(Trim(s)), p) <==> Includes(ToLower(s), p)
  {
    var a := Lead(s);
    var b := a + |Trim(s)|;
    assert Trim(s) == s[a..b];
    IncludesLowerInfix(s, a, b, p);
  }

  /** The same, for any infix outside which `s` holds only white space. */
  lemma IncludesLowerInfix(s: string, a: int, b: int, p: string)
    requires 0 <= a <= b <= |s|
    requires forall k :: 0 <= k < a ==> IsSpace(s[k])
    requires forall k :: b <= k < |s| ==> IsSpace(s[k])
    requires p != []
    requires forall j :: 0 <= j < |p| ==> !IsSpace(p[j])
    ensures Includes(ToLower(s[a..b]), p) <==> Includes(ToLower(s), p)
  {
    var ls := ToLower(s);
    var lr := ToLower(s[a..b]);
    ToLowerSlice(s, a, b);
    assert lr == ls[a..b];
    IncludesIff(lr, p);
    IncludesIff(ls, p);
    if exists i :: OccursAt(lr, p, i) {
      var i :| OccursAt(lr, p, i);
      OccursInInfix(ls, a, b, p, i);
    }
    if exists i :: OccursAt(ls, p, i) {
      var i :| OccursAt(ls, p, i);
      OccurrenceWithin(s, a, b, p, i);
      OccursWithinInfix(ls, a, b, p, i);
    }
  }

  /** An occurrence of a word without white space in the lower-cased string
      lies inside any infix outside which there is only white space. */
  lemma OccurrenceWithin(s: string, a: int, b: int, p: string, i: int)
    requires 0 <= a <= b <= |s|
    requires forall k :: 0 <= k < a ==> IsSpace(s[k])
    requires forall k :: b <= k < |s| ==> IsSpace(s[k])
    requires p != []
    requires forall j :: 0 <= j < |p| ==> !IsSpace(p[j])
    requires OccursAt(ToLower(s), p, i)
    ensures a <= i && i + |p| <= b
  {
    var ls := ToLower(s);
    assert ls[i] == ls[i..i + |p|][0] == p[0];
    assert !IsSpace(s[i]);
    assert ls[i + |p| - 1] == ls[i..i + |p|][|p| - 1] == p[|p| - 1];
    assert !IsSpace(s[i + |p| - 1]);
  }

  // ---------------------------------------------------------------------
  // Decimal integers: `parseInt(s, 10)` and `String(n)`.
  // ---------------------------------------------------------------------

  predicate IsDigit(c: char) {
    '0' <= c <= '9'
  }

  predicate AllDigits(s: string) {
    forall k :: 0 <= k < |s| ==> IsDigit(s[k])
  }

  function DigitValue(c: char): (v: nat)
    requires IsDigit(c)
    ensures v < 10
  {
    c as int - '0' as int
  }

  function DigitChar(v: nat): (c: char)
    requires v < 10
    ensures IsDigit(c) && DigitValue(c) == v
  {
    ('0' as int + v) as char
  }

  /** The longest prefix of `s` made of decimal digits. */
  function DigitPrefix(s: string): (d: string)
    ensures |d| <= |s| && d == s[..|d|] && AllDigits(d)
    ensures |d| < |s| ==> !IsDigit(s[|d|])
  {
    if s != [] && IsDigit(s[0]) then [s[0]] + DigitPrefix(s[1..]) else []
  }

  /** The value of a string of decimal digits, most significant first. */
  function DigitsValue(d: string): nat
    requires AllDigits(d)
  {
    if d == [] then 0 else 10 * DigitsValue(d[..|d| - 1]) + DigitValue(d[|d| - 1])
  }

  /** `parseInt(s, 10)`: skip leading white space, read an optional sign and
      then the longest run of decimal digits; `None` stands for `NaN`, which
      is what an empty run produces. Anything after the digits is ignored. */
  function ParseInt(s: string): (r: Option<int>)
    ensures r.None? <==> DigitPrefix(Unsigned(TrimStart(s))) == []
  {
    var t := TrimStart(s);
    var d := DigitPrefix(Unsigned(t));
    var v: int := DigitsValue(d);
    if d == [] then None
    else if t[0] == '-' then Some(-v)
    else Some(v)
  }

  /** `t` without its leading sign character, if it has one. */
  function Unsigned(t: string): string {
    if t != [] && (t[0] == '-' || t[0] == '+') then t[1..] else t
  }

  /** `String(n)` for a natural number: its shortest decimal spelling. */
  function NatToString(n: nat): (s: string)
    ensures s != [] && AllDigits(s)
    ensures n > 0 ==> s[0] != '0'
  {
    if n < 10 then [DigitChar(n)] else NatToString(n / 10) + [DigitChar(n % 10)]
  }

  /** `String(n)` for an integer. */
  function IntToString(n: int): (s: string)
    ensures s != [] && !IsSpace(s[0])
    ensures forall k :: 0 <= k < |s| ==> IsDigit(s[k]) || (k == 0 && s[k] == '-')
  {
    if n < 0 then "-" + NatToString(-n) else NatToString(n)
  }

  /** Reading back a printed natural number gives the number. */
  lemma {:induction false} DigitsValueOfNatToString(n: nat)
    ensures DigitsValue(NatToString(n)) == n
  {
    if n >= 10 {
      var s := NatToString(n);
      assert s[..|s| - 1] == NatToString(n / 10);
      DigitsValueOfNatToString(n / 10);
    }
  }

  /** `parseInt(String(n), 10) == n` for every integer `n`. */
  lemma ParseIntOfIntToString(n: int)
    ensures ParseInt(IntToString(n)) == Some(n)
  {
    ParseIntOfIntToStringThen(n, []);
    assert IntToString(n) + [] == IntToString(n);
  }

  /** Digits followed by anything that does not start with a digit: the
      digit prefix is exactly those digits. */
  lemma {:induction false} DigitPrefixThen(d: string, rest: string)
    requires AllDigits(d)
    requires rest == [] || !IsDigit(rest[0])
    ensures DigitPrefix(d + rest) == d
  {
    if d != [] {
      assert (d + rest)[1..] == d[1..] + rest;
      DigitPrefixThen(d[1..], rest);
    } else {
      assert d + rest == rest;
    }
  }

  /** A string that does not start with white space trims to itself. */
  lemma TrimStartNoSpace(s: string)
    requires s != [] && !IsSpace(s[0])
    ensures TrimStart(s) == s
  {
  }

  /** `parseInt` on a string that starts with its digits. */
  lemma ParseIntUnsigned(s: string, d: string)
    requires s != [] && IsDigit(s[0])
    requires d != [] && DigitPrefix(s) == d
    ensures ParseInt(s) == Some(DigitsValue(d))
  {
    TrimStartNoSpace(s);
  }

  /** `parseInt` on a minus sign followed by its digits. */
  lemma ParseIntNegative(s: string, d: string, m: int)
    requires s != [] && s[0] == '-'
    requires d != [] && DigitPrefix(s[1..]) == d && DigitsValue(d) == m
    ensures ParseInt(s) == Some(-m)
  {
    TrimStartNoSpace(s);
  }

  /** A printed negative number is a minus sign and the printed magnitude. */
  lemma NegativeSpelling(n: int, rest: string)
    requires n < 0
    ensures var s := IntToString(n) + rest;
      s != [] && s[0] == '-' && s[1..] == NatToString(-n) + rest
  {
    assert IntToString(n) == "-" + NatToString(-n);
  }

  lemma ParseIntOfNegativeThen(n: int, rest: string)
    requires n < 0
    requires rest == [] || !IsDigit(rest[0])
    ensures ParseInt(IntToString(n) + rest) == Some(n)
  {
    var d := NatToString(-n);
    DigitsValueOfNatToString(-n);
    NegativeSpelling(n, rest);
    DigitPrefixThen(d, rest);
    ParseIntNegative(IntToString(n) + rest, d, -n);
  }

  lemma ParseIntOfNaturalThen(n: nat, rest: string)
    requires rest == [] || !IsDigit(rest[0])
    ensures ParseInt(IntToString(n) + rest) == Some(n)
  {
    var d := NatToString(n);
    assert IntToString(n) == d;
    DigitPrefixThen(d, rest);
    ParseIntUnsigned(d + rest, d);
    DigitsValueOfNatToString(n);
  }

  /** `parseInt` reads a printed integer back even with text after it, as
      long as that text does not start with a digit. */
  lemma ParseIntOfIntToStringThen(n: int, rest: string)
    requires rest == [] || !IsDigit(rest[0])
    ensures ParseInt(IntToString(n) + rest) == Some(n)
  {
    if n < 0 {
      ParseIntOfNegativeThen(n, rest);
    } else {
      ParseIntOfNaturalThen(n, rest);
    }
  }
}
