/**
 * String helpers shared by the model: JavaScript's `String(n)` for integers,
 * `parseInt`, `includes`, `startsWith`, `split`, ASCII case mapping, and the
 * string ordering used by `Array.prototype.sort`, taken by code point.
 */
module Text {
  import opened Wrappers

  /** An optional string JavaScript treats as true: present and non-empty. */
  predicate Truthy(s: Option<string>) {
    s.Some? && s.value != ""
  }

  predicate IsDigit(c: char) { '0' <= c <= '9' }

  predicate AllDigits(s: string) { forall i :: 0 <= i < |s| ==> IsDigit(s[i]) }

  function DigitChar(d: nat): (c: char)
    requires d < 10
    ensures IsDigit(c) && c as int - '0' as int == d
  {
    ('0' as int + d) as char
  }

  /** `String(n)` for a non-negative integer: shortest decimal, no leading zero. */
  function NatToString(n: nat): (s: string)
    ensures |s| >= 1 && AllDigits(s)
    ensures (s[0] == '0') == (n == 0)
  {
    if n < 10 then [DigitChar(n)] else NatToString(n / 10) + [DigitChar(n % 10)]
  }

  /** `String(i)` for an integer. */
  function IntToString(i: int): (s: string)
    ensures |s| >= 1
    ensures (s[0] == '-') == (i < 0)
  {
    if i < 0 then "-" + NatToString(-i) else NatToString(i)
  }

  /**
   * The whole number of tenths nearest to `n / d`, halves rounded up: what
   * `Math.round(n / d * 10)` and `(n / d).toFixed(1)` compute for exact values.
   */
  function Tenths(n: int, d: int): (t: int)
    requires d > 0
    ensures 2 * d * t <= 20 * n + d < 2 * d * t + 2 * d
  {
    var q := (20 * n + d) / (2 * d);
    assert q * (2 * d) + (20 * n + d) % (2 * d) == 20 * n + d;
    q
  }

  /** The value of a string of decimal digits, most significant first. */
  function DigitsValue(s: string): nat
    requires AllDigits(s)
  {
    if s == [] then 0 else DigitsValue(s[..|s| - 1]) * 10 + (s[|s| - 1] as int - '0' as int)
  }

  /** Reading back the decimal rendering gives the number. */
  lemma {:induction false} NatToStringValue(n: nat)
    ensures DigitsValue(NatToString(n)) == n
  {
    if n >= 10 {
      var p := NatToString(n / 10);
      var s := p + [DigitChar(n % 10)];
      assert s[..|s| - 1] == p;
      NatToStringValue(n / 10);
    }
  }

  /** Distinct integers have distinct renderings. */
  lemma IntToStringInjective(a: int, b: int)
    ensures IntToString(a) == IntToString(b) <==> a == b
  {
    if IntToString(a) == IntToString(b) {
      if a < 0 {
        assert IntToString(a)[1..] == NatToString(-a);
        assert IntToString(b)[1..] == NatToString(-b);
        NatToStringValue(-a);
        NatToStringValue(-b);
      } else {
        NatToStringValue(a);
        NatToStringValue(b);
      }
    }
  }

  /** White space that `parseInt` skips (the ASCII part of it). */
  predicate IsSpace(c: char) {
    c == ' ' || c == '\t' || c == '\n' || c == '\r' || c == '\U{B}' || c == '\U{C}'
  }

  function TrimStart(s: string): (r: string)
    ensures |r| <= |s| && r == s[|s| - |r|..]
    ensures r == [] || !IsSpace(r[0])
  {
    if s != [] && IsSpace(s[0]) then TrimStart(s[1..]) else s
  }

  lemma TrimStartNoSpace(s: string)
    requires s != [] && !IsSpace(s[0])
    ensures TrimStart(s) == s
  {
  }

  /** The longest prefix of `s` made of decimal digits. */
  function DigitPrefix(s: string): (r: string)
    ensures r <= s && AllDigits(r)
    ensures |r| < |s| ==> !IsDigit(s[|r|])
  {
    if s != [] && IsDigit(s[0]) then [s[0]] + DigitPrefix(s[1..]) else []
  }

  /**
   * `parseInt(s)` with the default radix, for decimal input: skip leading white
   * space, read an optional sign, then the longest run of digits. `None` is NaN.
   */
  function ParseInt(s: string): (r: Option<int>)
    ensures r.None? <==> DigitPrefix(Unsigned(TrimStart(s))) == []
  {
    var t := TrimStart(s);
    var ds := DigitPrefix(Unsigned(t));
    if ds == [] then None
    else if t[0] == '-' then Some(-(DigitsValue(ds) as int))
    else Some(DigitsValue(ds))
  }

  /** `s` without a leading sign character. */
  function Unsigned(s: string): string {
    if s != [] && (s[0] == '-' || s[0] == '+') then s[1..] else s
  }

  lemma DigitPrefixOfDigits(s: string)
    requires AllDigits(s)
    ensures DigitPrefix(s) == s
  {
    if s != [] {
      DigitPrefixOfDigits(s[1..]);
    }
  }

  /** The digit run of a string stops where the digits stop. */
  lemma {:induction false} DigitPrefixStops(ds: string, rest: string)
    requires AllDigits(ds)
    requires rest == [] || !IsDigit(rest[0])
    ensures DigitPrefix(ds + rest) == ds
  {
    if ds == [] {
    } else {
      assert (ds + rest)[1..] == ds[1..] + rest;
      DigitPrefixStops(ds[1..], rest);
    }
  }

  /** `parseInt` reads an optional minus sign and a run of digits that no digit follows. */
  lemma {:induction false} ParseIntOfSignedDigits(negative: bool, ds: string, rest: string)
    requires ds != [] && AllDigits(ds)
    requires rest == [] || !IsDigit(rest[0])
    ensures ParseInt((if negative then "-" else "") + ds + rest)
      == Some(if negative then -(DigitsValue(ds) as int) else DigitsValue(ds))
  {
    var u := ds + rest;
    var s := (if negative then "-" else "") + u;
    assert s == (if negative then "-" else "") + ds + rest;
    assert s[0] == (if negative then '-' else ds[0]);
    TrimStartNoSpace(s);
    assert Unsigned(s) == u;
    DigitPrefixStops(ds, rest);
  }

  /** `parseInt` reads back `String(i)` from the front of a string when no digit follows it. */
  lemma {:induction false} ParseIntOfIntToStringThen(i: int, rest: string)
    requires rest == [] || !IsDigit(rest[0])
    ensures ParseInt(IntToString(i) + rest) == Some(i)
  {
    var m: nat := if i < 0 then -i else i;
    NatToStringValue(m);
    ParseIntOfSignedDigits(i < 0, NatToString(m), rest);
    assert IntToString(i) == (if i < 0 then "-" else "") + NatToString(m);
  }

  /** `parseInt(String(i)) == i`. */
  lemma ParseIntOfIntToString(i: int)
    ensures ParseInt(IntToString(i)) == Some(i)
  {
    ParseIntOfIntToStringThen(i, []);
    assert IntToString(i) + [] == IntToString(i);
  }

  /** `s.includes(t)`: `t` occurs in `s` at some position. */
  predicate Contains(s: string, t: string) {
    t <= s || (s != [] && Contains(s[1..], t))
  }

  lemma {:induction false} ContainsAt(s: string, t: string, i: nat)
    requires i + |t| <= |s| && s[i..i + |t|] == t
    ensures Contains(s, t)
  {
    if i > 0 {
      assert s[1..][i - 1..i - 1 + |t|] == t;
      ContainsAt(s[1..], t, i - 1);
    }
  }

  /** Every string includes the empty string. */
  lemma ContainsEmpty(s: string)
    ensures Contains(s, "")
  {
  }

  /** The lower-case letter for an ASCII upper-case letter; every other character is kept. */
  function LowerChar(c: char): char {
    if 'A' <= c <= 'Z' then (c as int + 32) as char else c
  }

  function UpperChar(c: char): char {
    if 'a' <= c <= 'z' then (c as int - 32) as char else c
  }

  /** `s.toLowerCase()` on ASCII letters. */
  function ToLower(s: string): (r: string)
    ensures |r| == |s| && forall i :: 0 <= i < |s| ==> r[i] == LowerChar(s[i])
  {
    seq(|s|, i requires 0 <= i < |s| => LowerChar(s[i]))
  }

  /** `s.charAt(0).toUpperCase() + s.slice(1)`. */
  function Capitalize(s: string): (r: string)
    ensures |r| == |s| && (s != [] ==> r[0] == UpperChar(s[0]) && r[1..] == s[1..])
  {
    if s == [] then "" else [UpperChar(s[0])] + s[1..]
  }

  /** `s.split(sep)` for a one-character separator: always at least one field. */
  function Split(s: string, sep: char): (r: seq<string>)
    ensures |r| >= 1
    ensures forall i :: 0 <= i < |r| ==> sep !in r[i]
  {
    if s == [] then [""]
    else if s[0] == sep then [""] + Split(s[1..], sep)
    else
      var rest := Split(s[1..], sep);
      [[s[0]] + rest[0]] + rest[1..]
  }

  /** A string without the separator is a single field. */
  lemma {:induction false} SplitNoSep(s: string, sep: char)
    requires sep !in s
    ensures Split(s, sep) == [s]
  {
    if s != [] {
      SplitNoSep(s[1..], sep);
      assert [s[0]] + s[1..] == s;
    }
  }

  /** Splitting at the first separator peels off the first field. */
  lemma {:induction false} SplitAppend(a: string, sep: char, b: string)
    requires sep !in a
    ensures Split(a + [sep] + b, sep) == [a] + Split(b, sep)
  {
    if a == [] {
      assert a + [sep] + b == [sep] + b;
      assert ([sep] + b)[1..] == b;
    } else {
      assert (a + [sep] + b)[1..] == a[1..] + [sep] + b;
      SplitAppend(a[1..], sep, b);
      assert [a[0]] + a[1..] == a;
    }
  }

  /** The last field is what follows the last separator. */
  lemma {:induction false} SplitLast(a: string, sep: char, b: string)
    requires sep !in b
    ensures var r := Split(a + [sep] + b, sep); |r| >= 2 && r[|r| - 1] == b
  {
    if a == [] {
      assert a + [sep] + b == [sep] + b;
      assert ([sep] + b)[1..] == b;
      SplitNoSep(b, sep);
    } else {
      assert (a + [sep] + b)[1..] == a[1..] + [sep] + b;
      SplitLast(a[1..], sep, b);
    }
  }

  /** Splitting fields joined by a separator none of them contains gives the fields back. */
  lemma {:induction false} JoinSplit(fields: seq<string>, sep: char)
    requires |fields| >= 1
    requires forall i :: 0 <= i < |fields| ==> sep !in fields[i]
    ensures Split(Join(fields, sep), sep) == fields
  {
    if |fields| == 1 {
      SplitNoSep(fields[0], sep);
    } else {
      SplitAppend(fields[0], sep, Join(fields[1..], sep));
      JoinSplit(fields[1..], sep);
    }
  }

  lemma Join3(a: string, b: string, c: string, sep: char)
    ensures Join([a, b, c], sep) == a + [sep] + b + [sep] + c
  {
    var f := [a, b, c];
    assert f[1..] == [b, c];
    assert Join([c], sep) == c;
    assert Join([b, c], sep) == b + [sep] + c;
  }

  /** A decimal rendering holds neither a space nor (for a non-negative number) a minus sign. */
  lemma IntToStringChars(i: int)
    ensures ' ' !in IntToString(i)
    ensures i >= 0 ==> '-' !in IntToString(i) && AllDigits(IntToString(i))
  {
    if i < 0 {
      assert IntToString(i) == "-" + NatToString(-i);
      assert ' ' !in NatToString(-i);
    } else {
      assert ' ' !in NatToString(i) && '-' !in NatToString(i);
    }
  }

  /** Joining the fields with the separator gives back the string. */
  lemma {:induction false} SplitJoin(s: string, sep: char)
    ensures Join(Split(s, sep), sep) == s
  {
    if s != [] {
      SplitJoin(s[1..], sep);
      if s[0] != sep {
        var rest := Split(s[1..], sep);
        JoinConsHead(rest, sep, s[0]);
      }
    }
  }

  function Join(fields: seq<string>, sep: char): string {
    if fields == [] then ""
    else if |fields| == 1 then fields[0]
    else fields[0] + [sep] + Join(fields[1..], sep)
  }

  lemma JoinConsHead(fields: seq<string>, sep: char, c: char)
    requires |fields| >= 1
    ensures Join([[c] + fields[0]] + fields[1..], sep) == [c] + Join(fields, sep)
  {
    var g := [[c] + fields[0]] + fields[1..];
    if |fields| > 1 {
      assert g[1..] == fields[1..];
    }
  }

  /** ASCII white space matched by the regular expression class `\s`. */
  predicate IsRegexSpace(c: char) {
    IsSpace(c)
  }

  function DropSpaces(s: string): (r: string)
    ensures |r| <= |s|
    ensures s != [] && IsRegexSpace(s[0]) ==> |r| < |s|
    ensures r == [] || !IsRegexSpace(r[0])
  {
    if s != [] && IsRegexSpace(s[0]) then DropSpaces(s[1..]) else s
  }

  /**
   * `s.split(/\s+/)`: fields separated by maximal runs of white space; a leading
   * run gives an empty first field and a trailing run an empty last one.
   */
  function SplitSpaces(s: string): (r: seq<string>)
    ensures |r| >= 1
    ensures forall i :: 0 <= i < |r| ==> forall k :: 0 <= k < |r[i]| ==> !IsRegexSpace(r[i][k])
    decreases |s|
  {
    if s == [] then [""]
    else if IsRegexSpace(s[0]) then [""] + SplitSpaces(DropSpaces(s))
    else
      var rest := SplitSpaces(s[1..]);
      [[s[0]] + rest[0]] + rest[1..]
  }

  predicate NoSpaces(w: string) {
    forall k :: 0 <= k < |w| ==> !IsRegexSpace(w[k])
  }

  /** A word followed by white space (or nothing) is the first field. */
  lemma {:induction false} SplitSpacesWordFirst(w: string, s: string)
    requires w != [] && NoSpaces(w)
    requires s == [] || IsRegexSpace(s[0])
    ensures SplitSpaces(w + s) == [w] + SplitSpaces(s)[1..]
  {
    assert (w + s)[1..] == w[1..] + s;
    assert !IsRegexSpace(w[0]);
    assert SplitSpaces(s)[0] == [];
    if |w| == 1 {
      assert w[1..] + s == s;
      assert [w[0]] + [] == w;
    } else {
      assert NoSpaces(w[1..]);
      SplitSpacesWordFirst(w[1..], s);
      assert [w[0]] + w[1..] == w;
    }
  }

  /** Splitting words joined by single spaces gives the words back. */
  lemma {:induction false} SplitSpacesJoin(words: seq<string>)
    requires |words| >= 1
    requires forall i :: 0 <= i < |words| ==> words[i] != [] && NoSpaces(words[i])
    ensures SplitSpaces(Join(words, ' ')) == words
  {
    if |words| == 1 {
      SplitSpacesWordFirst(words[0], []);
      assert words[0] + [] == words[0];
    } else {
      var j := Join(words[1..], ' ');
      JoinStartsWithFirst(words[1..], ' ');
      var s := [' '] + j;
      assert Join(words, ' ') == words[0] + s;
      SplitSpacesWordFirst(words[0], s);
      assert DropSpaces(s) == j;
      SplitSpacesJoin(words[1..]);
    }
  }

  lemma JoinStartsWithFirst(words: seq<string>, sep: char)
    requires |words| >= 1
    ensures words[0] <= Join(words, sep)
  {
  }

  /** Strict code-point order on strings, the order of `Array.prototype.sort()`. */
  predicate LexLess(a: string, b: string) {
    if a == [] then b != []
    else if b == [] then false
    else if a[0] != b[0] then a[0] < b[0]
    else LexLess(a[1..], b[1..])
  }

  lemma {:induction false} LexLessIrreflexive(a: string)
    ensures !LexLess(a, a)
  {
    if a != [] {
      LexLessIrreflexive(a[1..]);
    }
  }

  lemma {:induction false} LexLessTransitive(a: string, b: string, c: string)
    requires LexLess(a, b) && LexLess(b, c)
    ensures LexLess(a, c)
  {
    if a != [] && b != [] && c != [] && a[0] == b[0] == c[0] {
      LexLessTransitive(a[1..], b[1..], c[1..]);
    }
  }

  lemma {:induction false} LexLessTotal(a: string, b: string)
    requires a != b
    ensures LexLess(a, b) || LexLess(b, a)
  {
    if a != [] && b != [] && a[0] == b[0] {
      assert a == [a[0]] + a[1..] && b == [b[0]] + b[1..];
      LexLessTotal(a[1..], b[1..]);
    }
  }

  lemma LexLessAsymmetric(a: string, b: string)
    requires LexLess(a, b)
    ensures !LexLess(b, a)
  {
    if LexLess(b, a) {
      LexLessTransitive(a, b, a);
      LexLessIrreflexive(a);
    }
  }
}
