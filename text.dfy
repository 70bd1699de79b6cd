/** String operations of JavaScript that the core relies on, restricted to
    ASCII: `toLowerCase`, `\s`, `trim`, `split` on one character, `includes`,
    `replace` with a string pattern, `parseInt`, `parseFloat` and the decimal
    rendering of integers. */
module Text {
  import opened Wrappers

  // ---------------------------------------------------------------------
  // Characters

  /** The ASCII members of JavaScript's `\s`: space, tab, line feed,
      vertical tab, form feed and carriage return. */
  predicate IsSpace(c: char)
  {
    c == ' ' || '\t' <= c <= '\r'
  }

  predicate IsDigit(c: char)
  {
    '0' <= c <= '9'
  }

  function LowerChar(c: char): char
  {
    if 'A' <= c <= 'Z' then (c as int + 32) as char else c
  }

  function UpperChar(c: char): char
  {
    if 'a' <= c <= 'z' then (c as int - 32) as char else c
  }

  /** `toLowerCase` on ASCII letters; every other character is kept. */
  function Lower(s: string): (r: string)
    ensures |r| == |s|
    ensures forall i :: 0 <= i < |s| ==> r[i] == LowerChar(s[i])
  {
    seq(|s|, i requires 0 <= i < |s| => LowerChar(s[i]))
  }

  /** `toUpperCase` on ASCII letters. */
  function Upper(s: string): (r: string)
    ensures |r| == |s|
    ensures forall i :: 0 <= i < |s| ==> r[i] == UpperChar(s[i])
  {
    seq(|s|, i requires 0 <= i < |s| => UpperChar(s[i]))
  }

  lemma {:induction false} LowerOfUpper(s: string)
    ensures Lower(Upper(s)) == Lower(s)
  {
    assert forall i :: 0 <= i < |s| ==> LowerChar(UpperChar(s[i])) == LowerChar(s[i]);
  }

  lemma {:induction false} LowerIdempotent(s: string)
    ensures Lower(Lower(s)) == Lower(s)
  {
    assert forall i :: 0 <= i < |s| ==> LowerChar(LowerChar(s[i])) == LowerChar(s[i]);
  }

  lemma {:induction false} LowerConcat(a: string, b: string)
    ensures Lower(a + b) == Lower(a) + Lower(b)
  {
  }

  predicate NoSpace(s: string)
  {
    forall i :: 0 <= i < |s| ==> !IsSpace(s[i])
  }

  predicate AllSpace(s: string)
  {
    forall i :: 0 <= i < |s| ==> IsSpace(s[i])
  }

  // ---------------------------------------------------------------------
  // trim

  /** Drops the leading whitespace. */
  function TrimStart(s: string): (r: string)
    ensures |r| <= |s|
    ensures r == [] || !IsSpace(r[0])
  {
    if s != [] && IsSpace(s[0]) then TrimStart(s[1..]) else s
  }

  /** What `TrimStart` drops is a run of whitespace at the front. */
  lemma {:induction false} TrimStartShape(s: string)
    ensures var r := TrimStart(s); r == s[|s| - |r|..] && AllSpace(s[..|s| - |r|])
    decreases |s|
  {
    if s != [] && IsSpace(s[0]) {
      TrimStartShape(s[1..]);
      var r := TrimStart(s);
      assert s[1..][|s| - 1 - |r|..] == s[|s| - |r|..];
      var dropped, rest := s[..|s| - |r|], s[1..][..|s| - 1 - |r|];
      forall i | 0 <= i < |dropped|
        ensures IsSpace(dropped[i])
      {
        if i > 0 {
          assert dropped[i] == rest[i - 1];
        }
      }
    }
  }

  /** Drops the trailing whitespace. */
  function TrimEnd(s: string): (r: string)
    ensures |r| <= |s|
    ensures r == [] || !IsSpace(r[|r| - 1])
  {
    if s != [] && IsSpace(s[|s| - 1]) then TrimEnd(s[..|s| - 1]) else s
  }

  /** What `TrimEnd` drops is a run of whitespace at the end. */
  lemma {:induction false} TrimEndShape(s: string)
    ensures var r := TrimEnd(s); r == s[..|r|] && AllSpace(s[|r|..])
    decreases |s|
  {
    if s != [] && IsSpace(s[|s| - 1]) {
      TrimEndShape(s[..|s| - 1]);
      var r := TrimEnd(s);
      assert s[..|s| - 1][..|r|] == s[..|r|];
      var dropped, rest := s[|r|..], s[..|s| - 1][|r|..];
      forall i | 0 <= i < |dropped|
        ensures IsSpace(dropped[i])
      {
        if i < |rest| {
          assert dropped[i] == rest[i];
        }
      }
    }
  }

  /** `String.prototype.trim`. */
  function Trim(s: string): string
  {
    TrimEnd(TrimStart(s))
  }

  lemma {:induction false} TrimStartAfterSpace(w: string, s: string)
    requires AllSpace(w)
    ensures TrimStart(w + s) == TrimStart(s)
  {
    if w != [] {
      assert (w + s)[1..] == w[1..] + s;
      TrimStartAfterSpace(w[1..], s);
    } else {
      assert w + s == s;
    }
  }

  lemma {:induction false} TrimEndBeforeSpace(s: string, w: string)
    requires AllSpace(w)
    ensures TrimEnd(s + w) == TrimEnd(s)
  {
    if w != [] {
      assert (s + w)[..|s + w| - 1] == s + w[..|w| - 1];
      TrimEndBeforeSpace(s, w[..|w| - 1]);
    } else {
      assert s + w == s;
    }
  }

  lemma {:induction false} TrimStartAppend(s: string, x: string)
    requires TrimStart(s) != []
    ensures TrimStart(s + x) == TrimStart(s) + x
    decreases |s|
  {
    if IsSpace(s[0]) {
      assert (s + x)[1..] == s[1..] + x;
      TrimStartAppend(s[1..], x);
    }
  }

  lemma {:induction false} TrimStartAllSpace(s: string)
    requires AllSpace(s)
    ensures TrimStart(s) == []
    decreases |s|
  {
    if s != [] {
      TrimStartAllSpace(s[1..]);
    }
  }

  /** Whitespace at either end does not change the trimmed text. */
  lemma {:induction false} TrimPadded(w1: string, s: string, w2: string)
    requires AllSpace(w1) && AllSpace(w2)
    ensures Trim(w1 + s + w2) == Trim(s)
  {
    assert w1 + s + w2 == w1 + (s + w2);
    TrimStartAfterSpace(w1, s + w2);
    var t := TrimStart(s);
    if t != [] {
      TrimStartAppend(s, w2);
      TrimEndBeforeSpace(t, w2);
    } else {
      TrimStartShape(s);
      assert AllSpace(s) by {
        assert s == s[..|s| - |t|];
      }
      TrimStartAllSpace(s + w2);
    }
  }

  lemma {:induction false} LowerKeepsSpace(s: string)
    ensures forall i :: 0 <= i < |s| ==> (IsSpace(Lower(s)[i]) <==> IsSpace(s[i]))
  {
  }

  lemma {:induction false} TrimStartLower(s: string)
    ensures TrimStart(Lower(s)) == Lower(TrimStart(s))
    decreases |s|
  {
    if s != [] && IsSpace(s[0]) {
      assert Lower(s)[1..] == Lower(s[1..]);
      TrimStartLower(s[1..]);
    }
  }

  lemma {:induction false} TrimEndLower(s: string)
    ensures TrimEnd(Lower(s)) == Lower(TrimEnd(s))
    decreases |s|
  {
    if s != [] && IsSpace(s[|s| - 1]) {
      assert Lower(s)[..|s| - 1] == Lower(s[..|s| - 1]);
      TrimEndLower(s[..|s| - 1]);
    }
  }

  /** Lower-casing and trimming commute. */
  lemma {:induction false} TrimLower(s: string)
    ensures Trim(Lower(s)) == Lower(Trim(s))
  {
    TrimStartLower(s);
    TrimEndLower(TrimStart(s));
  }

  // ---------------------------------------------------------------------
  // split on one character

  /** The first position of `c` in `s`. */
  function IndexOf(s: string, c: char): (i: nat)
    requires c in s
    ensures i < |s|
  {
    if s[0] == c then 0 else 1 + IndexOf(s[1..], c)
  }

  /** `IndexOf` finds the first occurrence. */
  lemma {:induction false} IndexOfFirst(s: string, c: char)
    requires c in s
    ensures s[IndexOf(s, c)] == c && c !in s[..IndexOf(s, c)]
    decreases |s|
  {
    if s[0] != c {
      assert c in s[1..] by {
        var k :| 0 <= k < |s| && s[k] == c;
        assert s[1..][k - 1] == c;
      }
      IndexOfFirst(s[1..], c);
      var j := IndexOf(s[1..], c);
      assert s[..1 + j] == [s[0]] + s[1..][..j];
    }
  }

  lemma {:induction false} IndexOfAt(a: string, c: char, b: string)
    requires c !in a
    ensures c in a + [c] + b && IndexOf(a + [c] + b, c) == |a|
  {
    var s := a + [c] + b;
    assert s[|a|] == c;
    IndexOfFirst(s, c);
  }

  /** `s.split(sep)` for a one-character separator: the pieces between the
      separators, so that `k` separators give `k + 1` pieces. */
  function Split(s: string, sep: char): (parts: seq<string>)
    ensures |parts| >= 1
    decreases |s|
  {
    if sep in s then
      var i := IndexOf(s, sep);
      [s[..i]] + Split(s[i + 1..], sep)
    else
      [s]
  }

  /** The first piece is the text before the first separator, and there is
      a second piece exactly when the separator occurs. */
  lemma {:induction false} SplitShape(s: string, sep: char)
    ensures var parts := Split(s, sep);
      && sep !in parts[0] && |parts[0]| <= |s| && parts[0] == s[..|parts[0]|]
      && ((|parts| == 1) <==> sep !in s)
  {
    if sep in s {
      IndexOfFirst(s, sep);
    }
  }

  lemma {:induction false} SplitAt(a: string, sep: char, b: string)
    requires sep !in a
    ensures Split(a + [sep] + b, sep) == [a] + Split(b, sep)
  {
    var s := a + [sep] + b;
    IndexOfAt(a, sep, b);
    assert s[..|a|] == a;
    assert s[|a| + 1..] == b;
  }

  lemma {:induction false} SplitNone(s: string, sep: char)
    requires sep !in s
    ensures Split(s, sep) == [s]
  {
  }

  // ---------------------------------------------------------------------
  // Decimal digits

  predicate AllDigits(s: string)
  {
    forall i :: 0 <= i < |s| ==> IsDigit(s[i])
  }

  function DigitValue(c: char): nat
    requires IsDigit(c)
  {
    c as int - '0' as int
  }

  function DigitChar(d: nat): (c: char)
    requires d < 10
    ensures IsDigit(c) && DigitValue(c) == d
  {
    ('0' as int + d) as char
  }

  /** The value of a string of decimal digits (leading zeros allowed). */
  function DigitsValue(s: string): nat
    requires AllDigits(s)
    decreases |s|
  {
    if s == [] then 0 else DigitsValue(s[..|s| - 1]) * 10 + DigitValue(s[|s| - 1])
  }

  /** The longest prefix of `s` made of digits. */
  function DigitPrefix(s: string): (d: string)
    ensures AllDigits(d) && |d| <= |s|
  {
    if s != [] && IsDigit(s[0]) then [s[0]] + DigitPrefix(s[1..]) else []
  }

  /** `DigitPrefix` is a prefix, and the character after it is no digit. */
  lemma {:induction false} DigitPrefixShape(s: string)
    ensures var d := DigitPrefix(s); d == s[..|d|] && (|d| == |s| || !IsDigit(s[|d|]))
    decreases |s|
  {
    if s != [] && IsDigit(s[0]) {
      DigitPrefixShape(s[1..]);
      var d := DigitPrefix(s);
      assert d == [s[0]] + DigitPrefix(s[1..]);
      assert s[..|d|] == [s[0]] + s[1..][..|d| - 1];
    }
  }

  lemma {:induction false} DigitPrefixOf(d: string, rest: string)
    requires AllDigits(d)
    requires rest == [] || !IsDigit(rest[0])
    ensures DigitPrefix(d + rest) == d
  {
    if d != [] {
      assert (d + rest)[1..] == d[1..] + rest;
      DigitPrefixOf(d[1..], rest);
    } else {
      assert d + rest == rest;
    }
  }

  /** The decimal rendering of a natural number, without leading zeros:
      JavaScript's `String(n)` / template interpolation of `n`. */
  function NatToString(n: nat): (s: string)
    ensures |s| >= 1 && AllDigits(s)
    ensures s[0] == '0' ==> n == 0
    decreases n
  {
    if n < 10 then [DigitChar(n)] else NatToString(n / 10) + [DigitChar(n % 10)]
  }

  /** The decimal rendering of an integer, with a leading '-' when negative. */
  function IntToString(i: int): (s: string)
    ensures |s| >= 1 && (i >= 0 ==> s == NatToString(i))
  {
    if i < 0 then "-" + NatToString(-i) else NatToString(i)
  }

  lemma {:induction false} DigitsValueOfNatToString(n: nat)
    ensures DigitsValue(NatToString(n)) == n
    decreases n
  {
    if n >= 10 {
      var s := NatToString(n);
      assert s[..|s| - 1] == NatToString(n / 10);
      DigitsValueOfNatToString(n / 10);
    }
  }

  lemma {:induction false} NatToStringNoSeparator(n: nat, c: char)
    requires !IsDigit(c)
    ensures c !in NatToString(n)
  {
  }

  // ---------------------------------------------------------------------
  // parseInt and parseFloat

  /** The text after the leading whitespace and an optional sign. */
  function Unsigned(s: string): string
  {
    var t := TrimStart(s);
    if |t| > 0 && (t[0] == '-' || t[0] == '+') then t[1..] else t
  }

  predicate Negative(s: string)
  {
    var t := TrimStart(s);
    |t| > 0 && t[0] == '-'
  }

  /** `parseInt(s, 10)`: leading whitespace, an optional sign, then the
      longest run of digits; `None` (NaN) when there is no digit. */
  function ParseInt(s: string): (r: Option<int>)
    ensures r.None? <==> DigitPrefix(Unsigned(s)) == []
  {
    var d := DigitPrefix(Unsigned(s));
    if d == [] then None
    else Some(if Negative(s) then -(DigitsValue(d) as int) else DigitsValue(d))
  }

  /** `parseInt(x) || 0`: NaN (and 0) become 0. */
  function ParseIntOrZero(s: string): int
  {
    ParseInt(s).GetOr(0)
  }

  lemma {:induction false} UnsignedOfDigitStart(s: string)
    requires s != [] && IsDigit(s[0])
    ensures TrimStart(s) == s && Unsigned(s) == s && !Negative(s)
  {
  }

  lemma {:induction false} ParseIntOfNat(n: nat, rest: string)
    requires rest == [] || !IsDigit(rest[0])
    ensures ParseInt(NatToString(n) + rest) == Some(n)
  {
    var s := NatToString(n) + rest;
    assert s[0] == NatToString(n)[0];
    UnsignedOfDigitStart(s);
    DigitPrefixOf(NatToString(n), rest);
    DigitsValueOfNatToString(n);
  }

  lemma {:induction false} ParseIntOfNatAlone(n: nat)
    ensures ParseInt(NatToString(n)) == Some(n)
  {
    ParseIntOfNat(n, []);
    assert NatToString(n) + [] == NatToString(n);
  }

  lemma {:induction false} ParseIntOfInt(i: int, rest: string)
    requires rest == [] || !IsDigit(rest[0])
    ensures ParseInt(IntToString(i) + rest) == Some(i)
  {
    if i >= 0 {
      ParseIntOfNat(i, rest);
    } else {
      var body := NatToString(-i) + rest;
      var s := IntToString(i) + rest;
      assert s == "-" + body;
      assert s[1..] == body;
      assert Unsigned(s) == body && Negative(s) by {
        assert TrimStart(s) == s;
      }
      DigitPrefixOf(NatToString(-i), rest);
      DigitsValueOfNatToString(-i);
    }
  }

  /** `parseFloat(s)` for plain decimal text: leading whitespace, an
      optional sign, digits, optionally '.' and more digits; `None` (NaN)
      when neither part has a digit. */
  function ParseFloat(s: string): Option<real>
  {
    var body := Unsigned(s);
    var whole := DigitPrefix(body);
    var after := body[|whole|..];
    var frac := if |after| > 0 && after[0] == '.' then DigitPrefix(after[1..]) else [];
    if whole == [] && frac == [] then None
    else
      var v := DecimalValue(whole, frac);
      Some(if Negative(s) then -v else v)
  }

  /** The value of the digits `whole`, a point and the digits `frac`. */
  function DecimalValue(whole: string, frac: string): real
    requires AllDigits(whole) && AllDigits(frac)
  {
    DigitsValue(whole) as real + FractionValue(frac)
  }

  /** The value of the digits `frac` read after a decimal point. */
  function FractionValue(frac: string): (v: real)
    requires AllDigits(frac)
    ensures 0.0 <= v <= 1.0
    decreases |frac|
  {
    if frac == [] then 0.0 else (DigitValue(frac[0]) as real + FractionValue(frac[1..])) / 10.0
  }

  /** `parseFloat` reads "w.f" back from its digit strings. */
  lemma {:induction false} ParseFloatOfDigits(w: string, f: string, rest: string)
    requires w != [] && AllDigits(w) && AllDigits(f)
    requires rest == [] || !IsDigit(rest[0])
    ensures ParseFloat(w + "." + f + rest) == Some(DecimalValue(w, f))
  {
    var s := w + "." + f + rest;
    assert s[0] == w[0];
    UnsignedOfDigitStart(s);
    assert s == w + ("." + f + rest);
    DigitPrefixOf(w, "." + f + rest);
    assert s[|w|..] == "." + f + rest;
    assert ("." + f + rest)[1..] == f + rest;
    DigitPrefixOf(f, rest);
  }

  /** `parseFloat` reads "o.b" back as o + b/10. */
  lemma {:induction false} ParseFloatOfDecimal(o: nat, b: nat, rest: string)
    requires b < 10
    requires rest == [] || !IsDigit(rest[0])
    ensures ParseFloat(NatToString(o) + "." + [DigitChar(b)] + rest) == Some(o as real + b as real / 10.0)
  {
    ParseFloatOfDigits(NatToString(o), [DigitChar(b)], rest);
    DecimalOfNat(o, b);
    assert ParseFloat(NatToString(o) + "." + [DigitChar(b)] + rest) == Some(DecimalValue(NatToString(o), [DigitChar(b)]));
  }

  lemma {:induction false} DecimalOfNat(o: nat, b: nat)
    requires b < 10
    ensures DecimalValue(NatToString(o), [DigitChar(b)]) == o as real + b as real / 10.0
  {
    DecimalOfOneDigit(NatToString(o), b);
    DigitsValueOfNatToString(o);
  }

  lemma {:induction false} DecimalOfOneDigit(w: string, b: nat)
    requires AllDigits(w) && b < 10
    ensures DecimalValue(w, [DigitChar(b)]) == DigitsValue(w) as real + b as real / 10.0
  {
    assert [DigitChar(b)][1..] == [];
    assert FractionValue([DigitChar(b)]) == (b as real + FractionValue([])) / 10.0;
  }

  /** `parseFloat` reads a whole number "o" followed by text that is neither a
      digit nor '.' back as o. */
  lemma {:induction false} ParseFloatOfNat(o: nat, rest: string)
    requires rest == [] || (!IsDigit(rest[0]) && rest[0] != '.')
    ensures ParseFloat(NatToString(o) + rest) == Some(o as real)
  {
    var w := NatToString(o);
    var s := w + rest;
    assert s[0] == w[0];
    UnsignedOfDigitStart(s);
    DigitPrefixOf(w, rest);
    assert s[|w|..] == rest;
    DigitsValueOfNatToString(o);
  }

  // ---------------------------------------------------------------------
  // includes and replace

  predicate OccursAt(s: string, pat: string, i: nat)
  {
    i + |pat| <= |s| && s[i..i + |pat|] == pat
  }

  /** `text.includes(pat)`. */
  predicate Contains(text: string, pat: string)
  {
    exists i: nat :: i <= |text| && OccursAt(text, pat, i)
  }

  /** Being a substring is transitive. */
  lemma {:induction false} ContainsTransitive(a: string, b: string, c: string)
    requires Contains(a, b) && Contains(b, c)
    ensures Contains(a, c)
  {
    var i: nat :| i <= |a| && OccursAt(a, b, i);
    var j: nat :| j <= |b| && OccursAt(b, c, j);
    forall k | 0 <= k < |c|
      ensures a[i + j..i + j + |c|][k] == c[k]
    {
      assert c[k] == b[j + k];
      assert b[j + k] == a[i..i + |b|][j + k];
    }
    assert a[i + j..i + j + |c|] == c;
    assert OccursAt(a, c, i + j);
  }

  lemma {:induction false} ContainsSelf(a: string)
    ensures Contains(a, a)
  {
    assert OccursAt(a, a, 0);
  }

  /** Lower-casing keeps an occurrence. */
  lemma {:induction false} ContainsLower(a: string, b: string)
    requires Contains(a, b)
    ensures Contains(Lower(a), Lower(b))
  {
    var i: nat :| i <= |a| && OccursAt(a, b, i);
    forall k | 0 <= k < |b|
      ensures Lower(a)[i..i + |b|][k] == Lower(b)[k]
    {
      assert b[k] == a[i..i + |b|][k];
    }
    assert Lower(a)[i..i + |b|] == Lower(b);
    assert OccursAt(Lower(a), Lower(b), i);
  }

  /** The trimmed text occurs in the text, and it starts and ends with a
      non-whitespace character unless it is empty. */
  lemma {:induction false} TrimOccurs(s: string)
    ensures var r := Trim(s); Contains(s, r)
    ensures var r := Trim(s); r == [] || (!IsSpace(r[0]) && !IsSpace(r[|r| - 1]))
  {
    TrimStartShape(s);
    var t := TrimStart(s);
    TrimEndShape(t);
    var r := TrimEnd(t);
    var a := |s| - |t|;
    assert s[a..a + |r|] == t[..|r|];
    assert OccursAt(s, r, a);
    if r != [] {
      assert r[0] == t[0];
    }
  }

  /** Text that starts and ends with a non-whitespace character and occurs in
      `s` still occurs once `s` is trimmed: the trim cuts only whitespace
      runs at the two ends. */
  lemma {:induction false} ContainsTrimmed(s: string, pat: string)
    requires pat != [] && !IsSpace(pat[0]) && !IsSpace(pat[|pat| - 1])
    requires Contains(s, pat)
    ensures Contains(Trim(s), pat)
  {
    var i: nat :| i <= |s| && OccursAt(s, pat, i);
    TrimStartShape(s);
    var t := TrimStart(s);
    var a := |s| - |t|;
    TrimEndShape(t);
    var r := TrimEnd(t);
    assert pat[0] == s[i];
    if i < a {
      assert false;
    }
    var e := i - a + |pat| - 1;
    assert pat[|pat| - 1] == t[e];
    if e >= |r| {
      assert false;
    }
    forall k | 0 <= k < |pat|
      ensures r[i - a..i - a + |pat|][k] == pat[k]
    {
      assert pat[k] == s[i + k] == t[i - a + k];
    }
    assert r[i - a..i - a + |pat|] == pat;
    assert OccursAt(r, pat, i - a);
  }

  /** The first position at or after `from` where `pat` occurs in `s`. */
  function IndexOfFrom(s: string, pat: string, from: nat): (r: Option<nat>)
    ensures r.Some? ==> from <= r.value && r.value + |pat| <= |s|
    decreases |s| - from
  {
    if from + |pat| > |s| then None
    else if OccursAt(s, pat, from) then Some(from)
    else IndexOfFrom(s, pat, from + 1)
  }

  /** The search finds the first occurrence at or after `from`, and `None`
      means there is none. */
  lemma {:induction false} IndexOfFromFirst(s: string, pat: string, from: nat)
    ensures var r := IndexOfFrom(s, pat, from);
      && (r.Some? ==> OccursAt(s, pat, r.value) && forall j: nat :: from <= j < r.value ==> !OccursAt(s, pat, j))
      && (r.None? ==> forall j: nat :: from <= j ==> !OccursAt(s, pat, j))
    decreases |s| - from
  {
    if from + |pat| <= |s| && !OccursAt(s, pat, from) {
      IndexOfFromFirst(s, pat, from + 1);
    }
  }

  /** `s.replace(pat, rep)` with a string pattern: only the first occurrence
      is replaced; `s` is returned as it is when `pat` does not occur. */
  function ReplaceFirst(s: string, pat: string, rep: string): string
  {
    match IndexOfFrom(s, pat, 0)
    case None => s
    case Some(i) => s[..i] + rep + s[i + |pat|..]
  }

  /** Replacing a pattern that the text starts with rewrites only that prefix. */
  lemma {:induction false} ReplaceLeading(pat: string, rest: string, rep: string)
    ensures ReplaceFirst(pat + rest, pat, rep) == rep + rest
  {
    var s := pat + rest;
    assert OccursAt(s, pat, 0);
    assert IndexOfFrom(s, pat, 0) == Some(0);
    assert s[|pat|..] == rest;
  }

  /** `s.substring(0, n)`. */
  function Take(s: string, n: nat): (r: string)
    ensures |r| == (if |s| < n then |s| else n)
    ensures r == s[..|r|]
  {
    if |s| <= n then s else s[..n]
  }
}
