/** The string operations the backend relies on: `str.lower()`, the `in` substring
    test, `str.strip()`, `str(int)` and `int(str)`. */
module Text {
  import opened Wrappers

  // ---------------------------------------------------------------- lower case

  predicate IsUpper(c: char) { 'A' <= c <= 'Z' }

  /** Lower-cases one character (the ASCII letters; see README for Unicode). */
  function LowerChar(c: char): (r: char)
    ensures !IsUpper(r)
    ensures IsUpper(c) ==> r as int == c as int + 32
    ensures !IsUpper(c) ==> r == c
  {
    if IsUpper(c) then (c as int + 32) as char else c
  }

  /** `s.lower()` */
  function ToLower(s: string): (r: string)
    ensures |r| == |s|
    ensures forall i :: 0 <= i < |s| ==> r[i] == LowerChar(s[i])
  {
    seq(|s|, i requires 0 <= i < |s| => LowerChar(s[i]))
  }

  predicate NoUpper(s: string) { forall i :: 0 <= i < |s| ==> !IsUpper(s[i]) }

  /** Lower-casing leaves lower-case text alone, so it is idempotent. */
  lemma LowerOfLower(s: string)
    requires NoUpper(s)
    ensures ToLower(s) == s
  {
  }

  lemma ToLowerIdempotent(s: string)
    ensures NoUpper(ToLower(s))
    ensures ToLower(ToLower(s)) == ToLower(s)
  {
    LowerOfLower(ToLower(s));
  }

  // ---------------------------------------------------------------- substrings

  predicate OccursAt(t: string, k: string, i: int)
  {
    0 <= i && i + |k| <= |t| && t[i..i + |k|] == k
  }

  /** Python's `k in t` for strings: `k` occurs as a contiguous substring of `t`. */
  predicate Contains(t: string, k: string)
    decreases |t|
  {
    (|k| <= |t| && t[..|k|] == k) || (|t| > 0 && Contains(t[1..], k))
  }

  /** A substring found by the recursive test occurs at some position. */
  lemma {:induction false} ContainsOccurs(t: string, k: string)
    requires Contains(t, k)
    ensures exists i :: OccursAt(t, k, i)
    decreases |t|
  {
    if |k| <= |t| && t[..|k|] == k {
      assert OccursAt(t, k, 0);
    } else {
      ContainsOccurs(t[1..], k);
      var i :| OccursAt(t[1..], k, i);
      assert t[1..][i..i + |k|] == t[i + 1..i + 1 + |k|];
      assert OccursAt(t, k, i + 1);
    }
  }

  /** An occurrence at any position is found by the recursive test. */
  lemma {:induction false} ContainsAt(t: string, k: string, i: int)
    requires OccursAt(t, k, i)
    ensures Contains(t, k)
    decreases i
  {
    if i > 0 {
      assert t[1..][i - 1..i - 1 + |k|] == t[i..i + |k|];
      ContainsAt(t[1..], k, i - 1);
    } else {
      assert t[..|k|] == k;
    }
  }

  /** The recursive test agrees with the positional definition of a substring. */
  lemma ContainsIff(t: string, k: string)
    ensures Contains(t, k) <==> exists i :: OccursAt(t, k, i)
  {
    if Contains(t, k) {
      ContainsOccurs(t, k);
    }
    if exists i :: OccursAt(t, k, i) {
      var i :| OccursAt(t, k, i);
      ContainsAt(t, k, i);
    }
  }

  /** Text around a contained string leaves it contained. */
  lemma ContainsExtend(t: string, k: string, a: string, b: string)
    requires Contains(t, k)
    ensures Contains(a + t, k) && Contains(t + b, k)
  {
    ContainsOccurs(t, k);
    var i :| OccursAt(t, k, i);
    assert (a + t)[|a| + i..|a| + i + |k|] == t[i..i + |k|];
    ContainsAt(a + t, k, |a| + i);
    assert (t + b)[i..i + |k|] == t[i..i + |k|];
    ContainsAt(t + b, k, i);
  }

  /** The substring relation is transitive. */
  lemma ContainsTransitive(t: string, m: string, k: string)
    ensures Contains(t, m) && Contains(m, k) ==> Contains(t, k)
  {
    if !(Contains(t, m) && Contains(m, k)) {
      return;
    }
    ContainsOccurs(t, m);
    ContainsOccurs(m, k);
    var i :| OccursAt(t, m, i);
    var j :| OccursAt(m, k, j);
    forall x | 0 <= x < |k| ensures t[i + j + x] == k[x] {
      assert k[x] == m[j..j + |k|][x] == m[j + x];
      assert m[j + x] == t[i..i + |m|][j + x] == t[i + j + x];
    }
    assert t[i + j..i + j + |k|] == k;
    ContainsAt(t, k, i + j);
  }

  /** Python's `any(word in t for word in words)`. */
  predicate ContainsAny(t: string, words: seq<string>)
  {
    exists i :: 0 <= i < |words| && Contains(t, words[i])
  }

  // ---------------------------------------------------------------- strip

  /** The characters for which Python's `str.isspace()` holds, which `str.strip()` removes. */
  predicate IsSpace(c: char)
  {
    || c == ' '
    || 9 <= c as int <= 13        // \t \n \v \f \r
    || 28 <= c as int <= 31       // file, group, record and unit separators
    || c as int == 0x85 || c as int == 0xA0 || c as int == 0x1680
    || 0x2000 <= c as int <= 0x200A
    || c as int == 0x2028 || c as int == 0x2029 || c as int == 0x202F
    || c as int == 0x205F || c as int == 0x3000
  }

  predicate AllSpace(s: string) { forall i :: 0 <= i < |s| ==> IsSpace(s[i]) }

  function TrimStart(s: string): (r: string)
    ensures |r| <= |s| && r == s[|s| - |r|..]
    ensures AllSpace(s[..|s| - |r|])
    ensures r == [] || !IsSpace(r[0])
  {
    if |s| > 0 && IsSpace(s[0]) then
      var r := TrimStart(s[1..]);
      var n := |s| - |r|;
      assert s[1..][n - 1..] == s[n..];
      assert forall i :: 1 <= i < n ==> s[..n][i] == s[1..][..n - 1][i - 1];
      r
    else s
  }

  function TrimEnd(s: string): (r: string)
    ensures |r| <= |s| && r == s[..|r|]
    ensures AllSpace(s[|r|..])
    ensures r == [] || !IsSpace(r[|r| - 1])
  {
    if |s| > 0 && IsSpace(s[|s| - 1]) then
      var r := TrimEnd(s[..|s| - 1]);
      assert s[|r|..] == s[..|s| - 1][|r|..] + [s[|s| - 1]];
      assert s[..|s| - 1][..|r|] == s[..|r|];
      r
    else s
  }

  /** `s.strip()`: the text without leading and trailing whitespace. The result neither
      begins nor ends with whitespace and is empty exactly for all-whitespace text;
      StripSplits and StripOfPadded below show that exactly the outer whitespace goes. */
  function Strip(s: string): (r: string)
    ensures r == [] <==> AllSpace(s)
    ensures r == [] || (!IsSpace(r[0]) && !IsSpace(r[|r| - 1]))
  {
    var t := TrimStart(s);
    var r := TrimEnd(t);
    StripParts(s, t, r);
    r
  }

  lemma StripParts(s: string, t: string, r: string)
    requires t == TrimStart(s) && r == TrimEnd(t)
    ensures r == [] <==> AllSpace(s)
  {
    var n := |s| - |t|;
    if r == [] {
      assert t[|r|..] == t;
      assert s[..n] == s;
    }
  }

  /** The strip sits in the input with only whitespace before and after it. */
  lemma StripSplits(s: string)
    ensures Contains(s, Strip(s))
    ensures var r := Strip(s);
            exists i :: 0 <= i <= |s| - |r| && s[i..i + |r|] == r
                        && AllSpace(s[..i]) && AllSpace(s[i + |r|..])
  {
    var t := TrimStart(s);
    var r := TrimEnd(t);
    var n := |s| - |t|;
    assert Strip(s) == r;
    SuffixSlices(s, n, |r|);
    assert s[n + |r|..] == t[|r|..];
    assert s[n..n + |r|] == r;
    ContainsAt(s, r, n);
  }

  lemma SuffixSlices(s: string, n: nat, m: nat)
    requires n + m <= |s|
    ensures s[n..][..m] == s[n..n + m] && s[n..][m..] == s[n + m..]
  {
  }

  lemma {:induction false} TrimStartPadded(a: string, t: string)
    requires AllSpace(a) && (t == [] || !IsSpace(t[0]))
    ensures TrimStart(a + t) == t
    decreases |a|
  {
    if a == [] {
      assert a + t == t;
    } else {
      assert (a + t)[1..] == a[1..] + t;
      TrimStartPadded(a[1..], t);
    }
  }

  lemma {:induction false} TrimEndPadded(t: string, b: string)
    requires AllSpace(b) && (t == [] || !IsSpace(t[|t| - 1]))
    ensures TrimEnd(t + b) == t
    decreases |b|
  {
    if b == [] {
      assert t + b == t;
    } else {
      assert (t + b)[..|t + b| - 1] == t + b[..|b| - 1];
      TrimEndPadded(t, b[..|b| - 1]);
    }
  }

  /** Conversely, whitespace around text that neither begins nor ends with whitespace
      is exactly what `strip` removes. */
  lemma StripOfPadded(a: string, r: string, b: string)
    requires AllSpace(a) && AllSpace(b)
    requires r == [] || (!IsSpace(r[0]) && !IsSpace(r[|r| - 1]))
    ensures Strip(a + r + b) == r
  {
    if r == [] {
      assert forall i :: 0 <= i < |a + r + b| ==> IsSpace((a + r + b)[i]);
    } else {
      assert a + r + b == a + (r + b);
      TrimStartPadded(a, r + b);
      TrimEndPadded(r, b);
    }
  }

  /** Text that neither begins nor ends with whitespace is its own strip. */
  lemma StripUnchanged(s: string)
    requires s == [] || (!IsSpace(s[0]) && !IsSpace(s[|s| - 1]))
    ensures Strip(s) == s
  {
  }

  lemma StripIdempotent(s: string)
    ensures Strip(Strip(s)) == Strip(s)
  {
    StripUnchanged(Strip(s));
  }

  // ---------------------------------------------------------------- decimal numbers

  predicate IsDigit(c: char) { '0' <= c <= '9' }

  predicate AllDigits(s: string) { forall i :: 0 <= i < |s| ==> IsDigit(s[i]) }

  function DigitChar(d: nat): (c: char)
    requires d < 10
    ensures IsDigit(c) && c as int - '0' as int == d
  {
    "0123456789"[d]
  }

  /** The number a string of decimal digits denotes. */
  function DigitsValue(s: string): nat
    requires AllDigits(s)
  {
    if s == [] then 0 else DigitsValue(s[..|s| - 1]) * 10 + (s[|s| - 1] as int - '0' as int)
  }

  /** Python's `str(n)` for a non-negative int: its decimal digits, without leading zeros. */
  function NatToString(n: nat): (s: string)
    ensures |s| > 0 && AllDigits(s)
    ensures |s| > 1 ==> s[0] != '0'
  {
    if n < 10 then [DigitChar(n)] else NatToString(n / 10) + [DigitChar(n % 10)]
  }

  /** Python's `str(n)`: a minus sign before the digits of a negative number. */
  function IntToString(n: int): (s: string)
    ensures |s| > 0 && !IsSpace(s[0]) && !IsSpace(s[|s| - 1])
    ensures s[0] == '-' <==> n < 0
  {
    if n < 0 then "-" + NatToString(Magnitude(n)) else NatToString(n)
  }

  /** The magnitude of an integer, which `str` writes after the sign. */
  function Magnitude(n: int): nat
  {
    if n < 0 then -n else n
  }

  lemma {:induction false} NatToStringValue(n: nat)
    ensures DigitsValue(NatToString(n)) == n
    decreases n
  {
    if n >= 10 {
      NatToStringValue(n / 10);
      var s := NatToString(n);
      assert s[..|s| - 1] == NatToString(n / 10);
    }
  }

  /** Python's `int(s)` on a string: surrounding whitespace, an optional sign and at
      least one decimal digit; anything else raises, which is `None` here. */
  function ParseInt(s: string): (r: Option<int>)
    ensures r.Some? ==> |Strip(s)| > 0
  {
    ParseSigned(Strip(s))
  }

  /** `int(s)` once the whitespace is gone: an optional sign, then only digits. */
  function ParseSigned(t: string): (r: Option<int>)
    ensures r.Some? ==> |t| > 0
  {
    if |t| > 1 && (t[0] == '-' || t[0] == '+') && AllDigits(t[1..]) then
      var v: int := DigitsValue(t[1..]);
      Some(if t[0] == '-' then -v else v)
    else if |t| > 0 && AllDigits(t) then
      Some(DigitsValue(t))
    else
      None
  }

  /** Decimal digits alone read back as their value. */
  lemma ParseDigits(s: string)
    requires |s| > 0 && AllDigits(s)
    ensures ParseSigned(s) == Some(DigitsValue(s))
  {
    assert IsDigit(s[0]);
  }

  /** A minus sign before decimal digits reads back as the negated value. */
  lemma ParseNegative(t: string)
    requires |t| > 1 && t[0] == '-' && AllDigits(t[1..])
    ensures ParseSigned(t) == Some(-(DigitsValue(t[1..]) as int))
  {
  }

  lemma DropHead(t: string, c: char, s: string)
    requires t == [c] + s
    ensures t[1..] == s
  {
  }

  /** `str` writes the canonical form: after an optional '-', a non-empty run of digits
      without a leading zero (and no '+') that denotes the magnitude. */
  lemma IntToStringCanonical(n: int)
    ensures var s := IntToString(n);
            var d := if n < 0 then s[1..] else s;
            |d| > 0 && AllDigits(d) && (|d| > 1 ==> d[0] != '0') && DigitsValue(d) == Magnitude(n)
  {
    NatToStringValue(Magnitude(n));
    if n < 0 {
      DropHead(IntToString(n), '-', NatToString(Magnitude(n)));
    }
  }

  /** The texts `int()` accepts: once stripped, a non-empty run of decimal digits with an
      optional leading sign. The value is the digits' value, negated after a '-'. */
  lemma ParseIntAccepts(s: string)
    ensures var t := Strip(s);
            ParseInt(s).Some? <==> (|t| > 0 && AllDigits(t))
                                   || (|t| > 1 && (t[0] == '-' || t[0] == '+') && AllDigits(t[1..]))
    ensures var t := Strip(s);
            |t| > 0 && AllDigits(t) ==> ParseInt(s) == Some(DigitsValue(t))
    ensures var t := Strip(s);
            |t| > 1 && t[0] == '+' && AllDigits(t[1..]) ==> ParseInt(s) == Some(DigitsValue(t[1..]))
    ensures var t := Strip(s);
            |t| > 1 && t[0] == '-' && AllDigits(t[1..]) ==> ParseInt(s) == Some(-(DigitsValue(t[1..]) as int))
  {
    var t := Strip(s);
    if |t| > 0 && AllDigits(t) {
      ParseDigits(t);
    }
  }

  /** Reading back what `str` wrote gives the number again. */
  lemma IntToStringRoundTrip(n: int)
    ensures ParseInt(IntToString(n)) == Some(n)
  {
    var t := IntToString(n);
    StripUnchanged(t);
    if n < 0 {
      var u := NatToString(Magnitude(n));
      NatToStringValue(Magnitude(n));
      DropHead(t, '-', u);
      ParseNegative(t);
    } else {
      NatToStringValue(n);
      ParseDigits(t);
    }
  }
}
