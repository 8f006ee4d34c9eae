/** Decimal rendering of integers, Python's str.join, and the ASCII case fold
    used by the chat-command match. */
module Text {

  import opened Wrappers

  predicate IsDigit(c: char) {
    '0' <= c <= '9'
  }

  predicate AllDigits(s: string) {
    forall i :: 0 <= i < |s| ==> IsDigit(s[i])
  }

  function DigitChar(d: nat): (c: char)
    requires d < 10
    ensures IsDigit(c)
  {
    (48 + d) as char
  }

  function DigitValue(c: char): nat {
    if IsDigit(c) then c as int - 48 else 0
  }

  /** `str(n)` for a natural number: its decimal digits, most significant first. */
  function NatToString(n: nat): (s: string)
    ensures |s| > 0
    decreases n
  {
    if n < 10 then [DigitChar(n)] else NatToString(n / 10) + [DigitChar(n % 10)]
  }

  lemma {:induction false} NatToStringDigits(n: nat)
    ensures AllDigits(NatToString(n))
    decreases n
  {
    if n >= 10 {
      NatToStringDigits(n / 10);
    }
  }

  /** `str(i)` for any integer. */
  function IntToString(i: int): (s: string)
    ensures |s| > 0
  {
    if i < 0 then "-" + NatToString(-i) else NatToString(i)
  }

  /** `f"{n:02d}"`: at least two digits, a leading zero when n is one digit. */
  function ZeroPad2(n: nat): (s: string)
    ensures |s| >= 2
  {
    if n < 10 then "0" + NatToString(n) else NatToString(n)
  }

  lemma ZeroPad2Digits(n: nat)
    ensures AllDigits(ZeroPad2(n))
  {
    NatToStringDigits(n);
  }

  /** The number a string of decimal digits denotes (leading zeros allowed). */
  function DigitsValue(s: string): nat {
    if s == [] then 0 else DigitsValue(s[..|s| - 1]) * 10 + DigitValue(s[|s| - 1])
  }

  lemma {:induction false} NatToStringValue(n: nat)
    ensures DigitsValue(NatToString(n)) == n
    decreases n
  {
    if n >= 10 {
      var s := NatToString(n);
      assert s[..|s| - 1] == NatToString(n / 10);
      NatToStringValue(n / 10);
    }
  }

  lemma ZeroPad2Value(n: nat)
    ensures DigitsValue(ZeroPad2(n)) == n
  {
    if n < 10 {
      var s := ZeroPad2(n);
      assert s == ['0', DigitChar(n)];
      assert s[..|s| - 1] == "0";
      assert "0"[..0] == [];
    } else {
      NatToStringValue(n);
    }
  }

  /** Number of leading decimal digits of s. */
  function LeadingDigits(s: string): (k: nat)
    ensures k <= |s|
  {
    if s == [] || !IsDigit(s[0]) then 0 else 1 + LeadingDigits(s[1..])
  }

  /** Reads the maximal run of digits at the head of s: its value and what follows. */
  function ReadNat(s: string): (r: Option<(nat, string)>)
    ensures r.Some? ==> |r.value.1| < |s|
  {
    var k := LeadingDigits(s);
    if k == 0 then None else Some((DigitsValue(s[..k]), s[k..]))
  }

  lemma {:induction false} LeadingDigitsOfDigits(d: string, t: string)
    requires AllDigits(d)
    requires t == [] || !IsDigit(t[0])
    ensures LeadingDigits(d + t) == |d|
    decreases |d|
  {
    if d != [] {
      assert (d + t)[1..] == d[1..] + t;
      LeadingDigitsOfDigits(d[1..], t);
    } else {
      assert d + t == t;
    }
  }

  /** Reading back a rendered digit string recovers its value and leaves the rest. */
  lemma ReadDigits(d: string, t: string)
    requires |d| > 0 && AllDigits(d)
    requires t == [] || !IsDigit(t[0])
    ensures ReadNat(d + t) == Some((DigitsValue(d), t))
  {
    LeadingDigitsOfDigits(d, t);
    assert (d + t)[..|d|] == d;
    assert (d + t)[|d|..] == t;
  }

  lemma ReadNatToString(n: nat, t: string)
    requires t == [] || !IsDigit(t[0])
    ensures ReadNat(NatToString(n) + t) == Some((n, t))
  {
    NatToStringDigits(n);
    ReadDigits(NatToString(n), t);
    NatToStringValue(n);
  }

  lemma ReadZeroPad2(n: nat, t: string)
    requires t == [] || !IsDigit(t[0])
    ensures ReadNat(ZeroPad2(n) + t) == Some((n, t))
  {
    ZeroPad2Digits(n);
    ReadDigits(ZeroPad2(n), t);
    ZeroPad2Value(n);
  }

  /** Python's `sep.join(parts)`. */
  function Join(sep: string, parts: seq<string>): string
    decreases |parts|
  {
    if |parts| == 0 then ""
    else if |parts| == 1 then parts[0]
    else parts[0] + sep + Join(sep, parts[1..])
  }

  lemma JoinCons(sep: string, first: string, rest: seq<string>)
    requires |rest| > 0
    ensures Join(sep, [first] + rest) == first + sep + Join(sep, rest)
  {
    assert ([first] + rest)[1..] == rest;
  }

  /** Appending a part to a non-empty join puts the separator before it. */
  lemma {:induction false} JoinSnoc(sep: string, parts: seq<string>, x: string)
    ensures Join(sep, parts + [x]) == if |parts| == 0 then x else Join(sep, parts) + sep + x
    decreases |parts|
  {
    if |parts| == 0 {
      assert parts + [x] == [x];
    } else if |parts| == 1 {
      assert parts + [x] == [parts[0]] + [x];
      JoinCons(sep, parts[0], [x]);
    } else {
      assert parts + [x] == [parts[0]] + (parts[1..] + [x]);
      JoinCons(sep, parts[0], parts[1..] + [x]);
      JoinSnoc(sep, parts[1..], x);
      JoinCons(sep, parts[0], parts[1..]);
      assert parts == [parts[0]] + parts[1..];
    }
  }

  /** A join starts with the start of its first part. */
  lemma JoinHead(sep: string, parts: seq<string>)
    requires |parts| > 0 && |parts[0]| > 0
    ensures |Join(sep, parts)| > 0 && Join(sep, parts)[0] == parts[0][0]
  {
    if |parts| > 1 {
      JoinCons(sep, parts[0], parts[1..]);
      assert [parts[0]] + parts[1..] == parts;
    }
  }

  /** A join avoids a character the separator avoids exactly when every part
      does. */
  lemma {:induction false} JoinFree(sep: string, parts: seq<string>, c: char)
    requires Free(sep, c)
    ensures Free(Join(sep, parts), c) <==> forall i :: 0 <= i < |parts| ==> Free(parts[i], c)
    decreases |parts|
  {
    if |parts| > 1 {
      JoinFree(sep, parts[1..], c);
      FreeConcat(parts[0] + sep, Join(sep, parts[1..]), c);
      FreeConcat(parts[0], sep, c);
      forall i | 0 <= i < |parts| && (forall j :: 0 <= j < |parts[1..]| ==> Free(parts[1..][j], c)) && Free(parts[0], c)
        ensures Free(parts[i], c)
      {
        if i > 0 {
          assert parts[i] == parts[1..][i - 1];
        }
      }
      forall j | 0 <= j < |parts[1..]| && (forall i :: 0 <= i < |parts| ==> Free(parts[i], c))
        ensures Free(parts[1..][j], c)
      {
        assert parts[1..][j] == parts[j + 1];
      }
    }
  }

  lemma FreeConcat(a: string, b: string, c: char)
    ensures Free(a + b, c) <==> Free(a, c) && Free(b, c)
  {
    if Free(a, c) && Free(b, c) {
      forall i | 0 <= i < |a + b|
        ensures (a + b)[i] != c
      {
        if i >= |a| {
          assert (a + b)[i] == b[i - |a|];
        }
      }
    }
    if Free(a + b, c) {
      forall i | 0 <= i < |a|
        ensures a[i] != c
      {
        assert (a + b)[i] == a[i];
      }
      forall i | 0 <= i < |b|
        ensures b[i] != c
      {
        assert (a + b)[|a| + i] == b[i];
      }
    }
  }

  /** Python's `"".join(parts)`. */
  function Concat(parts: seq<string>): string
    decreases |parts|
  {
    if |parts| == 0 then "" else parts[0] + Concat(parts[1..])
  }

  lemma {:induction false} ConcatSnoc(parts: seq<string>, x: string)
    ensures Concat(parts + [x]) == Concat(parts) + x
    decreases |parts|
  {
    if |parts| == 0 {
      assert parts + [x] == [x];
    } else {
      assert (parts + [x])[1..] == parts[1..] + [x];
      ConcatSnoc(parts[1..], x);
    }
  }

  lemma ConcatSnoc2(parts: seq<string>, x: string, y: string)
    ensures Concat(parts + [x] + [y]) == Concat(parts) + (x + y)
  {
    ConcatSnoc(parts, x);
    ConcatSnoc(parts + [x], y);
  }

  /** Python's `"".join(filter(None, parts))`: empty strings are dropped first. */
  function ConcatNonEmpty(parts: seq<string>): string
    decreases |parts|
  {
    if |parts| == 0 then ""
    else if parts[0] == "" then ConcatNonEmpty(parts[1..])
    else parts[0] + ConcatNonEmpty(parts[1..])
  }

  /** Dropping empty strings does not change a concatenation. */
  lemma {:induction false} ConcatNonEmptyIsConcat(parts: seq<string>)
    ensures ConcatNonEmpty(parts) == Concat(parts)
    decreases |parts|
  {
    if |parts| > 0 {
      ConcatNonEmptyIsConcat(parts[1..]);
    }
  }

  predicate Free(s: string, c: char) {
    forall i :: 0 <= i < |s| ==> s[i] != c
  }

  /** Python's `s.split(c)` for a one-character separator. */
  function Split(s: string, c: char): (r: seq<string>)
    ensures |r| > 0
    decreases |s|
  {
    if s == [] then [""]
    else
      var rest := Split(s[1..], c);
      if s[0] == c then [""] + rest else [[s[0]] + rest[0]] + rest[1..]
  }

  lemma {:induction false} SplitFree(s: string, t: string, c: char)
    requires Free(s, c)
    ensures Split(s + [c] + t, c) == [s] + Split(t, c)
    ensures Split(s, c) == [s]
    decreases |s|
  {
    if s != [] {
      assert (s + [c] + t)[0] == s[0] && (s + [c] + t)[1..] == s[1..] + [c] + t;
      SplitFree(s[1..], t, c);
      assert [s[0]] + s[1..] == s;
    } else {
      assert s + [c] + t == [c] + t;
      assert ([c] + t)[1..] == t;
    }
  }

  /** Splitting a join on its one-character separator gives back the parts,
      provided no part contains that character. */
  lemma {:induction false} SplitJoin(parts: seq<string>, c: char)
    requires |parts| > 0
    requires forall i :: 0 <= i < |parts| ==> Free(parts[i], c)
    ensures Split(Join([c], parts), c) == parts
    decreases |parts|
  {
    SplitFree(parts[0], "", c);
    if |parts| > 1 {
      SplitJoin(parts[1..], c);
      SplitFree(parts[0], Join([c], parts[1..]), c);
      assert parts == [parts[0]] + parts[1..];
    }
  }

  function LowerChar(c: char): char {
    if 'A' <= c <= 'Z' then (c as int + 32) as char else c
  }

  /** ASCII lower-casing, standing in for Python's str.lower(). */
  function AsciiLower(s: string): (r: string)
    ensures |r| == |s|
    ensures forall i :: 0 <= i < |s| ==> r[i] == LowerChar(s[i])
  {
    seq(|s|, i requires 0 <= i < |s| => LowerChar(s[i]))
  }
}
