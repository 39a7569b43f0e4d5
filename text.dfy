/**
 * The string operations of Go's standard library that the handlers use
 * (strconv.Itoa/Atoi, strings.ToUpper/ToLower/Split/TrimSuffix),
 * and the two textual forms the provider builds: "address/length" prefixes
 * and `col='value' AND ...` where clauses.
 */
module Text {
  import opened Base

  predicate IsDigit(c: char) { '0' <= c <= '9' }
  predicate IsLowerLetter(c: char) { 'a' <= c <= 'z' }
  predicate IsUpperLetter(c: char) { 'A' <= c <= 'Z' }
  predicate IsHexDigit(c: char) { IsDigit(c) || 'a' <= c <= 'f' || 'A' <= c <= 'F' }

  function UpperChar(c: char): char
  {
    if IsLowerLetter(c) then (c as int - 32) as char else c
  }

  function LowerChar(c: char): char
  {
    if IsUpperLetter(c) then (c as int + 32) as char else c
  }

  /** strings.ToUpper, on ASCII letters. */
  function ToUpper(s: string): (r: string)
    ensures |r| == |s|
  {
    seq(|s|, i requires 0 <= i < |s| => UpperChar(s[i]))
  }

  /** strings.ToLower, on ASCII letters. */
  function ToLower(s: string): (r: string)
    ensures |r| == |s|
  {
    seq(|s|, i requires 0 <= i < |s| => LowerChar(s[i]))
  }

  /** Lower-casing forgets any earlier change of case, so a comparison of
      lower-cased strings ignores case. */
  lemma LowerAfterUpper(s: string)
    ensures ToLower(ToUpper(s)) == ToLower(s)
    ensures ToLower(ToLower(s)) == ToLower(s)
    ensures ToUpper(ToLower(s)) == ToUpper(s)
    ensures ToUpper(ToUpper(s)) == ToUpper(s)
  {
  }

  /** A non-empty string of hexadecimal digits, as `big.Int.SetString(s, 16)` accepts it. */
  predicate IsHexString(s: string)
  {
    |s| > 0 && forall i :: 0 <= i < |s| ==> IsHexDigit(s[i])
  }

  function HexDigitValue(c: char): (v: nat)
    requires IsHexDigit(c)
    ensures v < 16
  {
    if IsDigit(c) then c as int - '0' as int
    else if 'a' <= c <= 'f' then c as int - 'a' as int + 10
    else c as int - 'A' as int + 10
  }

  /** The number a string of hexadecimal digits denotes. */
  function HexValue(s: string): nat
    requires forall i :: 0 <= i < |s| ==> IsHexDigit(s[i])
    decreases |s|
  {
    if s == [] then 0 else HexValue(s[..|s| - 1]) * 16 + HexDigitValue(s[|s| - 1])
  }

  // ----- strconv.Itoa and strconv.Atoi -----

  function DigitChar(d: nat): (c: char)
    requires d < 10
    ensures IsDigit(c)
  {
    ('0' as int + d) as char
  }

  /** Decimal digits of `n`, without leading zeros. */
  function NatToString(n: nat): string
    decreases n
  {
    if n < 10 then [DigitChar(n)] else NatToString(n / 10) + [DigitChar(n % 10)]
  }

  /** strconv.Itoa */
  function Itoa(n: int): string
  {
    if n < 0 then "-" + NatToString(-n) else NatToString(n)
  }

  predicate AllDigits(s: string)
  {
    forall i :: 0 <= i < |s| ==> IsDigit(s[i])
  }

  /** The number a string of decimal digits denotes. */
  function DigitsValue(s: string): nat
    requires AllDigits(s)
    decreases |s|
  {
    if s == [] then 0 else DigitsValue(s[..|s| - 1]) * 10 + (s[|s| - 1] as int - '0' as int)
  }

  /** strconv.Atoi: an optional sign followed by at least one decimal digit. */
  function Atoi(s: string): Option<int>
  {
    if |s| > 0 && (s[0] == '+' || s[0] == '-') then
      if |s| > 1 && AllDigits(s[1..]) then
        var v: int := DigitsValue(s[1..]);
        Some(if s[0] == '-' then -v else v)
      else None
    else if |s| > 0 && AllDigits(s) then Some(DigitsValue(s))
    else None
  }

  /** `n, _ := strconv.Atoi(s)`: the error is dropped and `n` is 0. */
  function AtoiOrZero(s: string): int
  {
    match Atoi(s)
    case Some(n) => n
    case None => 0
  }

  lemma {:induction false} NatToStringDigits(n: nat)
    ensures |NatToString(n)| > 0 && AllDigits(NatToString(n))
    ensures DigitsValue(NatToString(n)) == n
    decreases n
  {
    if n >= 10 {
      NatToStringDigits(n / 10);
      var s := NatToString(n);
      assert s[..|s| - 1] == NatToString(n / 10);
    }
  }

  /** strconv.Atoi reads back every number strconv.Itoa writes. */
  lemma ItoaRoundTrip(n: int)
    ensures Atoi(Itoa(n)) == Some(n)
    ensures AtoiOrZero(Itoa(n)) == n
  {
    if n < 0 {
      NatToStringDigits(-n);
      assert Itoa(n)[1..] == NatToString(-n);
    } else {
      NatToStringDigits(n);
    }
  }

  lemma ItoaHasNoSlash(n: int)
    ensures '/' !in Itoa(n)
  {
    NatToStringDigits(if n < 0 then -n else n);
    if n < 0 {
      assert Itoa(n)[1..] == NatToString(-n);
    }
  }

  // ----- strings.Split, strings.TrimSuffix, separator-terminated lists -----

  /** strings.Split(s, string(c)): the pieces between occurrences of `c`;
      the empty string gives one empty piece. */
  function Split(s: string, c: char): (parts: seq<string>)
    ensures |parts| > 0
    decreases |s|
  {
    if |s| == 0 then [""]
    else
      var rest := Split(s[1..], c);
      if s[0] == c then [""] + rest else [[s[0]] + rest[0]] + rest[1..]
  }

  /** strings.TrimSuffix(s, string(c)): removes one trailing `c`. */
  function TrimSuffix(s: string, c: char): string
  {
    if |s| > 0 && s[|s| - 1] == c then s[..|s| - 1] else s
  }

  /** Every item followed by `c`, as the GSLB member loop writes them. */
  function Terminated(items: seq<string>, c: char): string
  {
    if items == [] then "" else items[0] + [c] + Terminated(items[1..], c)
  }

  lemma {:induction false} TerminatedSnoc(items: seq<string>, x: string, c: char)
    ensures Terminated(items + [x], c) == Terminated(items, c) + x + [c]
  {
    if items != [] {
      assert (items + [x])[1..] == items[1..] + [x];
      TerminatedSnoc(items[1..], x, c);
    }
  }

  lemma {:induction false} SplitFree(a: string, c: char)
    requires c !in a
    ensures Split(a, c) == [a]
    decreases |a|
  {
    if |a| > 0 {
      SplitFree(a[1..], c);
      assert [a[0]] + a[1..] == a;
    }
  }

  lemma {:induction false} SplitAt(a: string, b: string, c: char)
    requires c !in a
    ensures Split(a + [c] + b, c) == [a] + Split(b, c)
    decreases |a|
  {
    if |a| == 0 {
      assert a + [c] + b == [c] + b;
      assert ([c] + b)[1..] == b;
    } else {
      var s := a + [c] + b;
      assert s[1..] == a[1..] + [c] + b;
      SplitAt(a[1..], b, c);
      assert [a[0]] + a[1..] == a;
    }
  }

  /** A terminated list read back: drop the last separator, split on the
      separator, and the items come back in order, provided none of them
      contains the separator and there is at least one. */
  lemma {:induction false} SplitTerminated(items: seq<string>, c: char)
    requires |items| > 0
    requires forall i :: 0 <= i < |items| ==> c !in items[i]
    ensures Split(TrimSuffix(Terminated(items, c), c), c) == items
    decreases |items|
  {
    if |items| == 1 {
      assert Terminated(items, c) == items[0] + [c];
      assert TrimSuffix(Terminated(items, c), c) == items[0];
      SplitFree(items[0], c);
    } else {
      var rest := Terminated(items[1..], c);
      assert |rest| > 0 && rest[|rest| - 1] == c by { TerminatedEndsWith(items[1..], c); }
      assert TrimSuffix(Terminated(items, c), c) == items[0] + [c] + TrimSuffix(rest, c);
      SplitAt(items[0], TrimSuffix(rest, c), c);
      SplitTerminated(items[1..], c);
      assert items == [items[0]] + items[1..];
    }
  }

  lemma {:induction false} TerminatedEndsWith(items: seq<string>, c: char)
    requires |items| > 0
    ensures var t := Terminated(items, c); |t| > 0 && t[|t| - 1] == c
    decreases |items|
  {
    if |items| > 1 {
      TerminatedEndsWith(items[1..], c);
    }
  }

  // ----- "address/length" prefixes -----

  /** `address + "/" + strconv.Itoa(length)` */
  function FormatPrefix(address: string, length: int): string
  {
    address + "/" + Itoa(length)
  }

  /** Position of the last '/' in `s`. */
  function LastSlash(s: string): (r: Option<nat>)
    ensures r.Some? ==> r.value < |s| && s[r.value] == '/' && forall j :: r.value < j < |s| ==> s[j] != '/'
    ensures r.None? ==> '/' !in s
    decreases |s|
  {
    if |s| == 0 then None
    else if s[|s| - 1] == '/' then Some(|s| - 1)
    else LastSlash(s[..|s| - 1])
  }

  /** Splits a prefix string into its address and its length. */
  function ParsePrefix(s: string): Option<(string, int)>
  {
    match LastSlash(s)
    case None => None
    case Some(i) =>
      match Atoi(s[i + 1..])
      case None => None
      case Some(n) => Some((s[..i], n))
  }

  /** The address and the length can be read back from a prefix string,
      whatever the address text. */
  lemma PrefixRoundTrip(address: string, length: int)
    ensures ParsePrefix(FormatPrefix(address, length)) == Some((address, length))
  {
    var s := FormatPrefix(address, length);
    ItoaHasNoSlash(length);
    ItoaRoundTrip(length);
    assert s[|address|] == '/';
    assert forall j :: |address| < j < |s| ==> s[j] == Itoa(length)[j - |address| - 1];
    assert LastSlash(s) == Some(|address|);
    assert s[|address| + 1..] == Itoa(length);
    assert s[..|address|] == address;
  }

  // ----- where clauses -----

  /** `col='value'` */
  function Condition(c: (string, string)): string
  {
    c.0 + "='" + c.1 + "'"
  }

  /** The conditions joined by " AND ". */
  function Conjunction(cs: seq<(string, string)>): string
  {
    if |cs| == 0 then ""
    else if |cs| == 1 then Condition(cs[0])
    else Condition(cs[0]) + " AND " + Conjunction(cs[1..])
  }

  lemma {:induction false} ConjunctionSnoc(cs: seq<(string, string)>, c: (string, string))
    requires |cs| > 0
    ensures Conjunction(cs + [c]) == Conjunction(cs) + " AND " + Condition(c)
    decreases |cs|
  {
    if |cs| > 1 {
      assert (cs + [c])[1..] == cs[1..] + [c];
      ConjunctionSnoc(cs[1..], c);
    }
  }
}
