/** Go's strconv.ParseUint and FormatUint in base 10, for widths far below 64 bits. */
module Numbers {
  import opened Options
  import opened Text

  const TWO_64: nat := 0x1_0000_0000_0000_0000

  function DigitValue(c: char): nat
    requires IsDigit(c)
  {
    c as int - '0' as int
  }

  predicate AllDigits(s: string) { forall c | c in s :: IsDigit(c) }

  /** The number a digit string denotes. */
  function Value(s: string): nat
    requires AllDigits(s)
  {
    if s == [] then 0 else 10 * Value(s[..|s| - 1]) + DigitValue(s[|s| - 1])
  }

  function Parsed(s: string, max: nat): Option<nat> {
    if s != [] && AllDigits(s) && Value(s) <= max then Some(Value(s)) else None
  }

  lemma {:induction false} PrefixIsSmaller(s: string, k: nat)
    requires AllDigits(s) && k <= |s|
    ensures AllDigits(s[..k]) && Value(s[..k]) <= Value(s)
    decreases |s|
  {
    if k == |s| {
      assert s[..k] == s;
    } else {
      PrefixIsSmaller(s[..|s| - 1], k);
      assert s[..|s| - 1][..k] == s[..k];
    }
  }

  /** The loop leaves at the first bad character or as soon as the value passes max. */
  method ParseUint(s: string, max: nat) returns (r: Option<nat>)
    requires max < 0x1_0000_0000
    ensures r == Parsed(s, max)
  {
    if s == [] {
      return None;
    }
    var n := 0;
    for i := 0 to |s|
      invariant AllDigits(s[..i]) && n == Value(s[..i]) && n <= max
    {
      if !IsDigit(s[i]) {
        assert s[i] in s;
        return None;
      }
      assert s[..i + 1] == s[..i] + [s[i]] && s[..i + 1][..i] == s[..i];
      var next := n * 10 + DigitValue(s[i]);
      assert next < TWO_64;                      // never wraps a uint64
      if next > max {
        if AllDigits(s) {
          PrefixIsSmaller(s, i + 1);
        }
        return None;
      }
      n := next;
    }
    assert s[..|s|] == s;
    return Some(n);
  }

  function DigitChar(d: nat): (c: char)
    requires d < 10
    ensures IsDigit(c) && DigitValue(c) == d
  {
    ('0' as int + d) as char
  }

  /** FormatUint in base 10. */
  function Format(n: nat): (s: string)
    ensures s != [] && AllDigits(s)
  {
    if n < 10 then [DigitChar(n)] else Format(n / 10) + [DigitChar(n % 10)]
  }

  lemma {:induction false} FormatParses(n: nat)
    ensures Value(Format(n)) == n
  {
    if n >= 10 {
      FormatParses(n / 10);
      assert Format(n)[..|Format(n)| - 1] == Format(n / 10);
    } else {
      assert Format(n)[..0] == [];
    }
  }

  lemma {:induction false} FormatHasNoLeadingZero(n: nat)
    ensures n > 0 ==> Format(n)[0] != '0'
    ensures n == 0 ==> Format(n) == "0"
  {
    if n >= 10 {
      FormatHasNoLeadingZero(n / 10);
    }
  }

  function TrimZeros(s: string): string {
    if s != [] && s[0] == '0' then TrimZeros(s[1..]) else s
  }

  lemma {:induction false} LeadingZero(s: string)
    requires s != [] && AllDigits(s) && s[0] == '0'
    ensures Value(s) == Value(s[1..])
    decreases |s|
  {
    if |s| == 1 {
      assert s[..0] == [];
    } else {
      var front := s[..|s| - 1];
      LeadingZero(front);
      assert front[1..] == s[1..][..|s[1..]| - 1];
    }
  }

  lemma {:induction false} ValuePositive(s: string)
    requires s != [] && AllDigits(s) && s[0] != '0'
    ensures Value(s) > 0
    decreases |s|
  {
    if |s| > 1 {
      ValuePositive(s[..|s| - 1]);
    } else {
      assert s[..0] == [];
    }
  }

  lemma Quotient(q: nat, d: nat)
    requires d < 10
    ensures (10 * q + d) / 10 == q && (10 * q + d) % 10 == d
  {
  }

  /** Without leading zeros a digit string is the one that Format prints. */
  lemma {:induction false} CanonicalDigits(s: string)
    requires s != [] && AllDigits(s) && s[0] != '0'
    ensures Format(Value(s)) == s
    decreases |s|
  {
    var front := s[..|s| - 1];
    assert s == front + [s[|s| - 1]];
    if front == [] {
      assert s == [s[0]] && Value(front) == 0;
      assert Value(s) == DigitValue(s[0]) < 10;
      assert DigitChar(DigitValue(s[0])) == s[0];
    } else {
      CanonicalDigits(front);
      ValuePositive(front);
      Quotient(Value(front), DigitValue(s[|s| - 1]));
      assert Value(s) >= 10;
    }
  }

  /** Printing what was parsed gives the text back up to leading zeros. */
  lemma {:induction false} PrintParsed(s: string)
    requires s != [] && AllDigits(s)
    ensures Format(Value(s)) == if TrimZeros(s) == [] then "0" else TrimZeros(s)
  {
    if s[0] == '0' {
      LeadingZero(s);
      if |s| == 1 {
        assert s[1..] == [];
      } else {
        PrintParsed(s[1..]);
      }
    } else {
      CanonicalDigits(s);
    }
  }
}
