/** The part of net/url, net/netip and strings on which relay URLs depend, on strings of Unicode scalar values. */
module Urls {
  import opened Options
  import opened Text
  import opened Numbers

  function IndexOf(s: string, c: char): (k: nat)
    ensures k <= |s|
    ensures forall i | 0 <= i < k :: s[i] != c
    ensures k < |s| ==> s[k] == c
  {
    if s == [] || s[0] == c then 0 else 1 + IndexOf(s[1..], c)
  }

  /** strings.LastIndexByte plus one; zero when there is none. */
  function AfterLast(s: string, c: char): (k: nat)
    ensures k <= |s|
    ensures forall i | k <= i < |s| :: s[i] != c
    ensures k > 0 ==> s[k - 1] == c
  {
    if s == [] then 0 else if s[|s| - 1] == c then |s| else AfterLast(s[..|s| - 1], c)
  }

  /** strings.Split on one character. */
  function Split(s: string, c: char): (parts: seq<string>)
    ensures parts != []
    decreases |s|
  {
    var k := IndexOf(s, c);
    if k == |s| then [s] else [s[..k]] + Split(s[k + 1..], c)
  }

  function Join(parts: seq<string>, c: char): string {
    if parts == [] then [] else if |parts| == 1 then parts[0] else parts[0] + [c] + Join(parts[1..], c)
  }

  lemma JoinMore(part: string, parts: seq<string>, c: char)
    requires parts != []
    ensures Join([part] + parts, c) == part + [c] + Join(parts, c)
  {
    assert ([part] + parts)[1..] == parts;
  }

  lemma {:induction false} JoinSplit(s: string, c: char)
    ensures Join(Split(s, c), c) == s
    decreases |s|
  {
    hide Join, IndexOf;
    var k := IndexOf(s, c);
    if k == |s| {
      JoinOne(s, c);
    } else {
      JoinSplit(s[k + 1..], c);
      JoinMore(s[..k], Split(s[k + 1..], c), c);
      assert s == s[..k] + [c] + s[k + 1..];
    }
  }

  lemma JoinOne(s: string, c: char)
    ensures Join([s], c) == s
  {
  }

  predicate OccursAt(s: string, word: string, i: int) {
    0 <= i <= |s| - |word| && s[i..i + |word|] == word
  }

  predicate Contains(s: string, word: string) {
    exists i | 0 <= i <= |s| :: OccursAt(s, word, i)
  }

  predicate IsControl(c: char) { c < ' ' || c == '\U{7F}' }

  // ----- net/url

  predicate IsLetter(c: char) { IsLower(c) || IsUpper(c) }

  /** Where getScheme finds the colon, scanning from i; None when a character ends the scan. */
  function SchemeEnd(s: string, i: nat): (r: Option<nat>)
    requires i <= |s|
    ensures r.Some? ==> r.value < |s| && s[r.value] == ':'
    decreases |s| - i
  {
    if i == |s| then None
    else if IsLetter(s[i]) then SchemeEnd(s, i + 1)
    else if IsDigit(s[i]) || s[i] in "+-." then if i == 0 then None else SchemeEnd(s, i + 1)
    else if s[i] == ':' then if i == 0 then None else Some(i)
    else None
  }

  predicate ValidOptionalPort(s: string) { s == "" || (s[0] == ':' && AllDigits(s[1..])) }

  predicate IsHex(c: char) { IsDigit(c) || 'a' <= c <= 'f' || 'A' <= c <= 'F' }

  predicate IsAscii(c: char) { c < '\U{80}' }

  /** ASCII characters that url.Parse leaves alone in a host. */
  predicate HostMayHold(c: char) {
    IsLetter(c) || IsDigit(c) || c in "!$&'()*+,;=:[]<>\"-_.~"
  }

  /** The percent triplet with these two hexadecimal digits, in either letter case, stands at i. */
  predicate TripletAt(s: string, i: nat, high: char, low: char) {
    i + 3 <= |s| && s[i] == '%' && AsciiLowerChar(s[i + 1]) == high && AsciiLowerChar(s[i + 2]) == low
  }

  /** The first character of a host and how much of its text spells it. Only %25 and bytes outside ASCII may be encoded.
      Of the characters that encoded bytes can spell, only U+0130 and U+212A have an ASCII lower case; every other byte is
      given as U+FFFD, which like the character it belongs to is refused later for not being ASCII. */
  function Leading(s: string): (r: Option<(char, nat)>)
    requires s != ""
    ensures r.Some? ==> 1 <= r.value.1 <= |s|
  {
    if s[0] == '%' then
      if |s| < 3 || !IsHex(s[1]) || !IsHex(s[2]) then None
      else if IsDigit(s[1]) && s[1] < '8' then if s[1] == '2' && s[2] == '5' then Some(('%', 3)) else None
      else if TripletAt(s, 0, 'c', '4') && TripletAt(s, 3, 'b', '0') then Some(('\U{0130}', 6))
      else if TripletAt(s, 0, 'e', '2') && TripletAt(s, 3, '8', '4') && TripletAt(s, 6, 'a', 'a') then Some(('\U{212A}', 9))
      else Some(('\U{FFFD}', 3))
    else if IsAscii(s[0]) && !HostMayHold(s[0]) then None
    else Some((s[0], 1))
  }

  /** unescape of a host. */
  function Unescape(s: string): (r: Option<string>)
    decreases |s|
  {
    if s == "" then Some("")
    else
      var first := Leading(s);
      if first.None? then None else Prepend(first.value.0, Unescape(s[first.value.1..]))
  }

  function Prepend(c: char, s: Option<string>): Option<string> {
    if s.Some? then Some([c] + s.value) else None
  }

  /** An authority without user information: the host and optional port of the URL, or None where url.Parse fails.
      A bracketed literal is refused by url.Parse unless it is an IPv6 address, and then by normalizeRelay, so it is
      None here. */
  function ParseHost(authority: string): Option<string> {
    var colon := AfterLast(authority, ':');
    if '[' in authority then None
    else if colon > 0 && !ValidOptionalPort(authority[colon - 1..]) then None
    else Unescape(authority)
  }

  /** URL.Hostname and URL.Port. */
  function SplitHostPort(hostPort: string): (string, string) {
    var colon := AfterLast(hostPort, ':');
    if colon > 0 && ValidOptionalPort(hostPort[colon - 1..]) then (hostPort[..colon - 1], hostPort[colon..])
    else (hostPort, "")
  }

  // ----- net/netip, IPv4

  predicate IsOctet(s: string) {
    && 1 <= |s| <= 3 && AllDigits(s)
    && (|s| > 1 ==> s[0] != '0')
    && Value(s) <= 255
  }

  predicate AllOctets(parts: seq<string>) { forall i | 0 <= i < |parts| :: IsOctet(parts[i]) }

  function ParseIpv4(s: string): Option<seq<nat>> {
    var parts := Split(s, '.');
    if |parts| == 4 && AllOctets(parts) then Some(seq(4, i requires 0 <= i < 4 && AllOctets(parts) => Value(parts[i]))) else None
  }

  function PrintIpv4(octets: seq<nat>): string {
    Join(seq(|octets|, i requires 0 <= i < |octets| => Format(octets[i])), '.')
  }

  /** Printing a parsed IPv4 address gives its text back, so replacing a host by its address changes nothing. */
  lemma Ipv4PrintsBack(s: string)
    requires ParseIpv4(s).Some?
    ensures PrintIpv4(ParseIpv4(s).value) == s
  {
    var parts := Split(s, '.');
    forall i | 0 <= i < 4 ensures IsOctet(parts[i]) && Format(Value(parts[i])) == parts[i] {
      if parts[i][0] == '0' {
        PrintParsed(parts[i]);
      } else {
        CanonicalDigits(parts[i]);
      }
    }
    var octets := ParseIpv4(s).value;
    assert seq(|octets|, i requires 0 <= i < |octets| => Format(octets[i])) == parts;
    JoinSplit(s, '.');
  }
}
