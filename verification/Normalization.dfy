/** normalization.go: the canonical form of a relay URL. */
module Normalization {
  import opened Options
  import opened Text
  import opened Numbers
  import opened Urls

  // ----- ports

  function NormalizePort(raw: string): Option<string> {
    if raw == "" || !AllDigits(raw) then None
    else
      var port := Parsed(raw, 65535);
      if port.None? || port.value == 0 then None else Some(Format(port.value))
  }

  predicate IsPort(s: string) {
    s != "" && AllDigits(s) && s[0] != '0' && Value(s) <= 65535
  }

  /** Parsing and printing a port undo each other up to leading zeros: what is printed is the text without them, and it
      is accepted exactly when it denotes a port from 1 to 65535. */
  lemma PortRoundTrip(raw: string)
    ensures NormalizePort(raw).Some? <==> raw != "" && AllDigits(raw) && 1 <= Value(raw) <= 65535
    ensures NormalizePort(raw).Some? ==> NormalizePort(raw).value == TrimZeros(raw) && IsPort(NormalizePort(raw).value)
    ensures IsPort(raw) ==> NormalizePort(raw) == Some(raw)
  {
    if raw != "" && AllDigits(raw) {
      PrintParsed(raw);
      FormatParses(Value(raw));
      FormatHasNoLeadingZero(Value(raw));
      if raw[0] != '0' {
        ValuePositive(raw);
      }
    }
  }

  lemma EveryPortIsReached(port: nat)
    requires 1 <= port <= 65535
    ensures IsPort(Format(port)) && NormalizePort(Format(port)) == Some(Format(port)) && Value(Format(port)) == port
  {
    FormatParses(port);
    FormatHasNoLeadingZero(port);
    PortRoundTrip(Format(port));
  }

  // ----- host names

  predicate LabelChar(c: char) { IsLetter(c) || IsDigit(c) || c == '-' }

  predicate LabelOk(part: string) {
    && 1 <= |part| <= 63 && part[0] != '-' && part[|part| - 1] != '-'
    && forall c | c in part :: LabelChar(c)
  }

  predicate ValidHostname(host: string) {
    && 1 <= |host| <= 253
    && (forall c | c in host :: IsAscii(c))
    && forall part | part in Split(host, '.') :: LabelOk(part)
  }

  method ValidDNSHostname(host: string) returns (valid: bool)
    ensures valid <==> ValidHostname(host)
  {
    if host == "" || |host| > 253 {
      return false;
    }
    for i := 0 to |host|
      invariant forall j | 0 <= j < i :: IsAscii(host[j])
    {
      if !IsAscii(host[i]) {
        return false;
      }
    }
    var labels := Split(host, '.');
    for i := 0 to |labels|
      invariant forall j | 0 <= j < i :: LabelOk(labels[j])
    {
      var part := labels[i];
      if part == "" || |part| > 63 || part[0] == '-' || part[|part| - 1] == '-' {
        assert !LabelOk(part) && part in labels;
        return false;
      }
      for k := 0 to |part|
        invariant forall j | 0 <= j < k :: LabelChar(part[j])
      {
        if !LabelChar(part[k]) {
          assert part[k] in part && part in labels;
          return false;
        }
      }
    }
    return true;
  }

  lemma {:induction false} HostnameChars(host: string)
    requires forall part | part in Split(host, '.') :: LabelOk(part)
    ensures host != "" && host[|host| - 1] != '.'
    ensures forall c | c in host :: LabelChar(c) || c == '.'
    decreases |host|
  {
    var k := IndexOf(host, '.');
    assert Split(host, '.')[0] in Split(host, '.');
    if k < |host| {
      assert forall part | part in Split(host[k + 1..], '.') :: part in Split(host, '.');
      HostnameChars(host[k + 1..]);
      assert host == host[..k] + ['.'] + host[k + 1..];
      assert Split(host, '.')[0] == host[..k];
    }
  }

  lemma {:induction false} JoinLength(parts: seq<string>, c: char)
    requires forall i | 0 <= i < |parts| :: |parts[i]| <= 3
    ensures |Join(parts, c)| <= 4 * |parts|
  {
    if |parts| > 1 {
      JoinLength(parts[1..], c);
    }
  }

  lemma OctetIsLabel(part: string)
    requires IsOctet(part)
    ensures LabelOk(part)
  {
    assert part[0] in part && part[|part| - 1] in part;
  }

  lemma OctetsAreLabels(parts: seq<string>)
    requires AllOctets(parts)
    ensures forall part | part in parts :: LabelOk(part)
    ensures |parts| == 4 ==> |Join(parts, '.')| <= 16
  {
    forall part | part in parts ensures LabelOk(part) {
      OctetIsLabel(part);
    }
    JoinLength(parts, '.');
    hide LabelOk, Join;
  }

  lemma Ipv4IsHostname(s: string)
    requires ParseIpv4(s).Some?
    ensures ValidHostname(s)
  {
    OctetsAreLabels(Split(s, '.'));
    HostnameChars(s);
    JoinSplit(s, '.');
    hide Split, Join, LabelOk, AllOctets;
  }

  // ----- relay URLs

  const SCHEME: string := "https"

  function TrimDot(s: string): string { if s != "" && s[|s| - 1] == '.' then s[..|s| - 1] else s }

  /** What normalizeRelay does to the host name of a parsed URL. */
  function CanonicalName(hostname: string): Option<string> {
    var host := TrimDot(ToLower(hostname));
    if ':' in hostname && '%' in hostname then None
    else if host == "" || exists c | c in host :: !IsAscii(c) then None
    else if ':' in host then None                              // an IPv6 address, valid or not
    else
      var address := ParseIpv4(host);
      if address.Some? then Some(PrintIpv4(address.value))
      else if ValidHostname(host) then Some(host)
      else None
  }

  /** And to its port. */
  function CanonicalAuthority(hostname: string, port: string): Option<string> {
    var name := CanonicalName(hostname);
    if name.None? || port == "" then name
    else if NormalizePort(port).None? then None
    else if NormalizePort(port).value == "443" then name
    else Some(name.value + ":" + NormalizePort(port).value)
  }

  /** An https URL from its authority and path. */
  function FromParts(authority: string, path: string): Option<string> {
    if '@' in authority || path !in {"", "/", "/relay"} then None
    else
      var parsed := ParseHost(authority);
      if parsed.None? || parsed.value == "" || parsed.value[|parsed.value| - 1] == ':' then None
      else
        var (hostname, port) := SplitHostPort(parsed.value);
        var canonical := CanonicalAuthority(hostname, port);
        if canonical.Some? then Some(SCHEME + "://" + canonical.value) else None
  }

  /** The rest of an https URL after its first colon, which url.Parse splits into authority and path. */
  function CanonicalRest(rest: string): Option<string> {
    if |rest| < 2 || rest[..2] != "//" then None
    else
      var slash := 2 + IndexOf(rest[2..], '/');
      FromParts(rest[2..slash], rest[slash..])
  }

  function NormalizeRelay(raw: string): Option<string> {
    var relay := TrimSpace(raw);
    if relay == "" || '?' in relay || '#' in relay then None
    else
      var url := if Contains(relay, "://") then relay else SCHEME + "://" + relay;
      if exists c | c in url :: IsControl(c) then None
      else
        var colon := SchemeEnd(url, 0);
        if colon.None? || AsciiLower(url[..colon.value]) != SCHEME then None
        else CanonicalRest(url[colon.value + 1..])
  }

  // ----- the canonical form, described on its own

  predicate IsCanonicalHost(host: string) { ValidHostname(host) && IsLowered(host) }

  /** host, or host and a port other than 443. */
  ghost predicate IsCanonicalAuthority(a: string) {
    || IsCanonicalHost(a)
    || exists host, port :: a == host + ":" + port && IsCanonicalHost(host) && IsPort(port) && port != "443"
  }

  ghost predicate IsCanonical(s: string) {
    exists a :: s == SCHEME + "://" + a && IsCanonicalAuthority(a)
  }

  lemma LoweredPrefix(s: string, k: nat)
    requires k <= |s|
    ensures IsLowered(ToLower(s)[..k])
  {
    ToLowerIsLowered(s);
  }

  lemma NameIsCanonical(hostname: string)
    ensures CanonicalName(hostname).Some? ==> IsCanonicalHost(CanonicalName(hostname).value)
  {
    var host := TrimDot(ToLower(hostname));
    LoweredPrefix(hostname, |host|);
    assert host == ToLower(hostname)[..|host|];
    if ParseIpv4(host).Some? {
      Ipv4PrintsBack(host);
      Ipv4IsHostname(host);
    }
    hide ValidHostname, ParseIpv4, PrintIpv4, IsLowered, ToLower, TrimDot;
  }

  lemma AuthorityIsCanonical(hostname: string, port: string)
    ensures CanonicalAuthority(hostname, port).Some? ==> IsCanonicalAuthority(CanonicalAuthority(hostname, port).value)
  {
    NameIsCanonical(hostname);
    PortRoundTrip(port);
    hide CanonicalName, IsCanonicalHost, NormalizePort, IsPort, TrimZeros, AllDigits;
  }

  /** Whatever normalizeRelay accepts it puts into canonical form. */
  lemma NormalizedIsCanonical(raw: string)
    requires NormalizeRelay(raw).Some?
    ensures IsCanonical(NormalizeRelay(raw).value)
  {
    var relay := TrimSpace(raw);
    var url := if Contains(relay, "://") then relay else SCHEME + "://" + relay;
    var rest := url[SchemeEnd(url, 0).value + 1..];
    RestIsCanonical(rest);
    hide CanonicalRest, IsCanonical, SchemeEnd, TrimSpace, Contains;
  }

  lemma RestIsCanonical(rest: string)
    ensures CanonicalRest(rest).Some? ==> IsCanonical(CanonicalRest(rest).value)
  {
    if CanonicalRest(rest).Some? {
      var parsed := ParseHost(rest[2..2 + IndexOf(rest[2..], '/')]);
      var (hostname, port) := SplitHostPort(parsed.value);
      AuthorityIsCanonical(hostname, port);
      hide CanonicalAuthority, IsCanonicalAuthority, ParseHost, SplitHostPort, IndexOf;
    }
  }

  // ----- a canonical form is left alone

  predicate PlainChar(c: char) { LabelChar(c) || c == '.' || c == ':' }

  predicate Plain(s: string) { forall c | c in s :: PlainChar(c) }

  lemma {:induction false} UnescapePlain(s: string)
    requires Plain(s)
    ensures Unescape(s) == Some(s)
  {
    if s != "" {
      assert s[0] in s;
      UnescapePlain(s[1..]);
      assert s == [s[0]] + s[1..];
    }
  }

  lemma HostIsPlain(host: string)
    requires IsCanonicalHost(host)
    ensures host != "" && Plain(host) && ':' !in host && host[|host| - 1] != '.'
  {
    HostnameChars(host);
  }

  lemma NameUnchanged(host: string)
    requires IsCanonicalHost(host)
    ensures CanonicalName(host) == Some(host)
  {
    HostIsPlain(host);
    ToLowerFixed(host);
    if ParseIpv4(host).Some? {
      Ipv4PrintsBack(host);
    }
    assert forall c | c in host :: IsAscii(c);
    hide ParseIpv4, PrintIpv4, IsLowered, ToLower, Split, LabelOk;
  }

  lemma HostUnchanged(host: string, port: string)
    requires IsCanonicalHost(host) && (port == "" || (IsPort(port) && port != "443"))
    ensures CanonicalAuthority(host, port) == Some(if port == "" then host else host + ":" + port)
  {
    NameUnchanged(host);
    PortRoundTrip(port);
    hide CanonicalName, IsCanonicalHost, NormalizePort, IsPort;
  }

  /** Where host and port part. */
  lemma SplitCanonical(host: string, port: string)
    requires ':' !in host && host != "" && (port == "" || (AllDigits(port) && ':' !in port))
    ensures var a := if port == "" then host else host + ":" + port;
            && SplitHostPort(a) == (host, port)
            && (AfterLast(a, ':') > 0 ==> ValidOptionalPort(a[AfterLast(a, ':') - 1..]))
            && a != "" && a[|a| - 1] != ':'
  {
    var a := if port == "" then host else host + ":" + port;
    var k := AfterLast(a, ':');
    if port == "" {
      assert k == 0;
    } else {
      assert a[|host|] == ':';
      assert forall i | |host| < i < |a| :: a[i] == port[i - |host| - 1];
      assert k == |host| + 1;
      assert a[k - 1..] == ":" + port && a[..k - 1] == host && a[k..] == port;
    }
  }

  lemma PortIsPlain(port: string)
    requires IsPort(port)
    ensures Plain(port) && ':' !in port
  {
  }

  lemma AuthorityUnchanged(host: string, port: string)
    requires IsCanonicalHost(host) && (port == "" || (IsPort(port) && port != "443"))
    ensures var a := if port == "" then host else host + ":" + port;
            Plain(a) && CanonicalRest("//" + a) == Some(SCHEME + "://" + a)
  {
    var a := if port == "" then host else host + ":" + port;
    HostIsPlain(host);
    if port != "" {
      PortIsPlain(port);
    }
    assert Plain(a);
    SplitCanonical(host, port);
    HostUnchanged(host, port);
    UnescapePlain(a);
    RestUnchanged(a, host, port);
    hide CanonicalAuthority, IsCanonicalHost, IsPort, Unescape, AfterLast, SplitHostPort, CanonicalRest;
  }

  lemma RestUnchanged(a: string, host: string, port: string)
    requires Plain(a) && a != "" && a[|a| - 1] != ':' && SplitHostPort(a) == (host, port)
    requires AfterLast(a, ':') > 0 ==> ValidOptionalPort(a[AfterLast(a, ':') - 1..])
    requires CanonicalAuthority(host, port) == Some(a) && Unescape(a) == Some(a)
    ensures CanonicalRest("//" + a) == Some(SCHEME + "://" + a)
  {
    hide CanonicalAuthority, Unescape, AfterLast, SplitHostPort, ValidOptionalPort, Plain;
    assert FromParts(a, "") == Some(SCHEME + "://" + a) by { NoSlash(a); }
    var rest := "//" + a;
    assert rest[2..] == a && rest[..2] == "//";
    assert IndexOf(a, '/') == |a| by { NoSlash(a); }
    assert rest[2..2 + |a|] == a && rest[2 + |a|..] == "";
    hide FromParts;
  }

  lemma NoSlash(a: string)
    requires Plain(a)
    ensures IndexOf(a, '/') == |a| && '@' !in a && '[' !in a
  {
    assert '/' !in a;
  }

  lemma SchemeOfHttps(s: string)
    requires |s| >= 6 && s[..6] == "https:"
    ensures SchemeEnd(s, 0) == Some(5)
  {
    assert s[0] == 'h' && s[1] == 't' && s[2] == 't' && s[3] == 'p' && s[4] == 's' && s[5] == ':';
    assert SchemeEnd(s, 5) == Some(5);
    assert SchemeEnd(s, 4) == Some(5);
    assert SchemeEnd(s, 3) == Some(5);
    assert SchemeEnd(s, 2) == Some(5);
    assert SchemeEnd(s, 1) == Some(5);
  }

  lemma UrlIsFixed(a: string)
    requires Plain(a) && CanonicalRest("//" + a) == Some(SCHEME + "://" + a)
    ensures NormalizeRelay(SCHEME + "://" + a) == Some(SCHEME + "://" + a)
  {
    hide CanonicalRest;
    var s := SCHEME + "://" + a;
    CleanUrl(a);
    TrimNoSpaces(s);
    SchemeOfHttps(s);
    assert s[5..8] == "://" && s[..5] == SCHEME && s[6..] == "//" + a;
    assert OccursAt(s, "://", 5);
    assert AsciiLower(SCHEME) == SCHEME;
    hide TrimSpace, SchemeEnd, AsciiLower, NoSpaces, Plain, IsControl;
  }

  lemma CanonicalIsFixed(s: string)
    requires IsCanonical(s)
    ensures NormalizeRelay(s) == Some(s)
  {
    var a :| s == SCHEME + "://" + a && IsCanonicalAuthority(a);
    if IsCanonicalHost(a) {
      AuthorityUnchanged(a, "");
    } else {
      var host, port :| a == host + ":" + port && IsCanonicalHost(host) && IsPort(port) && port != "443";
      AuthorityUnchanged(host, port);
    }
    UrlIsFixed(a);
    hide *;
  }

  /** No character of a canonical URL is blank, a control character, or starts a query or a fragment. */
  lemma CleanUrl(a: string)
    requires Plain(a)
    ensures var s := SCHEME + "://" + a; NoSpaces(s) && '?' !in s && '#' !in s && !exists c | c in s :: IsControl(c)
  {
    var s := SCHEME + "://" + a;
    assert forall i | 0 <= i < |s| :: i >= 8 ==> s[i] == a[i - 8] && a[i - 8] in a;
    assert forall i | 0 <= i < |s| :: PlainChar(s[i]) || s[i] == '/';
  }

  // ----- main results

  /** normalizeRelay leaves exactly the canonical URLs alone. */
  lemma FixedPointsAreCanonical(s: string)
    ensures NormalizeRelay(s) == Some(s) <==> IsCanonical(s)
  {
    if NormalizeRelay(s) == Some(s) {
      NormalizedIsCanonical(s);
    }
    if IsCanonical(s) {
      CanonicalIsFixed(s);
    }
  }

  /** It is idempotent on everything it accepts. */
  lemma NormalizationIsIdempotent(raw: string)
    requires NormalizeRelay(raw).Some?
    ensures NormalizeRelay(NormalizeRelay(raw).value) == NormalizeRelay(raw)
  {
    NormalizedIsCanonical(raw);
    CanonicalIsFixed(NormalizeRelay(raw).value);
  }

  // ----- lists of relays

  /** The canonical images of the inputs, in order; None when one is refused. */
  function Images(inputs: seq<string>): Option<seq<string>> {
    if inputs == [] then Some([])
    else
      var front, last := Images(inputs[..|inputs| - 1]), NormalizeRelay(inputs[|inputs| - 1]);
      if front.None? || last.None? then None else Some(front.value + [last.value])
  }

  /** The first occurrence of each element. */
  function Firsts(s: seq<string>): seq<string> {
    if s == [] then []
    else if s[|s| - 1] in s[..|s| - 1] then Firsts(s[..|s| - 1])
    else Firsts(s[..|s| - 1]) + [s[|s| - 1]]
  }

  function Normalized(inputs: seq<string>): Option<seq<string>> {
    if inputs == [] || Images(inputs).None? then None else Some(Firsts(Images(inputs).value))
  }

  method NormalizeRelays(inputs: seq<string>) returns (r: Option<seq<string>>)
    ensures r == Normalized(inputs)
  {
    hide NormalizeRelay;
    if inputs == [] {
      return None;
    }
    var result: seq<string> := [];
    var seen: set<string> := {};
    for i := 0 to |inputs|
      invariant Images(inputs[..i]).Some?
      invariant result == Firsts(Images(inputs[..i]).value)
      invariant seen == set url | url in Images(inputs[..i]).value
    {
      assert inputs[..i + 1][..i] == inputs[..i];
      var canonical := NormalizeRelay(inputs[i]);
      if canonical.None? {
        RefusedPrefix(inputs, i + 1);
        return None;
      }
      ghost var before, after := Images(inputs[..i]).value, Images(inputs[..i + 1]).value;
      assert after == before + [canonical.value] && after[..|after| - 1] == before;
      if canonical.value !in seen {
        seen := seen + {canonical.value};
        result := result + [canonical.value];
      }
    }
    assert inputs[..|inputs|] == inputs;
    return Some(result);
  }

  lemma {:induction false} RefusedPrefix(inputs: seq<string>, k: nat)
    requires k <= |inputs| && Images(inputs[..k]).None?
    ensures Images(inputs).None?
    decreases |inputs|
  {
    if k == |inputs| {
      assert inputs[..k] == inputs;
    } else {
      assert inputs[..|inputs| - 1][..k] == inputs[..k];
      RefusedPrefix(inputs[..|inputs| - 1], k);
    }
  }

  predicate NoDuplicates(s: seq<string>) { forall i, j | 0 <= i < j < |s| :: s[i] != s[j] }

  /** Where an element occurs first. */
  function FirstIndex(s: seq<string>, x: string): (k: nat)
    requires x in s
    ensures k < |s| && s[k] == x && forall i | 0 <= i < k :: s[i] != x
  {
    if s[0] == x then 0 else 1 + FirstIndex(s[1..], x)
  }

  /** Firsts keeps each element once, in the order of first occurrences. */
  lemma {:induction false} FirstsInOrder(s: seq<string>)
    ensures forall x :: x in Firsts(s) <==> x in s
    ensures NoDuplicates(Firsts(s))
    ensures forall i, j | 0 <= i < j < |Firsts(s)| ::
              Firsts(s)[i] in s && Firsts(s)[j] in s && FirstIndex(s, Firsts(s)[i]) < FirstIndex(s, Firsts(s)[j])
  {
    if s != [] {
      var front, last := s[..|s| - 1], s[|s| - 1];
      FirstsInOrder(front);
      assert s == front + [last];
      forall x | x in front ensures FirstIndex(s, x) == FirstIndex(front, x) {
        SameFirst(s, front, x);
      }
      forall i, j | 0 <= i < j < |Firsts(s)|
        ensures Firsts(s)[i] in s && Firsts(s)[j] in s && FirstIndex(s, Firsts(s)[i]) < FirstIndex(s, Firsts(s)[j])
      {
        if j < |Firsts(front)| {
          assert Firsts(front)[i] in front && Firsts(front)[j] in front;
        } else {
          assert Firsts(front)[i] in front && Firsts(s)[j] == last;
          LastIsLater(s);
        }
      }
    }
  }

  lemma SameFirst(s: seq<string>, front: seq<string>, x: string)
    requires front <= s && x in front
    ensures x in s && FirstIndex(s, x) == FirstIndex(front, x)
  {
    var k, l := FirstIndex(front, x), FirstIndex(s, x);
    assert s[k] == x;
    assert l < |front| ==> front[l] == x;
  }

  lemma LastIsLater(s: seq<string>)
    requires s != [] && s[|s| - 1] !in s[..|s| - 1]
    ensures FirstIndex(s, s[|s| - 1]) == |s| - 1
  {
    assert forall i | 0 <= i < |s| - 1 :: s[..|s| - 1][i] == s[i];
  }

  lemma {:induction false} FirstsOfDistinct(s: seq<string>)
    requires NoDuplicates(s)
    ensures Firsts(s) == s
  {
    if s != [] {
      FirstsOfDistinct(s[..|s| - 1]);
      assert s == s[..|s| - 1] + [s[|s| - 1]];
    }
  }

  lemma {:induction false} ImagesOfCanonical(s: seq<string>)
    requires forall url | url in s :: NormalizeRelay(url) == Some(url)
    ensures Images(s) == Some(s)
  {
    hide NormalizeRelay;
    if s != [] {
      ImagesOfCanonical(s[..|s| - 1]);
      assert s == s[..|s| - 1] + [s[|s| - 1]];
    }
  }

  lemma {:induction false} ImagesAreImages(inputs: seq<string>)
    requires Images(inputs).Some?
    ensures |Images(inputs).value| == |inputs|
    ensures forall i | 0 <= i < |inputs| :: NormalizeRelay(inputs[i]) == Some(Images(inputs).value[i])
  {
    hide NormalizeRelay;
    if inputs != [] {
      ImagesAreImages(inputs[..|inputs| - 1]);
    }
  }

  /** NormalizeRelays returns the canonical images without duplicates, in the order of their first occurrences. */
  lemma ListContract(inputs: seq<string>)
    ensures Normalized(inputs).None? <==> inputs == [] || exists raw | raw in inputs :: NormalizeRelay(raw).None?
    ensures Normalized(inputs).Some? ==>
              var out, images := Normalized(inputs).value, Images(inputs).value;
              && NoDuplicates(out)
              && (forall url :: url in out <==> exists raw | raw in inputs :: NormalizeRelay(raw) == Some(url))
              && (forall i, j | 0 <= i < j < |out| ::
                    out[i] in images && out[j] in images && FirstIndex(images, out[i]) < FirstIndex(images, out[j]))
  {
    RefusedSomewhere(inputs);
    if Images(inputs).Some? {
      ImagesAreImages(inputs);
      FirstsInOrder(Images(inputs).value);
      hide NormalizeRelay, Firsts, Images;
      var images := Images(inputs).value;
      forall url ensures url in images <==> exists raw | raw in inputs :: NormalizeRelay(raw) == Some(url) {
        if url in images {
          var i :| 0 <= i < |images| && images[i] == url;
          assert inputs[i] in inputs;
        }
      }
    }
  }

  lemma {:induction false} RefusedSomewhere(inputs: seq<string>)
    ensures Images(inputs).None? <==> exists raw | raw in inputs :: NormalizeRelay(raw).None?
  {
    if inputs != [] {
      var front, last := inputs[..|inputs| - 1], inputs[|inputs| - 1];
      RefusedSomewhere(front);
      assert inputs == front + [last];
      hide NormalizeRelay;
      assert forall raw :: raw in inputs <==> raw in front || raw == last;
    }
  }

  /** It is a fixed point on its own output. */
  lemma ListIsFixedPoint(inputs: seq<string>)
    requires Normalized(inputs).Some?
    ensures Normalized(Normalized(inputs).value) == Normalized(inputs)
  {
    var out := Normalized(inputs).value;
    ListContract(inputs);
    hide NormalizeRelay;
    forall url | url in out ensures NormalizeRelay(url) == Some(url) {
      var raw :| raw in inputs && NormalizeRelay(raw) == Some(url);
      NormalizationIsIdempotent(raw);
    }
    ImagesOfCanonical(out);
    FirstsOfDistinct(out);
    OutNotEmpty(inputs);
  }

  lemma OutNotEmpty(inputs: seq<string>)
    requires Normalized(inputs).Some?
    ensures Normalized(inputs).value != []
  {
    ListContract(inputs);
    ImagesAreImages(inputs);
    hide NormalizeRelay, Firsts;
    assert NormalizeRelay(inputs[0]).Some? && inputs[0] in inputs;
    assert NormalizeRelay(inputs[0]).value in Normalized(inputs).value;
  }
}
