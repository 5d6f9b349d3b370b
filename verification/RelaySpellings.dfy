/** Which texts name a relay, and which relay they name: normalizeRelay accepts exactly the spellings built here and maps
    each to the origin that it spells. */
module RelaySpellings {
  import opened Options
  import opened Text
  import opened Numbers
  import opened Urls
  import opened Normalization

  /** The parts of a relay URL, between blanks. */
  datatype Spelling = Spelling(
    left: string,
    scheme: Option<string>,
    host: string,
    port: Option<string>,
    path: string,
    right: string)

  function PortText(port: Option<string>): string { if port.Some? then ":" + port.value else "" }

  function SchemeText(scheme: Option<string>): string { if scheme.Some? then scheme.value + "://" else "" }

  function Body(sp: Spelling): string { SchemeText(sp.scheme) + (sp.host + PortText(sp.port) + sp.path) }

  function Spelled(sp: Spelling): string { sp.left + Body(sp) + sp.right }

  predicate InRange(port: string) { port != "" && AllDigits(port) && 1 <= Value(port) <= 65535 }

  predicate AllowedPath(path: string) { path == "" || path == "/" || path == "/relay" }

  /** The host text decodes to this name, up to letter case and one final dot. */
  predicate Names(host: string, name: string) {
    var decoded := Unescape(host);
    decoded.Some? && name == TrimDot(ToLower(decoded.value)) && ValidHostname(name)
  }

  predicate Spells(sp: Spelling, name: string) {
    && AllSpaces(sp.left) && AllSpaces(sp.right)
    && (sp.scheme.Some? ==> AsciiLower(sp.scheme.value) == "https")
    && Names(sp.host, name)
    && (sp.port.Some? ==> InRange(sp.port.value))
    && AllowedPath(sp.path)
  }

  /** The origin of a host name and a port; 443 is the default and stays away. */
  function Origin(name: string, port: Option<string>): string
    requires port.Some? ==> InRange(port.value)
  {
    "https://" + name + if port.Some? && Value(port.value) != 443 then ":" + TrimZeros(port.value) else ""
  }

  // ----- ports

  lemma DefaultPort(port: string)
    requires InRange(port)
    ensures NormalizePort(port) == Some(TrimZeros(port))
    ensures TrimZeros(port) == "443" <==> Value(port) == 443
  {
    PortRoundTrip(port);
    PrintParsed(port);
    FormatParses(Value(port));
    assert Value("443") == 443 by {
      assert "443"[..2] == "44" && "44"[..1] == "4" && "4"[..0] == "";
    }
    CanonicalDigits("443");
  }

  // ----- host names

  lemma {:induction false} InLowered(s: string, c: char)
    requires c in s
    ensures LowerChar(c) in ToLower(s)
  {
    var i :| 0 <= i < |s| && s[i] == c;
    assert ToLower(s)[i] == LowerChar(c);
  }

  /** The characters that a host name may have before it is lowered: two of them are not ASCII. */
  predicate NameChar(c: char) { LabelChar(c) || c == '.' || c == '\U{0130}' || c == '\U{212A}' }

  lemma NameChars(decoded: string)
    requires ValidHostname(TrimDot(ToLower(decoded)))
    ensures forall c | c in decoded :: NameChar(c)
    ensures decoded != ""
  {
    hide ToLower, Split, LabelOk;
    var lowered := ToLower(decoded);
    HostnameChars(TrimDot(lowered));
    forall c | c in decoded ensures NameChar(c) {
      InLowered(decoded, c);
      assert LowerChar(c) == '.' || LowerChar(c) in TrimDot(lowered);
    }
  }

  /** A decoded host is given its lowered name exactly if that is a host name. */
  lemma CanonicalNameIs(decoded: string)
    ensures var name := TrimDot(ToLower(decoded));
            CanonicalName(decoded) == if ValidHostname(name) then Some(name) else None
  {
    hide ParseIpv4, PrintIpv4, ToLower, Split, LabelOk, TrimDot;
    var name := TrimDot(ToLower(decoded));
    if ValidHostname(name) {
      NameChars(decoded);
      HostnameChars(name);
      assert ':' !in decoded && ':' !in name;
    }
    if ParseIpv4(name).Some? {
      Ipv4PrintsBack(name);
      Ipv4IsHostname(name);
    }
    assert ValidHostname(name) ==> name != "" && forall c | c in name :: IsAscii(c);
  }

  // ----- percent encoding

  lemma LeadingChars(s: string)
    requires s != "" && Leading(s).Some?
    ensures var (c, n) := Leading(s).value;
            && (forall i | 0 <= i < n :: s[i] == '%' || IsHex(s[i]) || s[i] == c)
            && (c == ':' ==> s[0] == ':')
            && (forall i | 0 <= i < n :: s[i] != '@' && s[i] != '/' && s[i] != '?' && s[i] != '#')
  {
  }

  /** The character belongs to the encoding or shows in what it decodes to. */
  predicate Shows(c: char, decoded: string) {
    (c == '%' || IsHex(c) || c in decoded) && c != '@' && c != '/' && c != '?' && c != '#'
  }

  lemma {:induction false} UnescapeShows(s: string)
    requires Unescape(s).Some?
    ensures forall i | 0 <= i < |s| :: Shows(s[i], Unescape(s).value)
    decreases |s|
  {
    if s != "" {
      LeadingChars(s);
      var (c, n) := Leading(s).value;
      UnescapeShows(s[n..]);
      hide Leading, IsHex;
      var rest, decoded := Unescape(s[n..]).value, Unescape(s).value;
      assert decoded == [c] + rest && decoded[0] == c;
      forall i | 0 <= i < |s| ensures Shows(s[i], decoded) {
        if i >= n {
          assert s[n..][i - n] == s[i] && Shows(s[i], rest);
        }
      }
    }
  }

  lemma {:induction false} UnescapeColons(s: string)
    requires Unescape(s).Some? && ':' !in s
    ensures ':' !in Unescape(s).value
    decreases |s|
  {
    if s != "" {
      LeadingChars(s);
      hide Leading, IsHex;
      UnescapeColons(s[Leading(s).value.1..]);
    }
  }

  lemma LeadingTail(h: string, tail: string)
    requires h != "" && tail != "" && tail[0] == ':'
    ensures Leading(h + tail) == Leading(h)
  {
    var s := h + tail;
    assert s[|h|] == ':' && forall i | 0 <= i < |h| :: s[i] == h[i];
  }

  /** A port after the host is left alone. */
  lemma {:induction false} UnescapeTail(h: string, tail: string)
    requires Plain(tail) && tail != "" && tail[0] == ':'
    ensures Unescape(h + tail) == if Unescape(h).Some? then Some(Unescape(h).value + tail) else None
    decreases |h|
  {
    hide Leading, PlainChar;
    if h == "" {
      UnescapePlain(tail);
      assert h + tail == tail;
    } else {
      LeadingTail(h, tail);
      if Leading(h).Some? {
        var n := Leading(h).value.1;
        UnescapeTail(h[n..], tail);
        assert (h + tail)[n..] == h[n..] + tail;
        if Unescape(h[n..]).Some? {
          var rest := Unescape(h[n..]).value;
          assert [Leading(h).value.0] + (rest + tail) == [Leading(h).value.0] + rest + tail;
        }
      }
    }
  }

  // ----- authorities

  lemma LastColon(host: string, port: string)
    requires AllDigits(port)
    ensures var a := host + ":" + port;
            AfterLast(a, ':') == |host| + 1 && a[..|host|] == host && a[|host|..] == ":" + port && a[|host| + 1..] == port
  {
    var a := host + ":" + port;
    assert a[|host|] == ':';
    assert forall i | |host| < i < |a| :: a[i] == port[i - |host| - 1] && port[i - |host| - 1] in port;
    var k := AfterLast(a, ':');
    assert k == |host| + 1;
  }

  lemma SplitsAtPort(host: string, port: string)
    requires AllDigits(port)
    ensures var a := host + ":" + port; SplitHostPort(a) == (host, port) && (port == "" <==> a[|a| - 1] == ':')
  {
    hide AfterLast;
    LastColon(host, port);
    assert (":" + port)[1..] == port;
    var a := host + ":" + port;
    if port != "" {
      assert a[|a| - 1] == port[|port| - 1] && port[|port| - 1] in port;
    }
  }

  lemma ParsedHost(host: string, port: string)
    requires AllDigits(port)
    ensures ParseHost(host + ":" + port) == if '[' in host || Unescape(host).None? then None else Some(Unescape(host).value + ":" + port)
  {
    hide Unescape, AfterLast;
    var a, tail := host + ":" + port, ":" + port;
    LastColon(host, port);
    assert tail[1..] == port;
    assert forall c | c in port :: PlainChar(c) && c != '[';
    assert Plain(tail);
    UnescapeTail(host, tail);
    assert a == host + tail;
    if Unescape(host).Some? {
      assert Unescape(host).value + tail == Unescape(host).value + ":" + port;
    }
    assert '[' in a <==> '[' in host;
  }

  /** The name of a host that decodes. */
  function NameOf(host: string): string {
    if Unescape(host).Some? then TrimDot(ToLower(Unescape(host).value)) else ""
  }

  lemma NamesAreClean(host: string)
    requires Names(host, NameOf(host))
    ensures '@' !in host && '[' !in host && ':' !in Unescape(host).value
  {
    hide Unescape, ToLower, TrimDot, ValidHostname;
    var decoded := Unescape(host).value;
    NameChars(decoded);
    UnescapeShows(host);
  }

  lemma NamesMeans(host: string)
    requires Unescape(host).Some?
    ensures CanonicalName(Unescape(host).value) == if Names(host, NameOf(host)) then Some(NameOf(host)) else None
  {
    hide CanonicalName, Unescape, ToLower, TrimDot, ValidHostname;
    CanonicalNameIs(Unescape(host).value);
  }

  /** What the parts of an authority and the path decide. */
  lemma PartsDecide(host: string, port: Option<string>, path: string)
    requires if port.Some? then AllDigits(port.value) else ':' !in host
    ensures FromParts(host + PortText(port), path)
         == if AllowedPath(path) && Names(host, NameOf(host)) && (port.Some? ==> InRange(port.value))
            then Some(Origin(NameOf(host), port)) else None
  {
    hide FromParts, Names, NameOf, InRange, Origin, AllowedPath;
    if port.Some? {
      assert host + PortText(port) == host + ":" + port.value;
      PartsWithPort(host, port.value, path);
    } else {
      PartsWithoutPort(host, path);
      assert host + "" == host;
    }
  }

  lemma OriginText(name: string, port: Option<string>)
    requires port.Some? ==> InRange(port.value)
    ensures Origin(name, port)
         == SCHEME + "://" + if port.Some? && Value(port.value) != 443 then name + ":" + TrimZeros(port.value) else name
  {
    hide InRange, Value, TrimZeros;
    assert SCHEME + "://" == "https://";
    if port.Some? {
      assert "https://" + name + (":" + TrimZeros(port.value)) == "https://" + (name + ":" + TrimZeros(port.value));
    }
    assert "https://" + name + "" == "https://" + name;
  }

  lemma NoEmptyName()
    ensures CanonicalName("") == None
  {
  }

  lemma PartsWithPort(host: string, port: string, path: string)
    requires AllDigits(port)
    ensures FromParts(host + ":" + port, path)
         == if AllowedPath(path) && Names(host, NameOf(host)) && InRange(port) then Some(Origin(NameOf(host), Some(port))) else None
  {
    hide ParseHost, SplitHostPort, CanonicalName, NormalizePort, Unescape, ToLower, TrimDot, ValidHostname, Value, TrimZeros, Origin;
    var a := host + ":" + port;
    ParsedHost(host, port);
    if Names(host, NameOf(host)) {
      NamesAreClean(host);
    }
    assert '@' in a <==> '@' in host by {
      assert forall c | c in port :: c != '@';
    }
    if Unescape(host).Some? {
      var decoded := Unescape(host).value;
      NamesMeans(host);
      SplitsAtPort(decoded, port);
      PortRoundTrip(port);
      if InRange(port) {
        DefaultPort(port);
        OriginText(NameOf(host), Some(port));
      }
    }
  }

  lemma PartsWithoutPort(host: string, path: string)
    requires ':' !in host
    ensures FromParts(host, path)
         == if AllowedPath(path) && Names(host, NameOf(host)) then Some(Origin(NameOf(host), None)) else None
  {
    hide CanonicalName, Unescape, ToLower, TrimDot, ValidHostname, Origin;
    NoEmptyName();
    OriginText(NameOf(host), None);
    assert AfterLast(host, ':') == 0;
    if Names(host, NameOf(host)) {
      NamesAreClean(host);
    }
    if Unescape(host).Some? {
      var decoded := Unescape(host).value;
      UnescapeColons(host);
      assert AfterLast(decoded, ':') == 0;
      NamesMeans(host);
    }
  }

  // ----- whole URLs

  predicate HostChar(c: char) { NameChar(c) || c == '%' }

  lemma HostIsClean(host: string)
    requires Names(host, NameOf(host))
    ensures host != "" && forall c | c in host :: HostChar(c)
  {
    hide Unescape, ToLower, TrimDot, ValidHostname;
    var decoded := Unescape(host).value;
    NameChars(decoded);
    UnescapeShows(host);
    NothingDecodes(host);
  }

  lemma NothingDecodes(host: string)
    ensures host == "" ==> Unescape(host) == Some("")
  {
  }

  predicate UrlChar(c: char) { HostChar(c) || c == ':' || c == '/' }

  predicate UrlText(s: string) { forall c | c in s :: UrlChar(c) }

  lemma UrlTextIsClean(s: string)
    requires UrlText(s)
    ensures Trimmed(s) && '?' !in s && '#' !in s && !exists c | c in s :: IsControl(c)
  {
    assert s != "" ==> s[0] in s && s[|s| - 1] in s;
  }

  lemma LetterOfLower(c: char, lower: char)
    requires AsciiLowerChar(c) == lower && IsLower(lower)
    ensures IsLetter(c) && UrlChar(c)
  {
  }

  lemma SchemeIsUrlText(scheme: string)
    requires AsciiLower(scheme) == "https"
    ensures |scheme| == 5 && UrlText(scheme) && forall i | 0 <= i < 5 :: IsLetter(scheme[i])
  {
    hide AsciiLowerChar, UrlChar, IsLetter;
    var word := "https";
    forall i | 0 <= i < 5 ensures IsLetter(scheme[i]) && UrlChar(scheme[i]) {
      LetterOfLower(scheme[i], word[i]);
    }
  }

  lemma BodyIsUrlText(sp: Spelling, name: string)
    requires Spells(sp, name)
    ensures UrlText(Body(sp)) && Body(sp) != ""
  {
    hide Names, NameOf, Unescape;
    assert name == NameOf(sp.host) && Names(sp.host, NameOf(sp.host)) by { NameIsDetermined(sp.host, name); }
    HostIsClean(sp.host);
    if sp.scheme.Some? {
      SchemeIsUrlText(sp.scheme.value);
    }
    assert UrlText(SchemeText(sp.scheme)) && UrlText(sp.host) && UrlText(PortText(sp.port)) && UrlText(sp.path);
  }

  lemma NameIsDetermined(host: string, name: string)
    requires Names(host, name)
    ensures name == NameOf(host)
  {
  }

  /** The separator occurs exactly if the scheme is given. */
  lemma Separator(sp: Spelling, name: string)
    requires Spells(sp, name)
    ensures Contains(Body(sp), "://") <==> sp.scheme.Some?
  {
    hide Names, NameOf, Unescape;
    var body := Body(sp);
    if sp.scheme.Some? {
      var scheme := sp.scheme.value;
      assert body[|scheme|..|scheme| + 3] == "://";
      assert OccursAt(body, "://", |scheme|);
    } else {
      NameIsDetermined(sp.host, name);
      HostIsClean(sp.host);
      var n := |sp.host|;
      assert forall i | 0 <= i < n :: body[i] == sp.host[i] && HostChar(sp.host[i]);
      forall i | 0 <= i <= |body| ensures !OccursAt(body, "://", i) {
        if OccursAt(body, "://", i) {
          assert body[i..i + 3][0] == body[i] && body[i..i + 3][1] == body[i + 1];
          ColonAfterHost(sp, i);
        }
      }
    }
  }

  lemma ColonAfterHost(sp: Spelling, i: nat)
    requires sp.scheme.None? && (sp.port.Some? ==> InRange(sp.port.value)) && AllowedPath(sp.path)
    requires |sp.host| <= i < |Body(sp)| - 1 && Body(sp)[i] == ':'
    ensures Body(sp)[i + 1] != '/'
  {
    var n := |sp.host|;
    var tail := PortText(sp.port) + sp.path;
    assert Body(sp) == sp.host + tail;
    assert Body(sp)[i] == tail[i - n];
    if sp.port.Some? {
      assert forall j | 0 < j < |sp.port.value| + 1 :: tail[j] == sp.port.value[j - 1] && sp.port.value[j - 1] in sp.port.value;
      assert forall j | |sp.port.value| < j < |tail| :: tail[j] == sp.path[j - |sp.port.value| - 1];
    }
  }

  lemma SchemeIsFound(scheme: string, rest: string)
    requires AsciiLower(scheme) == "https"
    ensures SchemeEnd(scheme + ":" + rest, 0) == Some(5)
    ensures (scheme + ":" + rest)[..5] == scheme && (scheme + ":" + rest)[6..] == rest
  {
    var s := scheme + ":" + rest;
    SchemeIsUrlText(scheme);
    assert s[5] == ':' && forall i | 0 <= i < 5 :: s[i] == scheme[i];
    assert SchemeEnd(s, 5) == Some(5);
    assert SchemeEnd(s, 4) == Some(5);
    assert SchemeEnd(s, 3) == Some(5);
    assert SchemeEnd(s, 2) == Some(5);
    assert SchemeEnd(s, 1) == Some(5);
  }

  lemma RestDecides(authority: string, path: string)
    requires '/' !in authority && (path != "" ==> path[0] == '/')
    ensures CanonicalRest("//" + (authority + path)) == FromParts(authority, path)
  {
    hide FromParts;
    var rest, t := "//" + (authority + path), authority + path;
    assert rest[2..] == t && rest[..2] == "//";
    assert forall i | 0 <= i < |authority| :: t[i] == authority[i] && authority[i] in authority;
    assert path != "" ==> t[|authority|] == '/';
    assert IndexOf(t, '/') == |authority|;
    assert rest[2..2 + |authority|] == authority && rest[2 + |authority|..] == path;
  }

  /** What is left of a text between blanks once it is known to hold no odd characters. */
  lemma UrlDecides(left: string, body: string, right: string, scheme: string, rest: string)
    requires AllSpaces(left) && AllSpaces(right) && UrlText(body) && body != "" && AsciiLower(scheme) == "https"
    requires if Contains(body, "://") then body == scheme + ":" + rest else scheme == "https" && rest == "//" + body
    ensures NormalizeRelay(left + body + right) == CanonicalRest(rest)
  {
    hide TrimSpace, SchemeEnd, AsciiLower, CanonicalRest, Contains, UrlChar;
    UrlTextIsClean(body);
    TrimBlanks(left, body, right);
    SchemeIsFound(scheme, rest);
    SchemeIsUrlText(scheme);
    if !Contains(body, "://") {
      PlainPrefix(body);
      UrlTextIsClean(SCHEME + "://" + body);
      assert SCHEME + "://" + body == scheme + ":" + rest;
    }
  }

  lemma PlainPrefix(body: string)
    requires UrlText(body)
    ensures UrlText(SCHEME + "://" + body)
  {
    var word := "https://";
    assert forall i | 0 <= i < 8 :: UrlChar(word[i]);
  }

  /** Every spelling is accepted, as the origin that it spells. */
  lemma SpellingIsAccepted(sp: Spelling, name: string)
    requires Spells(sp, name)
    ensures NormalizeRelay(Spelled(sp)) == Some(Origin(name, sp.port))
  {
    hide Names, NameOf, Unescape, NormalizeRelay, FromParts, CanonicalRest, Contains, UrlText, Origin;
    NameIsDetermined(sp.host, name);
    BodyIsUrlText(sp, name);
    Separator(sp, name);
    var scheme := if sp.scheme.Some? then sp.scheme.value else "https";
    var authority := sp.host + PortText(sp.port);
    assert AsciiLower("https") == "https" by { LowerScheme(); }
    var rest := "//" + (authority + sp.path);
    if sp.scheme.Some? {
      assert Body(sp) == scheme + ":" + rest;
    } else {
      assert Body(sp) == authority + sp.path;
    }
    UrlDecides(sp.left, Body(sp), sp.right, scheme, rest);
    AuthorityHasNoSlash(sp, name);
    RestDecides(authority, sp.path);
    PartsDecide(sp.host, sp.port, sp.path);
  }

  lemma LowerScheme()
    ensures AsciiLower("https") == "https"
  {
    var word := "https";
    assert forall i | 0 <= i < |word| :: AsciiLowerChar(word[i]) == word[i];
  }

  lemma AuthorityHasNoSlash(sp: Spelling, name: string)
    requires Spells(sp, name)
    ensures '/' !in sp.host + PortText(sp.port) && ':' !in sp.host
  {
    hide Names, NameOf, Unescape;
    NameIsDetermined(sp.host, name);
    HostIsClean(sp.host);
    assert !HostChar('/') && !HostChar(':');
  }

  // ----- whatever is accepted is a spelling

  lemma AuthorityParts(authority: string, path: string) returns (host: string, port: Option<string>)
    requires FromParts(authority, path).Some?
    ensures authority == host + PortText(port) && AllowedPath(path)
    ensures if port.Some? then AllDigits(port.value) else ':' !in host
  {
    hide Unescape, CanonicalAuthority, SplitHostPort;
    var colon := AfterLast(authority, ':');
    if colon == 0 {
      host, port := authority, None;
      assert authority == host + "";
    } else {
      assert ValidOptionalPort(authority[colon - 1..]);
      assert authority[colon - 1..][1..] == authority[colon..];
      host, port := authority[..colon - 1], Some(authority[colon..]);
      assert authority == host + (":" + port.value);
    }
  }

  lemma RestParts(rest: string) returns (host: string, port: Option<string>, path: string)
    requires CanonicalRest(rest).Some?
    ensures rest == "//" + (host + PortText(port) + path)
    ensures Names(host, NameOf(host)) && (port.Some? ==> InRange(port.value)) && AllowedPath(path)
    ensures CanonicalRest(rest) == Some(Origin(NameOf(host), port))
  {
    hide FromParts, Names, NameOf, AllowedPath, InRange, Origin;
    var t := rest[2..];
    var slash := IndexOf(t, '/');
    path := t[slash..];
    assert rest[2..2 + slash] == t[..slash] && rest[2 + slash..] == path;
    host, port := AuthorityParts(t[..slash], path);
    PartsDecide(host, port, path);
    assert t == t[..slash] + path && rest == rest[..2] + t;
  }

  lemma AcceptedRest(raw: string) returns (scheme: Option<string>, rest: string)
    requires NormalizeRelay(raw).Some?
    ensures CanonicalRest(rest) == NormalizeRelay(raw)
    ensures if scheme.Some? then AsciiLower(scheme.value) == "https" && TrimSpace(raw) == scheme.value + ":" + rest
            else rest == "//" + TrimSpace(raw)
  {
    hide TrimSpace, SchemeEnd, CanonicalRest, Contains, IsControl, AsciiLower;
    var relay := TrimSpace(raw);
    if Contains(relay, "://") {
      var colon := SchemeEnd(relay, 0).value;
      scheme, rest := Some(relay[..colon]), relay[colon + 1..];
      assert relay == relay[..colon] + ":" + rest;
    } else {
      LowerScheme();
      SchemeIsFound("https", "//" + relay);
      assert SCHEME + "://" + relay == "https" + ":" + ("//" + relay);
      scheme, rest := None, "//" + relay;
    }
  }

  lemma Reassembled(relay: string, scheme: Option<string>, t: string)
    requires if scheme.Some? then relay == scheme.value + ":" + ("//" + t) else "//" + relay == "//" + t
    ensures relay == SchemeText(scheme) + t
  {
    if scheme.Some? {
      assert scheme.value + ":" + ("//" + t) == scheme.value + "://" + t;
    } else {
      assert relay == ("//" + relay)[2..] && t == ("//" + t)[2..];
    }
  }

  lemma AcceptedIsSpelled(raw: string) returns (sp: Spelling, name: string)
    requires NormalizeRelay(raw).Some?
    ensures raw == Spelled(sp) && Spells(sp, name) && NormalizeRelay(raw) == Some(Origin(name, sp.port))
  {
    hide NormalizeRelay, TrimSpace, CanonicalRest, Names, NameOf, InRange, Origin, AllSpaces, AsciiLower, PortText, SchemeText;
    var left, right := TrimParts(raw);
    var scheme, rest := AcceptedRest(raw);
    var host, port, path := RestParts(rest);
    Reassembled(TrimSpace(raw), scheme, host + PortText(port) + path);
    sp, name := Spelling(left, scheme, host, port, path, right), NameOf(host);
  }

  // ----- main results

  /** normalizeRelay accepts exactly the spellings of an origin, and gives that origin. */
  lemma AcceptsExactlySpellings(raw: string, url: string)
    ensures NormalizeRelay(raw) == Some(url) <==>
            exists sp, name :: raw == Spelled(sp) && Spells(sp, name) && url == Origin(name, sp.port)
  {
    hide NormalizeRelay, Names, Origin, AllSpaces, InRange, Body;
    if NormalizeRelay(raw) == Some(url) {
      var sp, name := AcceptedIsSpelled(raw);
    }
    if sp, name :| raw == Spelled(sp) && Spells(sp, name) && url == Origin(name, sp.port) {
      SpellingIsAccepted(sp, name);
    }
  }

  // ----- the spellings of a host, without encoding

  lemma LoweredSlice(s: string, i: nat, j: nat)
    requires i <= j <= |s|
    ensures AsciiLower(s)[i..j] == AsciiLower(s[i..j])
  {
    hide AsciiLower;
  }

  lemma SameIndex(a: string, b: string, c: char)
    requires |a| == |b| && forall i | 0 <= i < |a| :: a[i] == c <==> b[i] == c
    ensures IndexOf(a, c) == IndexOf(b, c)
  {
    hide IndexOf;
  }

  lemma LoweredDots(host: string)
    ensures IndexOf(AsciiLower(host), '.') == IndexOf(host, '.')
  {
    SameIndex(host, AsciiLower(host), '.');
  }

  lemma LoweredCut(host: string, k: nat)
    requires k <= |host|
    ensures AsciiLower(host)[..k] == AsciiLower(host[..k])
    ensures k < |host| ==> AsciiLower(host)[k + 1..] == AsciiLower(host[k + 1..])
  {
    hide AsciiLower;
    var lowered := AsciiLower(host);
    LoweredSlice(host, 0, k);
    assert lowered[0..k] == lowered[..k] && host[0..k] == host[..k];
    if k < |host| {
      LoweredSlice(host, k + 1, |host|);
      assert lowered[k + 1..|host|] == lowered[k + 1..] && host[k + 1..|host|] == host[k + 1..];
    }
  }

  lemma {:induction false} LoweredLabels(host: string)
    requires forall part | part in Split(host, '.') :: LabelOk(part)
    ensures forall part | part in Split(AsciiLower(host), '.') :: LabelOk(part)
    decreases |host|
  {
    hide LabelOk, AsciiLower, IndexOf;
    var k := IndexOf(host, '.');
    LoweredDots(host);
    LoweredCut(host, k);
    LoweredLabel(host[..k]);
    assert Split(host, '.')[0] in Split(host, '.');
    if k < |host| {
      assert forall part | part in Split(host[k + 1..], '.') :: part in Split(host, '.');
      LoweredLabels(host[k + 1..]);
    } else {
      assert host[..k] == host;
    }
  }

  lemma LoweredLabel(part: string)
    ensures LabelOk(part) ==> LabelOk(AsciiLower(part))
  {
    if LabelOk(part) {
      var lowered := AsciiLower(part);
      forall c | c in lowered ensures LabelChar(c) {
        var i :| 0 <= i < |lowered| && lowered[i] == c;
        assert part[i] in part;
      }
    }
  }

  lemma HostnameEnds(host: string)
    requires ValidHostname(host)
    ensures host != "" && host[|host| - 1] != '.' && Plain(host)
  {
    hide LabelOk, Split;
    HostnameChars(host);
  }

  lemma LoweredIsHostname(host: string)
    requires ValidHostname(host)
    ensures ValidHostname(AsciiLower(host))
  {
    hide LabelOk, Split;
    LoweredLabels(host);
    var lowered := AsciiLower(host);
    forall c | c in lowered ensures IsAscii(c) {
      var i :| 0 <= i < |lowered| && lowered[i] == c;
      assert host[i] in host;
    }
  }

  lemma LoweredHostname(host: string)
    requires ValidHostname(host)
    ensures ValidHostname(AsciiLower(host)) && ToLower(host) == AsciiLower(host) && Unescape(host) == Some(host)
  {
    LoweredIsHostname(host);
    HostnameEnds(host);
    UnescapePlain(host);
    LowersAsAscii(host);
    hide *;
  }

  lemma LowersAsAscii(host: string)
    requires forall c | c in host :: IsAscii(c)
    ensures ToLower(host) == AsciiLower(host)
  {
    assert forall i | 0 <= i < |host| :: IsAscii(host[i]);
  }

  /** A host name names itself in lower case, with or without a final dot. */
  lemma HostNamesItself(host: string)
    requires ValidHostname(host)
    ensures Names(host, AsciiLower(host)) && Names(host + ".", AsciiLower(host))
  {
    hide ValidHostname, Unescape;
    LoweredHostname(host);
    HostnameEnds(host);
    HostnameEnds(AsciiLower(host));
    assert Plain(host + ".");
    UnescapePlain(host + ".");
    var lowered := ToLower(host + ".");
    assert lowered[..|host|] == AsciiLower(host) && lowered[|host|] == '.';
  }

  /** Blanks around it, the scheme in any letter case or none, the host in any letter case with or without a final dot, the
      port with or without leading zeros, and an empty, root or relay path: all of it is one origin. */
  lemma SpellingsOfAHost(left: string, scheme: Option<string>, host: string, dot: bool, port: Option<string>, path: string, right: string)
    requires AllSpaces(left) && AllSpaces(right) && (scheme.Some? ==> AsciiLower(scheme.value) == "https")
    requires ValidHostname(host) && (port.Some? ==> InRange(port.value)) && AllowedPath(path)
    ensures NormalizeRelay(left + (SchemeText(scheme) + (host + (if dot then "." else "") + PortText(port) + path)) + right)
         == Some("https://" + AsciiLower(host) + if port.Some? && Value(port.value) != 443 then ":" + TrimZeros(port.value) else "")
  {
    hide NormalizeRelay, Names, ValidHostname;
    HostNamesItself(host);
    assert host + "" == host;
    var sp := Spelling(left, scheme, host + if dot then "." else "", port, path, right);
    SpellingIsAccepted(sp, AsciiLower(host));
  }

  // ----- refusals

  /** Another scheme is refused. */
  lemma OtherSchemesAreRefused(left: string, scheme: string, rest: string, right: string)
    requires AllSpaces(left) && AllSpaces(right) && Trimmed(scheme + "://" + rest)
    requires ':' !in scheme && AsciiLower(scheme) != "https"
    ensures NormalizeRelay(left + (scheme + "://" + rest) + right) == None
  {
    hide TrimSpace, CanonicalRest, IsControl, AsciiLower;
    var relay := scheme + "://" + rest;
    TrimBlanks(left, relay, right);
    assert relay[|scheme|..|scheme| + 3] == "://";
    assert OccursAt(relay, "://", |scheme|);
    ColonEndsScheme(relay, 0, |scheme|);
    assert relay[..|scheme|] == scheme;
  }

  lemma {:induction false} ColonEndsScheme(s: string, i: nat, colon: nat)
    requires i <= colon < |s| && s[colon] == ':' && forall j | 0 <= j < colon :: s[j] != ':'
    ensures SchemeEnd(s, i) == None || SchemeEnd(s, i) == Some(colon)
    decreases colon - i
  {
    if i < colon {
      ColonEndsScheme(s, i + 1, colon);
    }
  }

  lemma RefusedRest(left: string, body: string, right: string, scheme: string, rest: string)
    requires AllSpaces(left) && AllSpaces(right) && Trimmed(body) && AsciiLower(scheme) == "https"
    requires if Contains(body, "://") then body == scheme + ":" + rest else scheme == "https" && rest == "//" + body
    requires CanonicalRest(rest) == None
    ensures NormalizeRelay(left + body + right) == None
  {
    hide TrimSpace, SchemeEnd, AsciiLower, CanonicalRest, Contains, IsControl;
    TrimBlanks(left, body, right);
    SchemeIsFound(scheme, rest);
    SchemeIsUrlText(scheme);
    if !Contains(body, "://") {
      assert SCHEME + "://" + body == scheme + ":" + rest;
    }
  }

  /** Another path, and a port that is empty, not a number, or out of range, are refused with whatever else there is. */
  lemma OtherPathsAndPortsAreRefused(sp: Spelling)
    requires AllSpaces(sp.left) && AllSpaces(sp.right) && Trimmed(Body(sp))
    requires if sp.scheme.Some? then AsciiLower(sp.scheme.value) == "https" else !Contains(Body(sp), "://")
    requires '/' !in sp.host + PortText(sp.port) && (sp.path != "" ==> sp.path[0] == '/') && (sp.port.Some? ==> ':' !in sp.port.value)
    requires !AllowedPath(sp.path) || (sp.port.Some? && !InRange(sp.port.value))
    ensures NormalizeRelay(Spelled(sp)) == None
  {
    hide NormalizeRelay, CanonicalRest, Contains, FromParts, AsciiLower;
    var scheme := if sp.scheme.Some? then sp.scheme.value else "https";
    var authority := sp.host + PortText(sp.port);
    var rest := "//" + (authority + sp.path);
    LowerScheme();
    BadPartsAreRefused(sp.host, sp.port, sp.path);
    RestDecides(authority, sp.path);
    if sp.scheme.Some? {
      assert Body(sp) == scheme + ":" + rest;
      assert Body(sp)[|scheme|..|scheme| + 3] == "://";
      assert OccursAt(Body(sp), "://", |scheme|);
      ContainsAt(Body(sp), "://", |scheme|);
    } else {
      assert Body(sp) == authority + sp.path;
    }
    RefusedRest(sp.left, Body(sp), sp.right, scheme, rest);
  }

  lemma ContainsAt(s: string, word: string, i: nat)
    requires OccursAt(s, word, i)
    ensures Contains(s, word)
  {
  }

  lemma NoNumber(host: string, port: string, path: string)
    requires ':' !in port && !AllDigits(port)
    ensures FromParts(host + ":" + port, path) == None
  {
    hide Unescape, CanonicalAuthority, SplitHostPort;
    var a := host + ":" + port;
    assert a[|host|] == ':' && forall i | |host| < i < |a| :: a[i] == port[i - |host| - 1] && a[i] in port;
    assert AfterLast(a, ':') == |host| + 1;
    assert a[|host|..][1..] == port;
  }

  lemma BadPartsAreRefused(host: string, port: Option<string>, path: string)
    requires port.Some? ==> ':' !in port.value
    requires !AllowedPath(path) || (port.Some? && !InRange(port.value))
    ensures FromParts(host + PortText(port), path) == None
  {
    if AllowedPath(path) {
      hide FromParts, Names, NameOf, Origin, AllowedPath;
      if AllDigits(port.value) {
        PartsDecide(host, port, path);
      } else {
        NoNumber(host, port.value, path);
        assert host + PortText(port) == host + ":" + port.value;
      }
    } else {
      hide ParseHost, CanonicalAuthority, SplitHostPort;
    }
  }
}
