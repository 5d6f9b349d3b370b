/** discovery.go's candidate table: merging, selection, and what a refresh then adopts. */
module Discovery {
  import opened Options
  import opened ExposureCore
  import opened Normalization
  import ExposureObject

  /** One advertised relay. Times are instants; signed stands for a signature that recovers to the advertised
      address, which is not part of this model. */
  datatype Descriptor = Descriptor(address: string, signed: bool, issuedAt: Option<int>, expiresAt: Option<int>, supportsUDP: bool)

  datatype Entry = Entry(expiresAt: int, supportsUDP: bool)

  const FUTURE_TOLERANCE: int := 300_000_000_000

  /** verifyRelayDescriptor; None is the zero time. */
  predicate Verified(d: Descriptor, now: int) {
    && d.signed
    && d.expiresAt.Some? && d.expiresAt.value > now
    && (d.issuedAt.Some? ==> d.issuedAt.value <= now + FUTURE_TOLERANCE)
  }

  /** The descriptor contributes an entry for this URL. */
  predicate Advertises(d: Descriptor, now: int, url: string) {
    Verified(d, now) && NormalizeRelay(d.address) == Some(url)
  }

  function EntryOf(d: Descriptor): Entry
    requires d.expiresAt.Some?
  {
    Entry(d.expiresAt.value, d.supportsUDP)
  }

  /** The candidates of one document: for each URL the last descriptor that advertises it. */
  ghost predicate Collected(ds: seq<Descriptor>, now: int, entries: map<string, Entry>) {
    && (forall url :: url in entries <==> exists i :: 0 <= i < |ds| && Advertises(ds[i], now, url))
    && (forall url | url in entries ::
          exists i :: 0 <= i < |ds| && Advertises(ds[i], now, url) && entries[url] == EntryOf(ds[i])
                      && forall j | i < j < |ds| :: !Advertises(ds[j], now, url))
  }

  /** The candidate-map loop of fetch; None when a document has no usable descriptor. */
  method Collect(ds: seq<Descriptor>, now: int) returns (r: Option<map<string, Entry>>)
    ensures r.Some? ==> r.value != map[] && Collected(ds, now, r.value)
    ensures r.None? ==> Collected(ds, now, map[])
  {
    hide NormalizeRelay;
    var entries: map<string, Entry> := map[];
    for i := 0 to |ds|
      invariant Collected(ds[..i], now, entries)
    {
      var d := ds[i];
      ghost var before := entries;
      if Verified(d, now) {
        var url := NormalizeRelay(d.address);
        if url.Some? {
          entries := entries[url.value := EntryOf(d)];
        }
      }
      CollectOne(ds[..i], d, now, before, entries);
      assert ds[..i + 1] == ds[..i] + [d];
    }
    assert ds[..|ds|] == ds;
    return if entries == map[] then None else Some(entries);
  }

  lemma CollectOne(ds: seq<Descriptor>, d: Descriptor, now: int, entries: map<string, Entry>, after: map<string, Entry>)
    requires Collected(ds, now, entries)
    requires after == if Verified(d, now) && NormalizeRelay(d.address).Some?
                      then entries[NormalizeRelay(d.address).value := EntryOf(d)] else entries
    ensures Collected(ds + [d], now, after)
  {
    var all := ds + [d];
    hide NormalizeRelay;
    forall url ensures url in after <==> exists i :: 0 <= i < |all| && Advertises(all[i], now, url) {
      if Advertises(d, now, url) {
        assert Advertises(all[|ds|], now, url);
      } else if url in entries {
        var i :| 0 <= i < |ds| && Advertises(ds[i], now, url);
        assert Advertises(all[i], now, url);
      }
    }
    forall url | url in after
      ensures exists i :: 0 <= i < |all| && Advertises(all[i], now, url) && after[url] == EntryOf(all[i])
                          && forall j | i < j < |all| :: !Advertises(all[j], now, url)
    {
      if Advertises(d, now, url) {
        assert Advertises(all[|ds|], now, url);
      } else {
        var i :| 0 <= i < |ds| && Advertises(ds[i], now, url) && entries[url] == EntryOf(ds[i])
                 && forall j | i < j < |ds| :: !Advertises(ds[j], now, url);
        assert Advertises(all[i], now, url);
        assert forall j | i < j < |all| :: !Advertises(all[j], now, url);
      }
    }
  }

  // ----- the table

  datatype Table = Table(relays: map<string, int>, udpOnly: map<string, bool>, seen: set<string>)

  /** Both maps speak about the same relays, and each of them has been seen. */
  predicate Consistent(t: Table) { t.relays.Keys == t.udpOnly.Keys && t.relays.Keys <= t.seen }

  /** What the table knows about a URL. */
  function Known(t: Table, url: string): Option<Entry>
    requires Consistent(t)
  {
    if url in t.relays then Some(Entry(t.relays[url], t.udpOnly[url])) else None
  }

  /** The pure meaning of merge, one URL at a time: a new entry overrides the old one, and what is then expired goes. */
  function KnownAfter(known: Option<Entry>, update: Option<Entry>, now: int): Option<Entry> {
    var latest := if update.Some? then update else known;
    if latest.Some? && latest.value.expiresAt > now then latest else None
  }

  function Lookup(entries: map<string, Entry>, url: string): Option<Entry> {
    if url in entries then Some(entries[url]) else None
  }

  ghost predicate Merged(t: Table, now: int, entries: map<string, Entry>, t': Table) {
    && Consistent(t) && Consistent(t')
    && (forall url :: Known(t', url) == KnownAfter(Known(t, url), Lookup(entries, url), now))
    && t'.seen == t.seen + set url | url in entries && entries[url].expiresAt > now
  }

  /** The meaning fixes the result, so the order in which the maps are visited cannot matter. */
  lemma MergeIsDetermined(t: Table, now: int, entries: map<string, Entry>, a: Table, b: Table)
    requires Consistent(t) && Merged(t, now, entries, a) && Merged(t, now, entries, b)
    ensures a == b
  {
    assert forall url :: Known(a, url) == Known(b, url);
    assert forall url :: url in a.relays <==> Known(a, url).Some?;
    assert forall url :: url in b.relays <==> Known(b, url).Some?;
    assert a.relays == b.relays && a.udpOnly == b.udpOnly;
  }

  function Drop(t: Table, url: string): Table {
    t.(relays := t.relays - {url}, udpOnly := t.udpOnly - {url})
  }

  function Put(t: Table, url: string, e: Entry): Table {
    t.(relays := t.relays[url := e.expiresAt], udpOnly := t.udpOnly[url := e.supportsUDP], seen := t.seen + {url})
  }

  function FreshIn(entries: map<string, Entry>, done: set<string>, now: int): set<string>
    requires done <= entries.Keys
  {
    set url | url in done && entries[url].expiresAt > now
  }

  /** The first loop of merge once it has visited some of the entries. */
  ghost predicate Entered(t: Table, now: int, entries: map<string, Entry>, done: set<string>, t': Table)
    requires done <= entries.Keys
  {
    && Consistent(t) && Consistent(t')
    && (forall url :: Known(t', url) == if url in done then KnownAfter(None, Lookup(entries, url), now) else Known(t, url))
    && t'.seen == t.seen + FreshIn(entries, done, now)
  }

  lemma FreshGrows(entries: map<string, Entry>, done: set<string>, now: int, url: string)
    requires done <= entries.Keys && url in entries
    ensures FreshIn(entries, done + {url}, now) ==
            FreshIn(entries, done, now) + (if entries[url].expiresAt > now then {url} else {})
  {
  }

  lemma DropOne(t: Table, now: int, entries: map<string, Entry>, done: set<string>, t': Table, url: string)
    requires done <= entries.Keys && Entered(t, now, entries, done, t') && url in entries && entries[url].expiresAt <= now
    ensures Entered(t, now, entries, done + {url}, Drop(t', url))
  {
    FreshGrows(entries, done, now, url);
    hide FreshIn;
  }

  lemma PutOne(t: Table, now: int, entries: map<string, Entry>, done: set<string>, t': Table, url: string)
    requires done <= entries.Keys && Entered(t, now, entries, done, t') && url in entries && entries[url].expiresAt > now
    ensures Entered(t, now, entries, done + {url}, Put(t', url, entries[url]))
  {
    FreshGrows(entries, done, now, url);
    hide FreshIn;
  }

  lemma EnterOne(t: Table, now: int, entries: map<string, Entry>, done: set<string>, t': Table, url: string)
    requires done <= entries.Keys && Entered(t, now, entries, done, t') && url in entries
    ensures Entered(t, now, entries, done + {url}, if entries[url].expiresAt <= now then Drop(t', url) else Put(t', url, entries[url]))
  {
    if entries[url].expiresAt <= now {
      DropOne(t, now, entries, done, t', url);
    } else {
      PutOne(t, now, entries, done, t', url);
    }
    hide Entered, Drop, Put;
  }

  /** The second loop once only the stale candidates for deletion are left. */
  ghost predicate Swept(t: Table, now: int, left: set<string>, t': Table) {
    && Consistent(t) && Consistent(t') && t'.seen == t.seen && left <= t'.relays.Keys
    && forall url :: Known(t', url) == if url in left then Known(t, url) else KnownAfter(Known(t, url), None, now)
  }

  lemma SweepOne(t: Table, now: int, left: set<string>, t': Table, url: string)
    requires Swept(t, now, left, t') && url in left
    ensures url in t'.relays
    ensures Swept(t, now, left - {url}, if t'.relays[url] <= now then Drop(t', url) else t')
  {
    assert Known(t', url) == Known(t, url);
  }

  lemma SweepStarts(t: Table, now: int)
    requires Consistent(t)
    ensures Swept(t, now, t.relays.Keys, t)
  {
  }

  lemma EnterStarts(t: Table, now: int, entries: map<string, Entry>)
    requires Consistent(t)
    ensures Entered(t, now, entries, {}, t)
  {
  }

  lemma BothLoops(t: Table, now: int, entries: map<string, Entry>, mid: Table, t': Table)
    requires Entered(t, now, entries, entries.Keys, mid) && Swept(mid, now, {}, t')
    ensures Merged(t, now, entries, t')
  {
  }

  // ----- selection

  /** The order of sort.Strings: byte by byte, which for UTF-8 is character by character. */
  predicate Less(a: string, b: string) {
    b != "" && (a == "" || a[0] < b[0] || (a[0] == b[0] && Less(a[1..], b[1..])))
  }

  lemma {:induction false} LessIsTotal(a: string, b: string)
    ensures a == b || Less(a, b) || Less(b, a)
    ensures !(Less(a, b) && Less(b, a)) && !Less(a, a)
  {
    if a != "" && b != "" {
      LessIsTotal(a[1..], b[1..]);
      LessIsTotal(a[1..], a[1..]);
      assert a == [a[0]] + a[1..] && b == [b[0]] + b[1..];
    } else if a != "" {
      LessIsTotal(a[1..], "");
    }
  }

  lemma {:induction false} LessIsTransitive(a: string, b: string, c: string)
    requires Less(a, b) && Less(b, c)
    ensures Less(a, c)
  {
    if a != "" && a[0] == b[0] == c[0] {
      LessIsTransitive(a[1..], b[1..], c[1..]);
    }
  }

  /** The order looks at the first difference: there the smaller text has ended or has the smaller character. */
  lemma {:induction false} LessIsFirstDifference(a: string, b: string)
    ensures Less(a, b) <==> exists k :: 0 <= k <= |a| && k < |b| && a[..k] == b[..k] && (k == |a| || a[k] < b[k])
  {
    if Less(a, b) {
      var k := FirstDifference(a, b);
    }
    if k :| 0 <= k <= |a| && k < |b| && a[..k] == b[..k] && (k == |a| || a[k] < b[k]) {
      DifferenceIsLess(a, b, k);
    }
  }

  lemma {:induction false} FirstDifference(a: string, b: string) returns (k: nat)
    requires Less(a, b)
    ensures k <= |a| && k < |b| && a[..k] == b[..k] && (k == |a| || a[k] < b[k])
  {
    if a == "" || a[0] < b[0] {
      k := 0;
    } else {
      var rest := FirstDifference(a[1..], b[1..]);
      k := rest + 1;
      assert a[..k] == [a[0]] + a[1..][..rest] && b[..k] == [b[0]] + b[1..][..rest];
    }
  }

  lemma {:induction false} DifferenceIsLess(a: string, b: string, k: nat)
    requires k <= |a| && k < |b| && a[..k] == b[..k] && (k == |a| || a[k] < b[k])
    ensures Less(a, b)
    decreases k
  {
    if k > 0 {
      assert a[0] == a[..k][0] && b[0] == b[..k][0];
      assert a[1..][..k - 1] == a[..k][1..] && b[1..][..k - 1] == b[..k][1..];
      DifferenceIsLess(a[1..], b[1..], k - 1);
    }
  }

  predicate StrictlySorted(s: seq<string>) { forall i, j | 0 <= i < j < |s| :: Less(s[i], s[j]) }

  /** Inserting into a strictly sorted sequence. */
  function Insert(s: seq<string>, x: string): (r: seq<string>) {
    if s == [] || Less(x, s[0]) then [x] + s else [s[0]] + Insert(s[1..], x)
  }

  lemma {:induction false} InsertSorted(s: seq<string>, x: string)
    requires StrictlySorted(s) && x !in s
    ensures StrictlySorted(Insert(s, x)) && forall y :: y in Insert(s, x) <==> y == x || y in s
  {
    if s != [] {
      LessIsTotal(x, s[0]);
      if Less(x, s[0]) {
        forall j | 0 < j < |s| ensures Less(x, s[j]) { LessIsTransitive(x, s[0], s[j]); }
      } else {
        InsertSorted(s[1..], x);
        var rest := Insert(s[1..], x);
        forall j | 0 <= j < |rest| ensures Less(s[0], rest[j]) {
          assert rest[j] in rest;
        }
      }
    }
  }

  lemma HasMember(s: seq<string>)
    requires s != []
    ensures exists x :: x in s
  {
    assert s[0] in s;
  }

  /** There is only one way to list a set in strict order. */
  lemma {:induction false} SortedIsUnique(a: seq<string>, b: seq<string>)
    requires StrictlySorted(a) && StrictlySorted(b) && forall x :: x in a <==> x in b
    ensures a == b
  {
    if a == [] {
      if b != [] {
        HasMember(b);
        assert false;
      }
    } else {
      assert a[0] in a && a[0] in b;
      assert b[0] in b && b[0] in a;
      LessIsTotal(a[0], b[0]);
      assert a[0] == b[0];
      forall x ensures x in a[1..] <==> x in b[1..] {
        LessIsTotal(a[0], a[0]);
        assert x in a <==> x == a[0] || x in a[1..];
        assert x in b <==> x == b[0] || x in b[1..];
        assert a[0] !in a[1..] && b[0] !in b[1..];
      }
      SortedIsUnique(a[1..], b[1..]);
      assert a == [a[0]] + a[1..] && b == [b[0]] + b[1..];
    }
  }

  predicate Suitable(t: Table, now: int, active: set<string>, requireUDP: bool, url: string)
    requires Consistent(t)
  {
    url in t.relays && t.relays[url] > now && url !in active && (requireUDP ==> t.udpOnly[url])
  }

  /** selected lists exactly the suitable URLs, in strict order. */
  ghost predicate Selects(t: Table, now: int, active: set<string>, requireUDP: bool, selected: seq<string>)
    requires Consistent(t)
  {
    StrictlySorted(selected) && forall url :: url in selected <==> Suitable(t, now, active, requireUDP, url)
  }

  class DiscoveryCandidates {
    var relays: map<string, int>
    var udpOnly: map<string, bool>
    var seen: set<string>

    ghost function View(): Table
      reads this
    {
      Table(relays, udpOnly, seen)
    }

    constructor ()
      ensures View() == Table(map[], map[], {})
    {
      relays, udpOnly, seen := map[], map[], {};
    }

    /** The first loop of merge, visiting the entries in any order. */
    method EnterAll(now: int, entries: map<string, Entry>)
      requires Consistent(View())
      modifies this
      ensures Entered(old(View()), now, entries, entries.Keys, View())
    {
      ghost var t := View();
      var pending := entries.Keys;
      EnterStarts(t, now, entries);
      hide Entered, Consistent, Known, KnownAfter, FreshIn, Lookup, NormalizeRelay;
      while pending != {}
        invariant pending <= entries.Keys && Entered(t, now, entries, entries.Keys - pending, View())
        decreases |pending|
      {
        var url :| url in pending;
        EnterOne(t, now, entries, entries.Keys - pending, View(), url);
        assert entries.Keys - pending + {url} == entries.Keys - (pending - {url});
        pending := pending - {url};
        var entry := entries[url];
        if entry.expiresAt <= now {
          relays := relays - {url};
          udpOnly := udpOnly - {url};
        } else {
          relays := relays[url := entry.expiresAt];
          udpOnly := udpOnly[url := entry.supportsUDP];
          seen := seen + {url};
        }
      }
      assert entries.Keys - pending == entries.Keys;
    }

    /** The second loop, deleting while it goes. */
    method DropExpired(now: int)
      requires Consistent(View())
      modifies `relays, `udpOnly
      ensures Swept(old(View()), now, {}, View())
    {
      ghost var t := View();
      var left := relays.Keys;
      SweepStarts(t, now);
      hide Swept, Consistent, Known, KnownAfter;
      while left != {}
        invariant Swept(t, now, left, View())
        decreases |left|
      {
        var url :| url in left;
        SweepOne(t, now, left, View(), url);
        left := left - {url};
        if relays[url] <= now {
          relays := relays - {url};
          udpOnly := udpOnly - {url};
        }
      }
    }

    method Merge(now: int, entries: map<string, Entry>)
      requires Consistent(View())
      modifies this
      ensures Merged(old(View()), now, entries, View())
    {
      EnterAll(now, entries);
      ghost var entered := View();
      DropExpired(now);
      BothLoops(old(View()), now, entries, entered, View());
    }

    method SelectRelays(now: int, active: set<string>, requireUDP: bool) returns (selected: seq<string>)
      requires Consistent(View())
      ensures Selects(View(), now, active, requireUDP, selected)
    {
      selected := [];
      var pending := relays.Keys;
      while pending != {}
        invariant pending <= relays.Keys && StrictlySorted(selected)
        invariant forall url :: url in selected <==> url !in pending && Suitable(View(), now, active, requireUDP, url)
        decreases |pending|
      {
        var url :| url in pending;
        pending := pending - {url};
        if relays[url] > now && url !in active && (!requireUDP || udpOnly[url]) {
          InsertSorted(selected, url);
          selected := Insert(selected, url);
        }
      }
    }
  }

  /** The list of seeds that a refresh polls. */
  method DiscoverySeeds(active: set<string>) returns (seeds: seq<string>)
    ensures StrictlySorted(seeds) && forall url :: url in seeds <==> url in active
  {
    seeds := [];
    var pending := active;
    while pending != {}
      invariant pending <= active && StrictlySorted(seeds)
      invariant forall url :: url in seeds <==> url in active - pending
      decreases |pending|
    {
      var url :| url in pending;
      pending := pending - {url};
      InsertSorted(seeds, url);
      seeds := Insert(seeds, url);
    }
  }

  // ----- main results

  /** Selection is a function of the table, whatever the order of the map. */
  lemma SelectionIsDetermined(t: Table, now: int, active: set<string>, requireUDP: bool, a: seq<string>, b: seq<string>)
    requires Consistent(t) && Selects(t, now, active, requireUDP, a) && Selects(t, now, active, requireUDP, b)
    ensures a == b
  {
    SortedIsUnique(a, b);
  }

  /** A document never makes the table forget a relay that is still fresh: what fetch collects is itself fresh. */
  lemma CollectedIsFresh(ds: seq<Descriptor>, now: int, entries: map<string, Entry>, t: Table, t': Table, url: string)
    requires Collected(ds, now, entries) && Consistent(t) && Merged(t, now, entries, t')
    ensures Known(t, url).Some? && Known(t, url).value.expiresAt > now ==> Known(t', url).Some?
    ensures url in entries ==> Known(t', url) == Some(entries[url])
  {
    hide NormalizeRelay;
  }

  // ----- who vouches for a relay

  /** One fetched document with the time of its refresh. */
  datatype Document = Document(now: int, descriptors: seq<Descriptor>)

  /** Some descriptor vouches for what the table says of this relay: it is signed, was in force and not issued more than
      five minutes ahead when its document was fetched, and spells this URL. */
  ghost predicate VouchedFor(docs: seq<Document>, url: string, e: Entry) {
    exists doc, d | doc in docs && d in doc.descriptors ::
      && d.signed && NormalizeRelay(d.address) == Some(url)
      && d.expiresAt == Some(e.expiresAt) && e.expiresAt > doc.now && d.supportsUDP == e.supportsUDP
      && (d.issuedAt.Some? ==> d.issuedAt.value - doc.now <= 300_000_000_000)
  }

  ghost predicate AllVouchedFor(docs: seq<Document>, t: Table)
    requires Consistent(t)
  {
    forall url | Known(t, url).Some? :: VouchedFor(docs, url, Known(t, url).value)
  }

  /** The documents of a run of refreshes, and the table from the empty one on. */
  ghost predicate Refreshes(docs: seq<Document>, entries: seq<map<string, Entry>>, ts: seq<Table>) {
    && |entries| == |docs| && |ts| == |docs| + 1 && ts[0] == Table(map[], map[], {})
    && (forall i | 0 <= i < |ts| :: Consistent(ts[i]))
    && (forall i | 0 <= i < |docs| ::
          Collected(docs[i].descriptors, docs[i].now, entries[i]) && Merged(ts[i], docs[i].now, entries[i], ts[i + 1]))
  }

  lemma CollectedIsVouchedFor(docs: seq<Document>, doc: Document, entries: map<string, Entry>, url: string)
    requires Collected(doc.descriptors, doc.now, entries) && url in entries && doc in docs
    ensures VouchedFor(docs, url, entries[url])
  {
    hide NormalizeRelay;
    var i :| 0 <= i < |doc.descriptors| && Advertises(doc.descriptors[i], doc.now, url) && entries[url] == EntryOf(doc.descriptors[i]);
    assert doc.descriptors[i] in doc.descriptors;
  }

  /** And nothing that deserves it is left out. */
  lemma GoodDescriptorIsCollected(ds: seq<Descriptor>, now: int, entries: map<string, Entry>, d: Descriptor, url: string)
    requires Collected(ds, now, entries) && d in ds
    requires d.signed && d.expiresAt.Some? && d.expiresAt.value > now
    requires d.issuedAt.Some? ==> d.issuedAt.value - now <= 300_000_000_000
    requires NormalizeRelay(d.address) == Some(url)
    ensures url in entries
  {
    hide NormalizeRelay;
    var i :| 0 <= i < |ds| && ds[i] == d;
    assert Advertises(ds[i], now, url);
  }

  lemma MoreDocuments(docs: seq<Document>, more: seq<Document>, url: string, e: Entry)
    requires VouchedFor(docs, url, e) && forall doc | doc in docs :: doc in more
    ensures VouchedFor(more, url, e)
  {
    hide NormalizeRelay;
  }

  lemma {:induction false} TableIsVouchedFor(docs: seq<Document>, entries: seq<map<string, Entry>>, ts: seq<Table>, i: nat)
    requires Refreshes(docs, entries, ts) && i < |ts|
    ensures AllVouchedFor(docs[..i], ts[i])
  {
    if i > 0 {
      TableIsVouchedFor(docs, entries, ts, i - 1);
      var doc := docs[i - 1];
      assert docs[..i] == docs[..i - 1] + [doc];
      forall url | Known(ts[i], url).Some? ensures VouchedFor(docs[..i], url, Known(ts[i], url).value) {
        if url in entries[i - 1] {
          CollectedIsVouchedFor(docs[..i], doc, entries[i - 1], url);
        } else {
          MoreDocuments(docs[..i - 1], docs[..i], url, Known(ts[i - 1], url).value);
        }
      }
      hide NormalizeRelay, VouchedFor, Collected;
    }
  }

  /** Over any number of refreshes, exactly those relays are selected that are known, unexpired, not active and fit for UDP
      where that is required; and for each some signed descriptor vouches, for its expiry and for its UDP backhaul. */
  lemma SelectedIsVouchedFor(docs: seq<Document>, entries: seq<map<string, Entry>>, ts: seq<Table>, i: nat, now: int,
                             active: set<string>, requireUDP: bool, selected: seq<string>, url: string)
    requires Refreshes(docs, entries, ts) && i < |ts| && Selects(ts[i], now, active, requireUDP, selected)
    ensures url in selected <==>
              && Known(ts[i], url).Some? && Known(ts[i], url).value.expiresAt > now
              && url !in active && (requireUDP ==> Known(ts[i], url).value.supportsUDP)
    ensures url in selected ==> VouchedFor(docs[..i], url, Known(ts[i], url).value)
  {
    TableIsVouchedFor(docs, entries, ts, i);
    hide NormalizeRelay, VouchedFor;
  }

  // ----- canonical forms

  /** Every relay in the table is in canonical form, and merging keeps it so. */
  predicate AllCanonical(t: Table) { forall url | url in t.relays :: NormalizeRelay(url) == Some(url) }

  lemma MergeKeepsCanonical(ds: seq<Descriptor>, now: int, entries: map<string, Entry>, t: Table, t': Table)
    requires Collected(ds, now, entries) && Consistent(t) && AllCanonical(t) && Merged(t, now, entries, t')
    ensures AllCanonical(t')
  {
    hide NormalizeRelay;
    forall url | url in t'.relays ensures NormalizeRelay(url) == Some(url) {
      assert Known(t', url).Some?;
      if url in entries {
        var i :| 0 <= i < |ds| && Advertises(ds[i], now, url);
        NormalizationIsIdempotent(ds[i].address);
      }
    }
  }

  /** What one refresh adopts, from the candidates to the membership: absent closing and refused constructors it adds
      exactly the first relays, in sorted order, of the fresh, unknown and suitable ones, as far as the cap allows. */
  lemma RefreshAdoptsTheFirst(c: Core, maxDiscovered: nat, t: Table, now: int, requireUDP: bool, selected: seq<string>)
    requires Accounted(c, maxDiscovered) && !c.closing && Consistent(t)
    requires Selects(t, now, ActiveRelays(c), requireUDP, selected)
    ensures c.discoveredCount <= maxDiscovered
    ensures var added := ExposureObject.Prefix(selected, maxDiscovered - c.discoveredCount);
            && ExposureObject.Adopted(c, added, ExposureObject.AdoptAll(c, false, maxDiscovered, selected, {}))
            && StrictlySorted(added)
            && forall url | url in added :: Suitable(t, now, ActiveRelays(c), requireUDP, url)
  {
    forall i, j | 0 <= i < j < |selected| ensures selected[i] != selected[j] {
      LessIsTotal(selected[i], selected[i]);
    }
    assert forall i | 0 <= i < |selected| :: selected[i] in selected;
    hide Accounted, ActiveRelays;
    ExposureObject.AdoptionAddsThePrefix(c, maxDiscovered, selected);
  }

  /** Discovery cannot adopt a respelling of a relay that is a member already: whatever a descriptor's address is, if it
      normalizes to what a configured relay normalizes to, selection leaves it out. */
  lemma RespellingIsNeverSelected(c: Core, t: Table, now: int, requireUDP: bool, selected: seq<string>,
                                  configured: seq<string>, raw: string, d: Descriptor, url: string)
    requires Consistent(t) && Selects(t, now, ActiveRelays(c), requireUDP, selected)
    requires Normalized(configured).Some? && forall member | member in Normalized(configured).value :: member in ActiveRelays(c)
    requires raw in configured && NormalizeRelay(raw) == NormalizeRelay(d.address) && Advertises(d, now, url)
    ensures url !in selected
  {
    ListContract(configured);
    hide NormalizeRelay, ActiveRelays;
    assert NormalizeRelay(raw) == Some(url);
  }
}
