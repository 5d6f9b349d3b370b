/** The Exposure object itself: its fields and the methods that update them in place. Each lock section is proved
    against the function of ExposureCore that the interleaved model takes as one step. */
module ExposureObject {
  import opened ExposureCore
  import opened ExposureThreads

  /** addRelay for each candidate in turn; a refused candidate is one newRelaySupervisor does not accept. */
  function AdoptAll(c: Core, ctxDone: bool, maxDiscovered: nat, urls: seq<string>, refused: set<string>): Core
    decreases |urls|
  {
    if urls == [] then c
    else
      var c' := if urls[0] in refused then c else AddRelay(c, ctxDone, maxDiscovered, urls[0], false);
      AdoptAll(c', ctxDone, maxDiscovered, urls[1..], refused)
  }

  /** publishUpdate carried through to its return. */
  function FinishPublish(u: Updates, capacity: nat, p: Publishing): Updates
    decreases match p.stage case FirstSend => 2 case DropOldest => 1 case SecondSend => 0
  {
    var (u', more) := PublishStep(u, capacity, p);
    if more.Some? then FinishPublish(u', capacity, more.value) else u'
  }

  /** The first n elements of a sequence, or all of it. */
  function Prefix(urls: seq<string>, n: nat): seq<string> {
    if n < |urls| then urls[..n] else urls
  }

  ghost function Elements<T>(s: seq<T>): set<T> { set x | x in s }

  /** What selectRelays hands to adoption: distinct URLs, none of them a member or rejected. */
  ghost predicate Candidates(c: Core, urls: seq<string>) {
    && (forall i, j | 0 <= i < j < |urls| :: urls[i] != urls[j])
    && (forall i | 0 <= i < |urls| :: urls[i] !in ActiveRelays(c))
  }

  /** The relation between the core before adoption and the core after adding exactly these URLs. */
  ghost predicate Adopted(c: Core, added: seq<string>, c': Core) {
    && c'.statuses == c.statuses + (map url | url in Elements(added) :: NewStatus(url))
    && c'.discoveredCount == c.discoveredCount + |added|
    && (if added == [] then c' == c else !c'.signalClosed && c.epoch < c'.epoch)
  }

  lemma AddOneKeepsCandidates(c: Core, maxDiscovered: nat, urls: seq<string>)
    requires Accounted(c, maxDiscovered) && !c.closing && Candidates(c, urls)
    requires c.discoveredCount < maxDiscovered && urls != []
    ensures var c' := AddRelay(c, false, maxDiscovered, urls[0], false);
            && Accounted(c', maxDiscovered) && !c'.closing && Candidates(c', urls[1..])
            && c'.discoveredCount == c.discoveredCount + 1
  {
    AddRelayAccounted(c, false, maxDiscovered, urls[0], false);
    hide Accounted;
    assert ActiveRelays(AddRelay(c, false, maxDiscovered, urls[0], false)) == ActiveRelays(c) + {urls[0]};
    hide AddRelay, ActiveRelays;
  }

  lemma AddOneAdopts(c: Core, maxDiscovered: nat, urls: seq<string>)
    requires !c.closing && c.discoveredCount < maxDiscovered && urls != [] && Candidates(c, urls)
    ensures Adopted(c, [urls[0]], AddRelay(c, false, maxDiscovered, urls[0], false))
  {
    assert Elements([urls[0]]) == {urls[0]};
  }

  lemma AdoptAllTail(c: Core, maxDiscovered: nat, urls: seq<string>, n: nat)
    requires urls != [] && n > 0
    ensures Prefix(urls, n) == [urls[0]] + Prefix(urls[1..], n - 1)
    ensures AdoptAll(c, false, maxDiscovered, urls, {})
         == AdoptAll(AddRelay(c, false, maxDiscovered, urls[0], false), false, maxDiscovered, urls[1..], {})
  {
    hide AddRelay;
  }

  lemma AdoptedThenAdopted(c: Core, url: string, c1: Core, rest: seq<string>, c2: Core)
    requires Adopted(c, [url], c1) && Adopted(c1, rest, c2)
    ensures Adopted(c, [url] + rest, c2)
  {
    assert Elements([url] + rest) == Elements([url]) + Elements(rest);
  }

  /** Absent closing and refusals, adoption adds exactly the longest prefix that the cap leaves room for. */
  lemma {:induction false} AdoptionAddsThePrefix(c: Core, maxDiscovered: nat, urls: seq<string>)
    requires Accounted(c, maxDiscovered) && !c.closing && Candidates(c, urls)
    ensures c.discoveredCount <= maxDiscovered
    ensures Adopted(c, Prefix(urls, maxDiscovered - c.discoveredCount), AdoptAll(c, false, maxDiscovered, urls, {}))
    decreases |urls|
  {
    assert c.discoveredCount <= maxDiscovered;
    hide *;
    if c.discoveredCount == maxDiscovered || urls == [] {
      AdoptsNothing(c, maxDiscovered, urls);
    } else {
      var first := AddRelay(c, false, maxDiscovered, urls[0], false);
      AdoptAllTail(c, maxDiscovered, urls, maxDiscovered - c.discoveredCount);
      AddOneKeepsCandidates(c, maxDiscovered, urls);
      AddOneAdopts(c, maxDiscovered, urls);
      AdoptionAddsThePrefix(first, maxDiscovered, urls[1..]);
      AdoptedThenAdopted(c, urls[0], first, Prefix(urls[1..], maxDiscovered - first.discoveredCount),
                         AdoptAll(c, false, maxDiscovered, urls, {}));
    }
  }

  lemma AdoptsNothing(c: Core, maxDiscovered: nat, urls: seq<string>)
    requires c.discoveredCount == maxDiscovered || (urls == [] && c.discoveredCount <= maxDiscovered)
    ensures Adopted(c, Prefix(urls, maxDiscovered - c.discoveredCount), AdoptAll(c, false, maxDiscovered, urls, {}))
  {
    FullAdoptsNothing(c, maxDiscovered, urls);
    assert c.statuses + (map url | url in Elements<string>([]) :: NewStatus(url)) == c.statuses;
  }

  lemma {:induction false} FullAdoptsNothing(c: Core, maxDiscovered: nat, urls: seq<string>)
    requires c.discoveredCount == maxDiscovered || urls == []
    ensures AdoptAll(c, false, maxDiscovered, urls, {}) == c
    decreases |urls|
  {
    if urls != [] {
      FullAdoptsNothing(c, maxDiscovered, urls[1..]);
    }
  }

  /** publishUpdate with nobody else on the channel: it returns, stays within the capacity, and its status is the
      newest element; what it drops is the oldest. */
  lemma PublishKeepsTheNewest(u: Updates, capacity: nat, status: RelayStatus)
    requires 0 < capacity && |u.items| <= capacity && !u.closed
    ensures var u' := FinishPublish(u, capacity, StartPublish(status));
            && |u'.items| <= capacity
            && u' == u.(items := (if |u.items| < capacity then u.items else u.items[1..]) + [status])
  {
    var p := StartPublish(status);
    if |u.items| == capacity {
      var dropped := u.(items := u.items[1..]);
      assert FinishPublish(dropped, capacity, p.(stage := SecondSend)) == dropped.(items := dropped.items + [status]);
      assert FinishPublish(u, capacity, p.(stage := DropOldest)) == FinishPublish(dropped, capacity, p.(stage := SecondSend));
    }
  }

  /** This status has become the newest element; at most the oldest one has made room for it. */
  ghost predicate Announced(u: Updates, capacity: nat, status: RelayStatus, u': Updates)
    requires capacity > 0
  {
    if u.closed then u'.closed && u'.items == u.items
    else u' == u.(items := (if |u.items| < capacity then u.items else u.items[1..]) + [status])
  }

  /** A relay whose status may still change: a member that has not failed, of an exposure that is live. */
  predicate Alive(statuses: map<string, RelayStatus>, closing: bool, ctxDone: bool, url: string) {
    url in statuses && statuses[url].state != Failed && !closing && !ctxDone
  }

  /** What addRelay's lock section does before it reopens the signal and wakes waiters. */
  lemma GrowThenAnnounce(c: Core, ctxDone: bool, maxDiscovered: nat, url: string, explicit: bool, grown: Core)
    requires CanAdd(c, ctxDone, maxDiscovered, url, explicit)
    requires grown == c.(statuses := c.statuses[url := RelayStatus(url, "", "", Connecting, "")],
                         supervisors := c.supervisors + {url}, relayCount := c.relayCount + 1,
                         discoveredCount := c.discoveredCount + (if explicit then 0 else 1))
    ensures ExposureCore.AddRelay(c, ctxDone, maxDiscovered, url, explicit) == NotifyStateChanged(RearmAllFailed(grown))
  {
  }

  class Exposure {
    const maxDiscoveredRelays: nat
    const discoveryEnabled: bool
    const updatesCapacity: nat

    var ctxDone: bool
    var statuses: map<string, RelayStatus>
    var relaySupervisors: set<string>
    var relayCount: nat
    var failedCount: nat
    var discoveredCount: nat
    var rejectedRelays: set<string>
    var closing: bool
    var allFailed: nat
    var allFailedClosed: bool
    var failedOnce: bool
    var stateChanged: nat
    var updates: Updates
    var conns: Conns

    ghost function View(): Core
      reads this
    {
      Core(statuses, relaySupervisors, relayCount, failedCount, discoveredCount, rejectedRelays, closing,
           allFailed, allFailedClosed, failedOnce, stateChanged)
    }

    ghost predicate Valid()
      reads this
    {
      Accounted(View(), maxDiscoveredRelays) && |updates.items| <= updatesCapacity && updatesCapacity > 0
    }

    constructor (explicitCount: nat, maxDiscovered: nat, discovery: bool)
      requires explicitCount > 0
      ensures Valid() && View() == EmptyCore() && !ctxDone
      ensures maxDiscoveredRelays == maxDiscovered && discoveryEnabled == discovery
      ensures updatesCapacity == 4 * (explicitCount + maxDiscovered)
      ensures conns == Conns([], {}, {}, {}) && updates == Updates([], false, false)
    {
      maxDiscoveredRelays, discoveryEnabled := maxDiscovered, discovery;
      updatesCapacity := 4 * (explicitCount + maxDiscovered);
      ctxDone, closing := false, false;
      statuses, relaySupervisors, rejectedRelays := map[], {}, {};
      relayCount, failedCount, discoveredCount := 0, 0, 0;
      allFailed, allFailedClosed, failedOnce, stateChanged := 0, false, false, 0;
      updates, conns := Updates([], false, false), Conns([], {}, {}, {});
      new;
      assert FailedUrls(statuses) == {};
    }

    method NotifyStateChangedLocked()
      modifies `stateChanged
      ensures View() == NotifyStateChanged(old(View()))
    {
      stateChanged := stateChanged + 1;
    }

    method RearmAllFailedLocked()
      modifies `allFailed, `allFailedClosed, `failedOnce
      ensures View() == RearmAllFailed(old(View()))
    {
      if allFailedClosed {
        allFailed, allFailedClosed := allFailed + 1, false;
        failedOnce := false;
      }
    }

    /** The lock section of addRelay. */
    method AddLocked(url: string, explicit: bool) returns (added: bool)
      modifies this
      ensures View() == ExposureCore.AddRelay(old(View()), ctxDone, maxDiscoveredRelays, url, explicit)
      ensures added == CanAdd(old(View()), ctxDone, maxDiscoveredRelays, url, explicit)
      ensures ctxDone == old(ctxDone) && conns == old(conns) && updates == old(updates)
    {
      if closing || ctxDone || url in statuses || url in rejectedRelays
         || (!explicit && discoveredCount >= maxDiscoveredRelays)
      {
        return false;
      }
      statuses := statuses[url := RelayStatus(url, "", "", Connecting, "")];
      relaySupervisors := relaySupervisors + {url};
      relayCount := relayCount + 1;
      discoveredCount := discoveredCount + (if explicit then 0 else 1);
      ghost var grown := View();
      GrowThenAnnounce(old(View()), ctxDone, maxDiscoveredRelays, url, explicit, grown);
      hide *;
      RearmAllFailedLocked();
      NotifyStateChangedLocked();
      return true;
    }

    /** constructible is whether newRelaySupervisor accepts the URL. */
    method AddRelay(url: string, explicit: bool, constructible: bool) returns (failed: bool)
      requires Valid()
      modifies this
      ensures Valid() && failed == !constructible
      ensures View() == if constructible
                        then ExposureCore.AddRelay(old(View()), ctxDone, maxDiscoveredRelays, url, explicit)
                        else old(View())
      ensures ctxDone == old(ctxDone) && conns == old(conns)
      ensures updates == if constructible && CanAdd(old(View()), ctxDone, maxDiscoveredRelays, url, explicit)
                         then FinishPublish(old(updates), updatesCapacity, StartPublish(NewStatus(url)))
                         else old(updates)
      // a URL that is new, constructible and within the cap joins as connecting, is announced and reopens the signal
      ensures var joins := constructible && url !in old(statuses) && url !in old(rejectedRelays) && !old(closing) && !ctxDone
                           && (explicit || old(discoveredCount) < maxDiscoveredRelays);
              if joins then
                && statuses == old(statuses)[url := RelayStatus(url, "", "", Connecting, "")]
                && relayCount == old(relayCount) + 1 && failedCount == old(failedCount)
                && discoveredCount == old(discoveredCount) + (if explicit then 0 else 1)
                && !allFailedClosed && !failedOnce && old(stateChanged) < stateChanged
                && Announced(old(updates), updatesCapacity, statuses[url], updates)
              else View() == old(View()) && updates == old(updates)
    {
      if !constructible {
        return true;
      }
      AddRelayAccounted(View(), ctxDone, maxDiscoveredRelays, url, explicit);
      hide Accounted, FinishPublish, ExposureCore.AddRelay;
      var added := AddLocked(url, explicit);
      if added {
        PublishUpdate(RelayStatus(url, "", "", Connecting, ""));
      }
      return false;
    }

    method PublishUpdate(status: RelayStatus)
      requires |updates.items| <= updatesCapacity && updatesCapacity > 0
      modifies `updates
      ensures updates == FinishPublish(old(updates), updatesCapacity, StartPublish(status))
      ensures |updates.items| <= updatesCapacity
      ensures Announced(old(updates), updatesCapacity, status, updates)
    {
      if updates.closed {
        updates := updates.(sentOnClosed := true);
        return;
      }
      if |updates.items| < updatesCapacity {
        updates := updates.(items := updates.items + [status]);
      } else {
        PublishKeepsTheNewest(updates, updatesCapacity, status);
        hide FinishPublish;
        if updates.items != [] {
          updates := updates.(items := updates.items[1..]);
        }
        if |updates.items| < updatesCapacity {
          updates := updates.(items := updates.items + [status]);
        }
      }
    }

    method MarkReady(url: string, publicUrl: string)
      requires Valid()
      modifies this
      ensures Valid()
      ensures View() == ExposureCore.MarkReady(old(View()), ctxDone, url, publicUrl)
      // an alive relay is ready at this public URL and free of errors; a waiter for readiness is woken and finds it
      ensures Alive(old(statuses), old(closing), ctxDone, url) ==>
                && statuses == old(statuses)[url := RelayStatus(old(statuses)[url].relayUrl, publicUrl, old(statuses)[url].udpAddr, Ready, "")]
                && SomeReady(View(), false) && old(stateChanged) < stateChanged
      // only becoming ready is announced
      ensures if Alive(old(statuses), old(closing), ctxDone, url) && old(statuses)[url].state != Ready
              then Announced(old(updates), updatesCapacity, statuses[url], updates) else updates == old(updates)
      ensures !Alive(old(statuses), old(closing), ctxDone, url) ==> View() == old(View())
      ensures ctxDone == old(ctxDone) && conns == old(conns)
      ensures updates == if PublishesReady(old(View()), ctxDone, url)
                         then FinishPublish(old(updates), updatesCapacity, StartPublish(statuses[url]))
                         else old(updates)
    {
      MarkReadyAccounted(View(), ctxDone, maxDiscoveredRelays, url, publicUrl);
      if url !in statuses || closing || ctxDone || statuses[url].state.Failed? {
        return;
      }
      var status := statuses[url].(publicUrl := publicUrl, err := "");
      if status.state.Ready? {
        statuses := statuses[url := status];
        NotifyStateChangedLocked();
        return;
      }
      status := status.(state := Ready);
      statuses := statuses[url := status];
      NotifyStateChangedLocked();
      PublishUpdate(status);
    }

    method MarkDatagramReady(url: string, udpAddr: string)
      requires Valid()
      modifies this
      ensures Valid()
      ensures View() == ExposureCore.MarkDatagramReady(old(View()), ctxDone, url, udpAddr)
      // an alive relay has this address and is otherwise as before, so it is ready for datagrams exactly while it has one
      ensures Alive(old(statuses), old(closing), ctxDone, url) ==>
                && statuses == old(statuses)[url := RelayStatus(old(statuses)[url].relayUrl, old(statuses)[url].publicUrl, udpAddr,
                                                                old(statuses)[url].state, old(statuses)[url].err)]
                && (IsReadyStatus(statuses[url], true) <==> udpAddr != "") && old(stateChanged) < stateChanged
      // only an address other than before is announced, in a copy that says so
      ensures if Alive(old(statuses), old(closing), ctxDone, url) && udpAddr != "" && old(statuses)[url].udpAddr != udpAddr
              then Announced(old(updates), updatesCapacity, statuses[url].(state := UdpReady), updates) else updates == old(updates)
      ensures !Alive(old(statuses), old(closing), ctxDone, url) ==> View() == old(View())
      ensures ctxDone == old(ctxDone) && conns == old(conns)
      ensures updates == if PublishesDatagramReady(old(View()), ctxDone, url, udpAddr)
                         then FinishPublish(old(updates), updatesCapacity, StartPublish(statuses[url].(state := UdpReady)))
                         else old(updates)
    {
      MarkDatagramReadyAccounted(View(), ctxDone, maxDiscoveredRelays, url, udpAddr);
      if url !in statuses || closing || ctxDone || statuses[url].state.Failed? {
        return;
      }
      var status := statuses[url];
      var announce := udpAddr != "" && status.udpAddr != udpAddr;
      status := status.(udpAddr := udpAddr);
      statuses := statuses[url := status];
      NotifyStateChangedLocked();
      if announce {
        PublishUpdate(status.(state := UdpReady));
      }
    }

    /** The lock section of markFailed; last is whether every member has now failed. */
    method MarkFailedLocked(url: string, err: string) returns (marked: bool, last: bool)
      modifies this
      ensures View() == ExposureCore.MarkFailed(old(View()), ctxDone, url, err)
      ensures marked == CanMark(old(View()), ctxDone, url)
      ensures last == (marked && failedCount >= relayCount)
      ensures ctxDone == old(ctxDone) && conns == old(conns) && updates == old(updates)
    {
      if url !in statuses || closing || ctxDone || statuses[url].state.Failed? {
        return false, false;
      }
      statuses := statuses[url := statuses[url].(state := Failed, err := err)];
      failedCount := failedCount + 1;
      rejectedRelays := rejectedRelays + {url};
      NotifyStateChangedLocked();
      return true, failedCount >= relayCount;
    }

    /** markFailed up to its decision; last says that the caller now kicks discovery or exhausts the exposure. */
    method MarkFailed(url: string, err: string) returns (last: bool)
      requires Valid()
      modifies this
      ensures Valid()
      ensures View() == ExposureCore.MarkFailed(old(View()), ctxDone, url, err)
      // an alive relay has failed for this reason, is counted and rejected once, and is announced
      ensures Alive(old(statuses), old(closing), ctxDone, url) ==>
                && statuses == old(statuses)[url := RelayStatus(old(statuses)[url].relayUrl, old(statuses)[url].publicUrl,
                                                                old(statuses)[url].udpAddr, Failed, err)]
                && failedCount == old(failedCount) + 1 && rejectedRelays == old(rejectedRelays) + {url}
                && old(stateChanged) < stateChanged
                && Announced(old(updates), updatesCapacity, statuses[url], updates)
      ensures !Alive(old(statuses), old(closing), ctxDone, url) ==> View() == old(View()) && updates == old(updates)
      ensures last == (Alive(old(statuses), old(closing), ctxDone, url) && forall u | u in statuses :: statuses[u].state.Failed?)
      ensures ctxDone == old(ctxDone) && conns == old(conns)
      ensures updates == if CanMark(old(View()), ctxDone, url)
                         then FinishPublish(old(updates), updatesCapacity, StartPublish(statuses[url]))
                         else old(updates)
    {
      MarkFailedAccounted(View(), ctxDone, maxDiscoveredRelays, url, err);
      var marked: bool;
      marked, last := MarkFailedLocked(url, err);
      AllFailedMeaning(View(), maxDiscoveredRelays);
      if marked {
        SomeMember(View(), maxDiscoveredRelays, url);
        hide Accounted, FinishPublish;
        PublishUpdate(statuses[url]);
      }
    }

    /** Receive and close until the queue is empty. */
    method DrainAccepted()
      modifies `conns
      ensures conns == old(conns).(queue := [], closed := old(conns).closed + Elements(old(conns).queue))
    {
      while conns.queue != []
        invariant conns == old(conns).(queue := conns.queue, closed := conns.closed)
        invariant conns.closed + Elements(conns.queue) == old(conns).closed + Elements(old(conns).queue)
        decreases |conns.queue|
      {
        var conn := conns.queue[0];
        assert Elements(conns.queue) == {conn} + Elements(conns.queue[1..]);
        conns := conns.(queue := conns.queue[1..]);
        conns := conns.(closed := conns.closed + {conn});
      }
    }

    method MarkExhausted()
      requires Valid()
      modifies this
      ensures Valid()
      ensures View() == NotifyStateChanged(CloseAllFailed(old(View())))
      // every channel captured before is closed now: the signal itself and the wake-up
      ensures SignalIsClosed(View(), old(allFailed)) && old(stateChanged) < stateChanged
      ensures conns == old(conns).(queue := [], closed := old(conns).closed + Elements(old(conns).queue))
      ensures updates == old(updates) && ctxDone == old(ctxDone)
    {
      SignalAccounted(View(), maxDiscoveredRelays);
      if !failedOnce {
        failedOnce := true;
        allFailedClosed := true;
      }
      SignalAccounted(View(), maxDiscoveredRelays);
      NotifyStateChangedLocked();
      DrainAccepted();
    }

    /** exhaustedSignal != nil. */
    method IsExhausted() returns (exhausted: bool)
      requires Valid()
      ensures exhausted <==> allFailedClosed && statuses != map[] && forall url | url in statuses :: statuses[url].state.Failed?
    {
      AllFailedMeaning(View(), maxDiscoveredRelays);
      exhausted := failedCount >= relayCount && relayCount > 0 && allFailedClosed;
    }

    method AdoptDiscoveredRelays(selected: seq<string>, refused: set<string>)
      requires Valid()
      modifies this
      ensures Valid()
      ensures View() == AdoptAll(old(View()), ctxDone, maxDiscoveredRelays, selected, refused)
      ensures ctxDone == old(ctxDone) && conns == old(conns)
    {
      var rest := selected;
      while rest != []
        invariant Valid() && ctxDone == old(ctxDone) && conns == old(conns)
        invariant AdoptAll(View(), ctxDone, maxDiscoveredRelays, rest, refused)
               == AdoptAll(old(View()), ctxDone, maxDiscoveredRelays, selected, refused)
      {
        if ctxDone {
          CancelledAdoptsNothing(View(), maxDiscoveredRelays, rest, refused);
          return;
        }
        var _ := AddRelay(rest[0], false, rest[0] !in refused);
        rest := rest[1..];
      }
    }
  }

  lemma {:induction false} CancelledAdoptsNothing(c: Core, maxDiscovered: nat, urls: seq<string>, refused: set<string>)
    decreases |urls|
    ensures AdoptAll(c, true, maxDiscovered, urls, refused) == c
  {
    if urls != [] {
      CancelledAdoptsNothing(c, maxDiscovered, urls[1..], refused);
    }
  }
}
