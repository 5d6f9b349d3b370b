/** The fields of Exposure that are guarded by its lock, and what each lock section does to them.

    A Go channel that is only ever closed and replaced is modelled by a counter: the channel created k-th
    is closed once the counter has moved past k. stateChanged is closed and replaced in one step, so its
    counter is epoch. allFailed is closed first and replaced later, so it also has a flag. */
module ExposureCore {

  datatype RelayState = Connecting | Ready | UdpReady | Failed

  datatype RelayStatus = RelayStatus(
    relayUrl: string,
    publicUrl: string,
    udpAddr: string,
    state: RelayState,
    err: string)

  datatype Core = Core(
    statuses: map<string, RelayStatus>,
    supervisors: set<string>,   // the keys of relaySupervisors
    relayCount: nat,
    failedCount: nat,
    discoveredCount: nat,
    rejected: set<string>,
    closing: bool,
    signal: nat,                // which allFailed channel is installed
    signalClosed: bool,         // whether that one is closed; every earlier one is
    failedOnce: bool,           // whether the current sync.Once has fired
    epoch: nat)                 // which stateChanged channel is installed; every earlier one is closed

  function EmptyCore(): Core {
    Core(map[], {}, 0, 0, 0, {}, false, 0, false, false, 0)
  }

  ghost function FailedUrls(statuses: map<string, RelayStatus>): set<string> {
    set url | url in statuses && statuses[url].state.Failed?
  }

  /** Membership accounting: the counters are the sizes of what they count. */
  ghost predicate Accounted(c: Core, maxDiscovered: nat) {
    && c.relayCount == |c.statuses|
    && c.supervisors == c.statuses.Keys
    && c.rejected == FailedUrls(c.statuses)
    && c.failedCount == |c.rejected|
    && c.discoveredCount <= maxDiscovered
    && c.discoveredCount <= c.relayCount
    && (forall url | url in c.statuses :: c.statuses[url].relayUrl == url && !c.statuses[url].state.UdpReady?)
    && c.failedOnce == c.signalClosed
  }

  /** The counter test shared by refreshDiscovery, exhaustedSignal and markFailed. */
  predicate AllFailed(c: Core) {
    c.failedCount >= c.relayCount && c.relayCount > 0
  }

  /** Whether the allFailed channel with this number is closed. */
  predicate SignalIsClosed(c: Core, id: nat) {
    id < c.signal || (id == c.signal && c.signalClosed)
  }

  predicate Exhausted(c: Core) {
    AllFailed(c) && c.signalClosed
  }

  predicate IsReadyStatus(status: RelayStatus, udp: bool) {
    if udp then status.udpAddr != "" && !status.state.Failed? else status.state.Ready?
  }

  predicate SomeReady(c: Core, udp: bool) {
    exists url | url in c.statuses :: IsReadyStatus(c.statuses[url], udp)
  }

  function NotifyStateChanged(c: Core): Core {
    c.(epoch := c.epoch + 1)
  }

  function RearmAllFailed(c: Core): Core {
    if c.signalClosed then c.(signal := c.signal + 1, signalClosed := false, failedOnce := false) else c
  }

  /** failedOnce.Do(close(allFailed)), taken as one atomic step. */
  function CloseAllFailed(c: Core): Core {
    if c.failedOnce then c else c.(failedOnce := true, signalClosed := true)
  }

  predicate CanAdd(c: Core, ctxDone: bool, maxDiscovered: nat, url: string, explicit: bool) {
    && !c.closing && !ctxDone
    && url !in c.statuses
    && url !in c.rejected
    && (explicit || c.discoveredCount < maxDiscovered)
  }

  function NewStatus(url: string): RelayStatus {
    RelayStatus(url, "", "", Connecting, "")
  }

  function AddRelay(c: Core, ctxDone: bool, maxDiscovered: nat, url: string, explicit: bool): Core {
    if !CanAdd(c, ctxDone, maxDiscovered, url, explicit) then c
    else
      NotifyStateChanged(RearmAllFailed(c.(
        statuses := c.statuses[url := NewStatus(url)],
        supervisors := c.supervisors + {url},
        relayCount := c.relayCount + 1,
        discoveredCount := c.discoveredCount + (if explicit then 0 else 1))))
  }

  predicate CanMark(c: Core, ctxDone: bool, url: string) {
    url in c.statuses && !c.closing && !ctxDone && !c.statuses[url].state.Failed?
  }

  function MarkReady(c: Core, ctxDone: bool, url: string, publicUrl: string): Core {
    if !CanMark(c, ctxDone, url) then c
    else
      NotifyStateChanged(c.(
        statuses := c.statuses[url := c.statuses[url].(publicUrl := publicUrl, err := "", state := Ready)]))
  }

  /** markReady publishes only the transition into ready, not a repeat. */
  predicate PublishesReady(c: Core, ctxDone: bool, url: string) {
    CanMark(c, ctxDone, url) && !c.statuses[url].state.Ready?
  }

  function MarkFailed(c: Core, ctxDone: bool, url: string, err: string): Core {
    if !CanMark(c, ctxDone, url) then c
    else
      NotifyStateChanged(c.(
        statuses := c.statuses[url := c.statuses[url].(state := Failed, err := err)],
        failedCount := c.failedCount + 1,
        rejected := c.rejected + {url}))
  }

  function MarkDatagramReady(c: Core, ctxDone: bool, url: string, udpAddr: string): Core {
    if !CanMark(c, ctxDone, url) then c
    else
      NotifyStateChanged(c.(statuses := c.statuses[url := c.statuses[url].(udpAddr := udpAddr)]))
  }

  /** The status markDatagramReady announces: udp_ready exists only in this copy. */
  predicate PublishesDatagramReady(c: Core, ctxDone: bool, url: string, udpAddr: string) {
    CanMark(c, ctxDone, url) && udpAddr != "" && c.statuses[url].udpAddr != udpAddr
  }

  function ActiveRelays(c: Core): set<string> {
    c.statuses.Keys + c.rejected
  }

  // ----- what the lock sections keep

  lemma AddRelayAccounted(c: Core, ctxDone: bool, maxDiscovered: nat, url: string, explicit: bool)
    requires Accounted(c, maxDiscovered)
    ensures Accounted(AddRelay(c, ctxDone, maxDiscovered, url, explicit), maxDiscovered)
  {
    if CanAdd(c, ctxDone, maxDiscovered, url, explicit) {
      NewMemberKeepsFailures(c.statuses, url);
    }
  }

  lemma NewMemberKeepsFailures(statuses: map<string, RelayStatus>, url: string)
    requires url !in statuses
    ensures FailedUrls(statuses[url := NewStatus(url)]) == FailedUrls(statuses)
    ensures statuses[url := NewStatus(url)].Keys == statuses.Keys + {url}
    ensures |statuses[url := NewStatus(url)]| == |statuses| + 1
  {
  }

  lemma MarkFailedAccounted(c: Core, ctxDone: bool, maxDiscovered: nat, url: string, err: string)
    requires Accounted(c, maxDiscovered)
    ensures Accounted(MarkFailed(c, ctxDone, url, err), maxDiscovered)
  {
    var c' := MarkFailed(c, ctxDone, url, err);
    if CanMark(c, ctxDone, url) {
      assert c'.statuses.Keys == c.statuses.Keys;
      assert FailedUrls(c'.statuses) == FailedUrls(c.statuses) + {url};
      assert url !in FailedUrls(c.statuses);
    }
  }

  lemma MarkReadyAccounted(c: Core, ctxDone: bool, maxDiscovered: nat, url: string, publicUrl: string)
    requires Accounted(c, maxDiscovered)
    ensures Accounted(MarkReady(c, ctxDone, url, publicUrl), maxDiscovered)
  {
    var c' := MarkReady(c, ctxDone, url, publicUrl);
    assert c'.statuses.Keys == c.statuses.Keys;
    assert FailedUrls(c'.statuses) == FailedUrls(c.statuses);
  }

  lemma MarkDatagramReadyAccounted(c: Core, ctxDone: bool, maxDiscovered: nat, url: string, udpAddr: string)
    requires Accounted(c, maxDiscovered)
    ensures Accounted(MarkDatagramReady(c, ctxDone, url, udpAddr), maxDiscovered)
  {
    var c' := MarkDatagramReady(c, ctxDone, url, udpAddr);
    assert c'.statuses.Keys == c.statuses.Keys;
    assert FailedUrls(c'.statuses) == FailedUrls(c.statuses);
  }

  lemma SignalAccounted(c: Core, maxDiscovered: nat)
    requires Accounted(c, maxDiscovered)
    ensures Accounted(CloseAllFailed(c), maxDiscovered)
    ensures Accounted(NotifyStateChanged(c), maxDiscovered)
    ensures Accounted(c.(closing := true), maxDiscovered)
  {
  }

  /** AllFailed, a comparison of two counters, says exactly that there are members and all have failed. */
  lemma AllFailedMeaning(c: Core, maxDiscovered: nat)
    requires Accounted(c, maxDiscovered)
    ensures AllFailed(c) <==> c.statuses != map[] && forall url | url in c.statuses :: c.statuses[url].state.Failed?
  {
    var failed := FailedUrls(c.statuses);
    assert failed <= c.statuses.Keys && |c.statuses| == |c.statuses.Keys|;
    if AllFailed(c) {
      SubsetOfSameSize(failed, c.statuses.Keys);
    }
    assert (forall url | url in c.statuses :: c.statuses[url].state.Failed?) ==> failed == c.statuses.Keys;
  }

  lemma FailedAtMostAll(c: Core, maxDiscovered: nat)
    requires Accounted(c, maxDiscovered)
    ensures c.failedCount <= c.relayCount
  {
    SmallerSubset(c.rejected, c.statuses.Keys);
  }

  lemma SomeMember(c: Core, maxDiscovered: nat, url: string)
    requires Accounted(c, maxDiscovered) && url in c.statuses
    ensures c.relayCount > 0
  {
  }

  lemma SubsetOfSameSize<T>(small: set<T>, large: set<T>)
    requires small <= large
    requires |small| >= |large|
    ensures small == large
  {
    if x :| x in large && x !in small {
      assert |large - {x}| == |large| - 1;
      SmallerSubset(small, large - {x});
    }
  }

  lemma SmallerSubset<T>(small: set<T>, large: set<T>)
    requires small <= large
    ensures |small| <= |large|
  {
    assert large == small + (large - small);
  }
}
