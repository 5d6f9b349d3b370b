# Portalite, verified model

Portalite exposes one local service through many relays. Its difficult code is a set of small concurrent state machines
around shared tables. This project models them in Dafny and proves properties of every run: safety of the exhaustion
signal and of the wake-up channel, truthful results of the waiting calls, an ordered shutdown that loses nothing, sound staleness tests on a rotating lease,
conservation of leases, terminators, connections and sockets, agreement in a race over one file, and round trips of two
codecs.

`dafny verify dfyconfig.toml` checks everything.

## How the model is built

*State machines.* Where goroutines or processes race, one lock section, channel operation, request or system call is one
step, and a run is any sequence of steps. Relay replies, handshakes, timers, expiry tests and the scheduler are arbitrary.
A step says which part of the world may change, and a local relation says how; invariants are predicates over small parts,
kept by one lemma per kind of step.

*Objects and loops.* What the code updates in place is a class whose methods change its fields, proved against the
functions that the machines use: `ExposureObject.Exposure`, `LeaseCell.SharedLease`, `UdpTable.FlowManager`,
`Discovery.DiscoveryCandidates`, `Proxy.ProxyPair` and `Proxy.ActiveProxyPairs`. Loops are methods with invariants; those
that wait on the clock or on a relay take a script of what happens to them, which is arbitrary.

| files | what they model |
|---|---|
| ExposureCore, ExposureObject | the fields of an exposure and its lock sections, as functions and as an object |
| ExposureThreads | constructor, discovery, supervisors, callers and Close, interleaved |
| ExposureShape, ExposureSignal, ExposureLateClose, ExposureWakeup, ExposureOutcomes, ExposureNoRelays, ExposureShutdown, ExposureConnections, ExposureDelivery, ExposureBuffers | what holds over all their runs, and runs that show what can happen |
| RelayErrors, LeaseVerdict, LeaseCell, RetryTiming | error classification, the join of worker results, the shared lease, delays |
| Supervisor, SupervisorLease, SupervisorRenewal, SupervisorStaleness, SupervisorOutcome, SupervisorResources | one relay supervisor with its workers, interleaved, and what holds over all its runs |
| ExposureSupervision | a supervisor inside its exposure, the two machines moving together |
| Renewal, Registration | the renewal and registration loops against an arbitrary clock |
| UdpTable, UdpFlows | the UDP flow table and its threads |
| Proxy, ProxyPairs, ProxyResults | the TCP proxy's pairs and its threads |
| ProxyExposure | the proxy as sole consumer of its exposure, the two machines moving together |
| IdentityRace | any number of processes over one identity file |
| Discovery | candidate merging, selection, adoption |
| Datagram, Normalization, RelaySpellings, Urls, Numbers, Text, Options | the datagram frame, relay URLs, and the library routines under them |

## What the proofs found

- A closed `allFailed` channel is truthful on every run exactly when discovery does the later adds or there is a single
  fixed relay (`ExposureLateClose.TruthfulExactly`). With more fixed relays `failedOnce.Do` may close it after the
  constructor has added another one.
- When `runTCPProxy` returns, a tenant connection can still be open: the cancellation hook may have marked its pair and not
  yet closed it, and nobody waits for the hook (`ProxyResults.ReturnCanLeaveATenantOpen`). Everything is closed at the
  return on every run exactly if the context is not cancelled before it (`ProxyResults.ClosedAtReturnExactly`).
- The two reverse slots record signing failures in one map under bindings that the relay chooses. If two overlapping
  handshakes carry one binding, a failure under the old token can be charged to a handshake under the new one, and the
  staleness test then answers "not stale" wrongly. The tests are sound on every run exactly if overlapping handshakes carry
  different bindings (`SupervisorStaleness.SoundExactly`).
- Processes racing to create an identity agree on every run exactly when creating cannot fail once the bytes on disk parse
  (`IdentityRace.AgreementExactlyWithoutLateFailures`); a write that stops before the final newline is enough to disagree.
- `relayRetryDelay` shortens a base delay above five minutes when a relay asks for more than it
  (`RetryTiming.RetryDelayContract`), and `ttlSeconds` asks for one second when the sum wraps (`RetryTiming.TtlCovers`).
- The code and its documentation part in two places, and the model follows the code. docs/usage.md:121 lists lost leases
  among the retried errors, but during registration they are terminal (`RelayErrors.LostLeaseWhileRegisteringIsTerminal`).
  docs/usage.md:267 says that with discovery `Accept` waits for a new candidate instead of reporting `ErrNoRelays`. For every
  configuration with discovery there is a run on which it reports it (`ExposureNoRelays.AcceptReportsNoRelays`). What `Accept`
  does is what the same line says of `WaitReady`: a call that meets an exposure exhausted throughout or never reports
  `ErrNoRelays` if and only if the exposure is exhausted when it begins (`ExposureOutcomes.NoRelaysExactly`), and that
  always goes back to a refresh that found every relay failed and added nobody (`ExposureOutcomes.NoRelaysComesFromARefresh`).

## Model

| member | source | states |
|---|---|---|
| ExposureShape.MembershipIsAccounted | exposure.go:211-253 | in every state the counters are the sizes of what they count, discovered relays stay within the cap and members within the buffer capacity, and no stored state is udp_ready |
| ExposureShape.MembershipOnlyAdvances | exposure.go:465-538 | over any stretch of a run no member disappears or comes back, and a stored state only moves forward through connecting, ready, failed |
| ExposureCore.AllFailedMeaning | exposure.go:349-363 | the counter comparison holds exactly when there are members and each has failed |
| ExposureSignal.ClosedSignalIsTruthful | exposure.go:289-321 | with discovery a closed signal means that every member has failed |
| ExposureSignal.ExhaustionIsNeverLost | exposure.go:487-520 | if all members have failed, the signal is open and the exposure is live, then a kick is queued or some goroutine has yet to check or to act |
| ExposureSignal.AddingReopensTheSignal | exposure.go:257-264 | any step that adds a member leaves the signal open and the once armed |
| ExposureLateClose.TruthfulExactly | exposure.go:367-375 | a closed signal is truthful on all runs of a configuration if and only if it uses discovery or has one relay |
| ExposureLateClose.LateCloseMisleads | exposure.go:202-209 | for any two or more fixed relays, a run on which the signal closes after a live relay was added |
| ExposureWakeup.AcceptNeverSleepsThroughExhaustion | exposure.go:546-583 | a parked Accept that saw no exhaustion: if there is one now, its captured channel is closed or about to be |
| ExposureWakeup.WaitReadyNeverSleepsThroughReadiness | exposure.go:587-626 | a parked WaitReady or WaitDatagramReady: readiness means its channel is closed, exhaustion that it is closed or about to be |
| ExposureWakeup.ChangesCloseTheChannel | exposure.go:540-543 | between two states with different statuses the earlier wake-up channel has been closed |
| ExposureOutcomes.ResultsAreTruthful | exposure.go:545-625 | ErrNoRelays means that the exposure stood exhausted at a moment of the call, although Accept reads its condition in separate lock sections; a ready result means that a relay was ready, ErrClosed that the exposure is closing or cancelled |
| ExposureOutcomes.NoRelaysExactly | exposure.go:545-625 | a call that returns from a live exposure exhausted throughout the call or never reports ErrNoRelays if and only if it was exhausted when the call began |
| ExposureOutcomes.NoRelaysComesFromARefresh | exposure.go:314-321 | with discovery ErrNoRelays goes back to a final check that found every member failed, with nobody added in between |
| ExposureNoRelays.AcceptReportsNoRelays | exposure.go:545-583 | for every configuration with discovery, a run on which Accept returns ErrNoRelays |
| ExposureShutdown.NeverSendsOnClosedUpdates | exposure.go:381-396 | no run ever sends on updates after Close has closed it |
| ExposureShutdown.NoAddAfterWait | exposure.go:740-767 | once a Close has reached the wait for supervisors, none is added again |
| ExposureShutdown.CloseIsComplete | exposure.go:740-767 | all callers of Close get the same errors, one for each failed cleanup and no other, with all goroutines joined and the queue empty |
| ExposureConnections.ConnectionsAreConserved | exposure.go:437-449 | every connection offered is in exactly one place: queued, held by one goroutine, handed out or closed |
| ExposureConnections.NothingLeftAfterClose | exposure.go:769-780 | after Close, with no Accept at work, each was handed out or closed |
| ExposureDelivery.AcceptDelivers | exposure.go:546-590 | for every configuration and connection a run on which a relay offers it and Accept returns it |
| ExposureDelivery.CloseReturns | exposure.go:740-780 | and one on which it is still queued when Close comes, is closed, and Close returns without an error |
| ExposureBuffers.BuffersStayWithinCapacity | exposure.go:381-449 | over all interleavings of publishers and offers both queues stay within the capacity they were made with |
| ExposureObject.AdoptionAddsThePrefix | exposure.go:324-337 | adoption adds exactly the longest prefix of the candidates that the cap leaves room for |
| ExposureObject.PublishKeepsTheNewest | exposure.go:381-396 | alone on the channel, publishing keeps the new status, stays within capacity and drops the oldest |
| ExposureObject.Exposure.AddRelay | exposure.go:211-253 | in place: a new URL within the cap joins as connecting, is counted, reopens the signal, wakes waiters and is the newest update; any other changes nothing |
| ExposureObject.Exposure.MarkReady | exposure.go:465-485 | in place: a live relay is ready at the given public URL without an error, waiters are woken and find it, only the transition is published, and no other status moves |
| ExposureObject.Exposure.MarkFailed | exposure.go:487-520 | in place: a live relay has failed for the given reason, is rejected and counted once and published, and the last failure is told apart by all members having failed |
| ExposureObject.Exposure.MarkDatagramReady | exposure.go:522-538 | in place: a live relay has the given address and is datagram-ready exactly while there is one; only a new address is published, and udp_ready exists only in that copy |
| ExposureObject.Exposure.DrainAccepted | exposure.go:769-780 | the loop closes everything queued and nothing else |
| ExposureObject.Exposure.AdoptDiscoveredRelays | exposure.go:324-337 | the loop over the selection adds what the pure adoption adds |
| ExposureObject.Exposure.MarkExhausted | exposure.go:367-375 | in place: the signal and the wake-up channel that anyone has captured are closed, and the queue is emptied |
| ExposureObject.Exposure.IsExhausted | exposure.go:349-363 | true exactly when the signal is closed and there are members, all of them failed |
| RelayErrors.FirstIsEarliest | relay.go:1539-1621 | errors.As finds the earliest matching error of the tree in preorder, and none exactly when there is none |
| RelayErrors.TerminalIsNeverDowngraded | relay.go:1539-1542 | a terminal error anywhere in the tree decides the class and is returned unchanged |
| RelayErrors.RefreshIsKept | relay.go:1539-1542 | without a terminal error, an errLeaseRefresh anywhere in the tree makes it a refresh and is kept |
| RelayErrors.ClassOfAnyTree | relay.go:1539-1575 | the class and the result for every tree nobody has judged: a lost lease where a refresh is allowed, else retried as it is exactly if nothing in it is malformed or a bad certificate and its first API error is worth a retry, or, with none, it holds an end of file, a cancellation, a deadline or a network error; all else is wrapped as terminal |
| RelayErrors.ClassificationIsIdempotent | relay.go:1539-1575 | classifying twice is classifying once |
| RelayErrors.WrappingKeepsTheClass | relay.go:1539-1575 | any depth of transparent wrapping leaves the class alone |
| RelayErrors.UnwrapGivesTheCause | relay.go:1603-1621 | a freshly made terminal error unwraps to its cause, an existing one to that of the earliest terminal error |
| RelayErrors.ApiContract | relay.go:1511-1566 | the class of an API error under any wrapping, by code first and status after |
| RelayErrors.CodeDecides | relay.go:1511-1566 | for a code in any letter case between any blanks: the six listed codes are terminal at any status, the two lost-lease codes refresh where allowed, rate_limited is retried, any other leaves it to the status |
| RelayErrors.LostLeaseWhileRegisteringIsTerminal | relay.go:1577-1584 | during registration a lost-lease reply is terminal exactly below status 500 and other than 429 |
| LeaseVerdict.JoinResults | relay.go:809-832 | the join loop returns the first terminal result, else a refresh, else the first transient result, else cancellation |
| LeaseVerdict.OrderDoesNotMatter | relay.go:809-832 | the class of the verdict depends on the results and not on their arrival order |
| LeaseVerdict.JoinedClass | relay.go:809-832 | the class of the joined error is that verdict |
| LeaseCell.SharedLease.BeginRenewal | relay.go:1456-1465 | in place: a renewal begins only on the token and generation it read, and from then on no failed request is held against the lease |
| LeaseCell.SharedLease.InstallRenewal | relay.go:1260-1272 | in place: a renewal takes a new generation, so that whatever was sent under an earlier one is stale, or changes nothing |
| LeaseCell.SharedLease.ClearLease | relay.go:1408-1414 | in place: the lease is gone, the generation counter is not, and a renewal under way can no longer be installed |
| SupervisorStaleness.NotStaleMeansCurrent | relay.go:1475-1495 | whenever a staleness test answers not stale, the token or capability that the failed request carried is the one installed; for the signer under the hypothesis that overlapping handshakes carry different bindings |
| SupervisorStaleness.CurrentMeansNotStale | relay.go:1475-1495 | conversely, a request that carried what is installed, with no renewal under way, is never called stale, so that for slots and datagrams the test is exact |
| SupervisorStaleness.RefreshOnlyWhenCurrent | relay.go:971-1033 | a worker turns a lost-lease reply into a refresh only at such a test, and for slots and datagrams without any hypothesis only when the request carried what is installed |
| SupervisorStaleness.LostLeaseIsGivenUp | relay.go:971-1033 | conversely, a lost-lease reply that is not stale, and one to a renewal in any case, ends the lease with a refresh and not with a failure of the relay |
| SupervisorStaleness.FailuresAreJudged | relay.go:976-1031 | any other failure of a slot ends the lease exactly if its class is not retryable |
| SupervisorStaleness.SharedBindingMisleads | relay.go:166-193 | a run on which a handshake is charged with a signature refused under the token before the renewal |
| SupervisorStaleness.SoundExactly | relay.go:1148-1187 | the tests are sound on all runs if and only if the relay may not give overlapping handshakes one binding |
| SupervisorLease.GenerationsIncrease | relay.go:640-643 | installed generations strictly increase over the life of a supervisor, across renewals and discards |
| SupervisorRenewal.DoubtfulExactly | relay.go:1456-1473 | over all runs the token of an installed lease is in doubt if and only if a renewal of that generation has begun |
| SupervisorOutcome.EndsOnlyByCancellationOrTerminal | relay.go:316-372 | run ends by cancellation or with a terminal cause |
| ExposureSupervision.FailedOnlyForATerminalCause | exposure.go:418-435 | over all runs of an exposure with a supervisor, a relay marked failed has one whose run ended with a terminal cause, and its status carries that cause |
| ExposureSupervision.LiveExposureMarksEveryEnd | exposure.go:432-434 | a live exposure has marked a relay failed if and only if its supervisor has judged the end of run |
| SupervisorOutcome.FirstResultStopsTheLease | relay.go:795-803 | with the parent alive the first worker result is a refresh or terminal |
| SupervisorOutcome.LeaseOutcomeIgnoresArrivalOrder | relay.go:751-833 | with the parent alive a lease ends in a discard or a terminal end, the same for every arrival order |
| SupervisorResources.InstallNeverOverwrites | relay.go:656-668 | a lease is installed only where there is none, and a live lease has a control client |
| SupervisorResources.TenantsAreConserved | relay.go:1396-1414 | each terminator built is the held one or has been closed exactly once |
| SupervisorResources.EverythingIsGivenBack | relay.go:1374-1425 | at the end every terminator is closed once; each lease was lost or drew one unregister request with its latest token; each token of a refused registration drew its own; nothing else was requested |
| RetryTiming.RetryAfterFits | relay.go:41-58 | delta-seconds in 31 bits are that many seconds and never wrap, anything else counts as a date if it lies ahead, else as nothing; always a non-negative int64 duration |
| RetryTiming.RetryDelayContract | relay.go:63-72 | the delay is the documented clamp exactly when the base is within five minutes or nothing longer is advertised |
| RetryTiming.LongBaseIsShortened | relay.go:63-72 | a base of ten minutes and an advertised hour make a wait of five minutes |
| RetryTiming.DelaySurvivesWrapping | relay.go:63-72 | neither wrapping nor classification hides an advertised delay |
| RetryTiming.DefaultsArePositive | relay.go:88-131 | each timing that is not positive takes its own default and no other changes, so all are positive, and unchanged exactly when they were |
| RetryTiming.TtlCovers | relay.go:133-139 | the requested seconds are the least that cover the lease TTL exactly when the sum does not wrap |
| Renewal.RunRenewLoop | relay.go:1206-1274 | each round wakes renewBefore ahead of the expiry, or asks at once if that has passed; the lease holds the latest fresh grant and each renewal takes one generation; it goes on exactly after a renewal or a completed retry wait, and reports a cancellation, a lost lease or a final reply exactly in those cases |
| Renewal.WaitsEndInTime | relay.go:1212-1241 | no wait is scheduled past the expiry of the lease it waits on |
| Renewal.FailuresAreBounded | relay.go:1228-1248 | failed renewals in a row on one lease number at most its time over min(retryWait, five minutes), plus one |
| Registration.RegisterLeaseWithRetry | relay.go:508-539 | registered exactly if the last round submitted and was accepted, cancelled exactly if that round was, any other error exactly if it is what the round failed with and final, still at work exactly if every round failed retryably; a challenge is requested only when all issued ones have expired, submissions use the latest one unexpired when last checked, and retries wait for the relay's delay |
| Registration.OneChallengePerWindow | relay.go:504-507 | inside one validity window no further challenge is requested or issued, and all submissions use it |
| UdpTable.FlowManager.Forward | udp_proxy.go:78-112 | in place: a known flow is reused and a new one inserted, unless the table is closed, holds 1024 flows or the dial fails, exactly; the flow to write to was just seen and replies to where the frame came from |
| UdpTable.FlowManager.Read | udp_proxy.go:131-138 | in place: a reply counts as activity of its flow exactly while that flow is the one in an open table |
| UdpTable.FlowManager.Remove | udp_proxy.go:175-182 | in place: the flow is gone and no other is, not even one under its key |
| UdpTable.FlowManager.CleanupTick | udp_proxy.go:159-171 | in place, in any map order: a flow stays exactly if it has been seen within five minutes, and the others are returned for closing |
| UdpTable.FlowManager.Close | udp_proxy.go:184-196 | in place: the table is closed and empty, and every flow is returned for closing once |
| UdpFlows.TableIsBounded | udp_proxy.go:83-112 | in every state at most 1024 flows, each under its own key with a matching reply address, and none once closed |
| UdpFlows.GoneForGood | udp_proxy.go:175-200 | closed stays closed and empty, and a flow that has left the table never returns and is never written again |
| UdpFlows.EverySocketIsAccountedFor | udp_proxy.go:78-200 | a dialled socket is in the table exactly when it is neither closed nor about to be |
| UdpFlows.OnlyItsOwnRemovalEvicts | udp_proxy.go:175-182 | removing an old flow never evicts its successor under the same key |
| UdpFlows.RepliesMatchTheFlow | udp_proxy.go:120-148 | a reply goes to the relay and flow id for which its socket was dialled |
| UdpFlows.WaitIsFinal | udp_proxy.go:56-59 | after the wait that follows close no reader or cleaner is left and none starts |
| UdpFlows.NothingStaysOpen | udp_proxy.go:56-59 | with no other call at work, every socket ever dialled is then closed |
| Proxy.ProxyPair.Close | proxy.go:53-68 | in place: the first call closes what the pair owns, later ones nothing |
| Proxy.ActiveProxyPairs.CloseAll | proxy.go:87-97 | in place, in any order: each connection of an open pair is closed exactly once |
| ProxyResults.NothingIsClosedTwice | proxy.go:34-68 | over all runs no tenant or local connection is closed twice |
| ProxyResults.ReturnClosesAllButTheHooks | proxy.go:194-223 | at the return each connection has been closed once, except one that the hook has claimed |
| ProxyResults.AllClosedAtReturn | proxy.go:194-223 | a hook that has finished, or was stopped before it began, has left nothing open; one in the middle of a pair has |
| ProxyResults.ClosedAtReturnExactly | proxy.go:194-223 | everything is closed at the return on all runs if and only if the context may not be cancelled before it |
| ProxyResults.ReturnCanLeaveATenantOpen | proxy.go:194-223 | a run on which the loop returns with a tenant connection open |
| ProxyExposure.EveryOfferedConnectionIsClosed | proxy.go:150-177 | over all runs of the exposure with the proxy as its sole consumer: after Close and a return that was not cancelled before, each offered connection was closed by the exposure or once by its only pair, with the local connection dialled for it |
| IdentityRace.OneUnfinishedOwner | cmd/portalite/main.go:306-357 | at most one process has an unfinished file, and the path names it, so removal on failure removes its own file |
| IdentityRace.OnlyItsCreatorWrites | cmd/portalite/main.go:306-346 | with or without late failures a file only grows, by writes of the process that created it |
| IdentityRace.CompleteFileStays | cmd/portalite/main.go:328-357 | without late failures a file that parses, also before its final newline, is never overwritten, replaced or removed and goes on being read as the same identity |
| IdentityRace.SuccessIsOnDisk | cmd/portalite/main.go:389-446 | without late failures a result is on disk, stays there and has the requested name |
| IdentityRace.AgreementExactlyWithoutLateFailures | cmd/portalite/main.go:269-358 | all successful processes agree on every run if and only if no creation can fail after its bytes parse |
| IdentityRace.LateFailureDisagrees | cmd/portalite/main.go:343-351 | a run with a late failure on which two successful processes disagree |
| Discovery.Collect | discovery.go:320-337 | the candidate loop keeps, for each canonical URL, the last verified descriptor, and reports none exactly when there is none |
| Discovery.DiscoveryCandidates.Merge | discovery.go:164-183 | in place, in any map order: fresh entries override, expired ones delete, other stale ones go, both maps keep one domain |
| Discovery.MergeIsDetermined | discovery.go:164-183 | that meaning fixes the resulting table |
| Discovery.DiscoveryCandidates.SelectRelays | discovery.go:197-215 | the strictly sorted list of exactly the fresh, inactive, suitable URLs |
| Discovery.SelectionIsDetermined | discovery.go:197-215 | there is only one such list |
| Discovery.LessIsFirstDifference | discovery.go:214 | the order of the list is decided at the first difference, by the end of a text or by the smaller character |
| Discovery.DiscoverySeeds | discovery.go:341-348 | the strictly sorted list of exactly the members |
| Discovery.CollectedIsFresh | discovery.go:320-337 | merging a document never forgets a fresh relay, and what it advertises is in the table afterwards |
| Discovery.SelectedIsVouchedFor | discovery.go:105-135 | over any number of refreshes exactly the known, fresh, inactive relays fit for UDP where required are selected, and for each a signed descriptor that was in force when fetched vouches, for its expiry and its UDP backhaul |
| Discovery.GoodDescriptorIsCollected | discovery.go:320-333 | every signed descriptor in force whose address is a relay URL is collected |
| Discovery.MergeKeepsCanonical | discovery.go:320-333 | merging keeps every relay of the table in canonical form |
| Discovery.RefreshAdoptsTheFirst | exposure.go:324-337 | a refresh adds exactly the first suitable relays in sorted order, as far as the cap allows |
| Discovery.RespellingIsNeverSelected | discovery.go:320-333 | no respelling of a configured relay is ever selected |
| Datagram.PutUvarint | datagram.go:67-68 | the loop writes the shortest varint |
| Datagram.ReadUvarint | datagram.go:75-79 | the loop on 64-bit words reads what the bytes denote, and reports truncation and overflow |
| Datagram.EncodeDatagram | datagram.go:63-73 | a fresh buffer holding prefix and payload, or a refusal of long payloads |
| Datagram.DecodeDatagram | datagram.go:75-85 | the frame with a fresh copy of the payload, or a refusal |
| Datagram.FlowIdFits | datagram.go:67 | a 32-bit flow ID takes at most five bytes |
| Datagram.RoundTrip | datagram.go:63-85 | decoding an encoded frame gives it back |
| Datagram.EncodingIsInjective | datagram.go:63-73 | different frames have different encodings |
| Datagram.AcceptsExactly32Bits | datagram.go:76-83 | a frame is accepted exactly when its flow ID fits 32 bits in at most ten bytes and its payload is not too long |
| Datagram.Reencoding | datagram.go:63-85 | re-encoding is never longer, decodes the same, and is the input exactly when the flow ID was not padded |
| Normalization.FixedPointsAreCanonical | normalization.go:93-176 | the URLs left alone are exactly those in canonical form |
| Normalization.NormalizedIsCanonical | normalization.go:93-176 | everything accepted is put into canonical form |
| Normalization.NormalizationIsIdempotent | normalization.go:93-176 | normalizing twice is normalizing once |
| RelaySpellings.AcceptsExactlySpellings | normalization.go:93-176 | a text is accepted exactly if it spells an origin: blanks around it, the scheme https in any case or none, a host that decodes to a host name up to case and a final dot, no port or one from 1 to 65535, an empty, root or relay path; and the result is that origin |
| RelaySpellings.SpellingsOfAHost | normalization.go:93-176 | all those spellings of one host name are accepted as https, the host in lower case, and the port without leading zeros unless it is 443 |
| RelaySpellings.OtherSchemesAreRefused | normalization.go:108-110 | any other scheme is refused |
| RelaySpellings.OtherPathsAndPortsAreRefused | normalization.go:120-129 | any other path, and a port that is empty, no number or out of range, is refused |
| Normalization.PortRoundTrip | normalization.go:178-187 | a port is accepted exactly from 1 to 65535 and printed without leading zeros, otherwise unchanged |
| Normalization.ValidDNSHostname | normalization.go:210-233 | the loops decide the host name grammar |
| Normalization.NormalizeRelays | normalization.go:69-91 | the loop computes the first occurrences of the canonical images |
| Normalization.ListContract | normalization.go:69-91 | that list is duplicate-free, has exactly the images, keeps the order of first occurrences, and is refused exactly when an input is or there is none |
| Normalization.ListIsFixedPoint | normalization.go:69-91 | it is a fixed point on its own output |
| Normalization.EveryPortIsReached | normalization.go:178-187 | every port from 1 to 65535 is the value of its own canonical text |
| Urls.Ipv4PrintsBack | normalization.go:140-144 | printing a parsed IPv4 host gives its text back |
| Numbers.ParseUint | normalization.go:182 | the digit loop accepts exactly the digit strings up to the maximum and never wraps |
| Numbers.PrintParsed | normalization.go:186 | printing a parsed number gives its text without leading zeros |

## Left out

- PublishKeepsTheNewest: says nothing about concurrent publishers, because another may refill the freed slot and the status is then dropped
- NotStaleMeansCurrent: does not model 64-bit wrap-around of the generation counter; generations are unbounded naturals
- EverythingIsGivenBack: covers registrations; tokens in rejected renew responses are not unregistered by the code
- RunRenewLoop: time.Until saturates and instants are bounded in Go; here they are unbounded integers
- Collect: whether a descriptor's signature recovers to its address is an arbitrary truth value
- Deadlock, fairness and liveness: only safety is claimed
- failedOnce.Do is one atomic step, and the nested read sections of WaitReady and WaitDatagramReady are one atomic read
- AcceptDatagram, SendDatagram and the datagram queue have the shape of Accept and offer and are not repeated
- The supervisors' key set stands for relaySupervisors, and the ownership of one QUIC connection per supervisor is not modelled
- A signature request returns before the handshake that made it ends, and a cancelled handshake records nothing
- ExposureSupervision ties the exposure to one supervisor at a time; those of the other relays return arbitrary results there
- Expiry tests inside the supervisor machine have arbitrary outcomes; time itself is modelled in Renewal and Registration
- The identity race reads an open file atomically once it has been opened, while a write may be seen half-done, and nobody outside the modelled processes removes the file
- The outcome that ProxyWithConfig reports after its join is not modelled, nor are byte copying and half-closing
- NormalizeTarget, command-line handling, output, directories and permissions
- TLS, QUIC, HTTP, JSON, PEM, certificates and all cryptography: each call is an arbitrary reply
- Input that is not valid UTF-8; characters beyond ASCII have only the lower-case mappings that reach ASCII, since any other is refused afterwards
