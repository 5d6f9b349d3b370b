/** The UDP proxy's flow table: what each lock section of udp_proxy.go does to it. */
module UdpTable {
  import opened Options

  const MAX_FLOWS: nat := 1024
  const IDLE_TIMEOUT: int := 300_000_000_000

  datatype Key = Key(relay: string, flowId: nat)

  /** A frame without its payload. */
  datatype Frame = Frame(relay: string, flowId: nat, udpAddr: string)

  datatype Flow = Flow(key: Key, frame: Frame, lastSeen: int)

  /** objects lists the flows made so far; a flow's identity, like its socket's, is its index, so that two flows under
      one key can be told apart. */
  datatype Table = Table(flows: map<Key, nat>, objects: seq<Flow>, closed: bool)

  const EMPTY: Table := Table(map[], [], false)

  function KeyOf(f: Frame): Key { Key(f.relay, f.flowId) }

  predicate InTable(t: Table, f: nat) {
    f < |t.objects| && t.objects[f].key in t.flows && t.flows[t.objects[f].key] == f
  }

  ghost predicate TableOk(t: Table) {
    && |t.flows| <= MAX_FLOWS
    && (t.closed ==> t.flows == map[])
    && (forall k | k in t.flows :: t.flows[k] < |t.objects| && t.objects[t.flows[k]].key == k)
    && (forall f | 0 <= f < |t.objects| :: KeyOf(t.objects[f].frame) == t.objects[f].key)
  }

  datatype Forwarded = IsClosed | AtCapacity | DialFailed | Reused(flow: nat) | Inserted(flow: nat)

  function Touched(t: Table, f: nat, udpAddr: string, now: int): Table
    requires f < |t.objects|
  {
    var flow := t.objects[f];
    t.(objects := t.objects[f := flow.(frame := flow.frame.(udpAddr := udpAddr), lastSeen := now)])
  }

  function Added(t: Table, frame: Frame, now: int): Table {
    t.(flows := t.flows[KeyOf(frame) := |t.objects|], objects := t.objects + [Flow(KeyOf(frame), frame, now)])
  }

  function ForwardLocked(t: Table, frame: Frame, dialed: bool, now: int): (Table, Forwarded)
    requires TableOk(t)
  {
    var key := KeyOf(frame);
    if t.closed then (t, IsClosed)
    else if key in t.flows then (Touched(t, t.flows[key], frame.udpAddr, now), Reused(t.flows[key]))
    else if |t.flows| >= MAX_FLOWS then (t, AtCapacity)
    else if !dialed then (t, DialFailed)
    else (Added(t, frame, now), Inserted(|t.objects|))
  }

  function RemoveLocked(t: Table, f: nat): Table
    requires f < |t.objects|
  {
    if InTable(t, f) then t.(flows := t.flows - {t.objects[f].key}) else t
  }

  /** None when the flow is no longer the one in the table. */
  function ReadLocked(t: Table, f: nat, now: int): (Table, Option<Frame>)
    requires f < |t.objects|
  {
    if t.closed || !InTable(t, f) then (t, None)
    else (t.(objects := t.objects[f := t.objects[f].(lastSeen := now)]), Some(t.objects[f].frame))
  }

  function Idle(t: Table, now: int): set<Key>
    requires TableOk(t)
  {
    set k | k in t.flows && now - t.objects[t.flows[k]].lastSeen >= IDLE_TIMEOUT
  }

  /** The flows under some keys. */
  function Under(t: Table, keys: set<Key>): set<nat>
    requires keys <= t.flows.Keys
  {
    set k | k in keys :: t.flows[k]
  }

  function ExpireLocked(t: Table, now: int): (Table, set<nat>)
    requires TableOk(t)
  {
    (t.(flows := t.flows - Idle(t, now)), Under(t, Idle(t, now)))
  }

  function CloseLocked(t: Table): (Table, set<nat>) {
    if t.closed then (t, {}) else (t.(flows := map[], closed := true), Under(t, t.flows.Keys))
  }

  // ----- what they keep

  /** A flow keeps its key, and one outside the table is never put back or touched again. */
  ghost predicate Frozen(t: Table, t': Table) {
    && |t.objects| <= |t'.objects|
    && (t.closed ==> t'.closed)
    && (forall f | 0 <= f < |t.objects| :: t'.objects[f].key == t.objects[f].key)
    && forall f | 0 <= f < |t.objects| && !InTable(t, f) :: !InTable(t', f) && t'.objects[f] == t.objects[f]
  }

  lemma TouchKeeps(t: Table, f: nat, udpAddr: string, now: int)
    requires TableOk(t) && InTable(t, f)
    ensures var t' := Touched(t, f, udpAddr, now);
            && TableOk(t') && Frozen(t, t') && |t'.objects| == |t.objects|
            && (forall g | 0 <= g < |t.objects| :: InTable(t', g) == InTable(t, g) && t'.objects[g].key == t.objects[g].key)
  {
  }

  lemma AddKeepsTable(t: Table, frame: Frame, now: int)
    requires TableOk(t) && KeyOf(frame) !in t.flows && |t.flows| < MAX_FLOWS && !t.closed
    ensures TableOk(Added(t, frame, now))
  {
  }

  lemma AddKeeps(t: Table, frame: Frame, now: int)
    requires TableOk(t) && KeyOf(frame) !in t.flows
    ensures var t' := Added(t, frame, now);
            && Frozen(t, t') && InTable(t', |t.objects|)
            && (forall g | 0 <= g < |t.objects| :: InTable(t', g) == InTable(t, g) && t'.objects[g].key == t.objects[g].key)
  {
    var t' := Added(t, frame, now);
    forall g | 0 <= g < |t.objects| ensures InTable(t', g) == InTable(t, g) && t'.objects[g] == t.objects[g] {
      assert t.objects[g].key in t.flows ==> t.flows[t.objects[g].key] < |t.objects|;
    }
  }

  lemma ForwardKeeps(t: Table, frame: Frame, dialed: bool, now: int)
    requires TableOk(t)
    ensures var (t', r) := ForwardLocked(t, frame, dialed, now);
            && TableOk(t') && Frozen(t, t')
            && (forall g | 0 <= g < |t.objects| :: InTable(t', g) == InTable(t, g) && t'.objects[g].key == t.objects[g].key)
            && (r.Reused? ==> InTable(t', r.flow))
            && (r.Inserted? ==> InTable(t', r.flow) && r.flow == |t.objects|)
            && |t'.objects| == (if r.Inserted? then |t.objects| + 1 else |t.objects|)
            && (r.IsClosed? <==> t.closed) && t'.closed == t.closed
  {
    var key := KeyOf(frame);
    if key in t.flows {
      TouchKeeps(t, t.flows[key], frame.udpAddr, now);
    } else {
      AddKeeps(t, frame, now);
      if |t.flows| < MAX_FLOWS && !t.closed {
        AddKeepsTable(t, frame, now);
      }
    }
    assert Frozen(t, t);
    hide Frozen, TableOk;
  }

  lemma RemoveKeeps(t: Table, f: nat)
    requires TableOk(t) && f < |t.objects|
    ensures var t' := RemoveLocked(t, f);
            && TableOk(t') && Frozen(t, t') && t'.objects == t.objects && t'.closed == t.closed
            && forall g: nat :: InTable(t', g) <==> InTable(t, g) && g != f
  {
    assert |t.flows - {t.objects[f].key}| <= |t.flows| by {
      FewerKeys(t.flows, {t.objects[f].key});
    }
  }

  lemma FewerKeys(m: map<Key, nat>, gone: set<Key>)
    ensures |m - gone| <= |m|
  {
    assert (m - gone).Keys <= m.Keys;
    assert |m| == |m.Keys| && |m - gone| == |(m - gone).Keys|;
    assert m.Keys == (m - gone).Keys + (m.Keys - (m - gone).Keys);
  }

  lemma ReadKeeps(t: Table, f: nat, now: int)
    requires TableOk(t) && f < |t.objects|
    ensures var (t', frame) := ReadLocked(t, f, now);
            && TableOk(t') && Frozen(t, t') && t'.flows == t.flows && t'.closed == t.closed && |t'.objects| == |t.objects|
            && (forall g: nat :: InTable(t', g) == InTable(t, g))
            && (forall g | 0 <= g < |t.objects| :: t'.objects[g].key == t.objects[g].key)
            && (frame.Some? <==> InTable(t, f))
            && (frame.Some? ==> KeyOf(frame.value) == t.objects[f].key)
  {
  }

  lemma ExpireKeeps(t: Table, now: int)
    requires TableOk(t)
    ensures var (t', expired) := ExpireLocked(t, now);
            && TableOk(t') && Frozen(t, t') && t'.objects == t.objects && t'.closed == t.closed
            && (forall g: nat :: InTable(t', g) <==> InTable(t, g) && g !in expired)
            && (forall g: nat | g in expired :: InTable(t, g) && now - t.objects[g].lastSeen >= IDLE_TIMEOUT)
  {
    FewerKeys(t.flows, Idle(t, now));
    var expired := ExpireLocked(t, now).1;
    forall k | k in Idle(t, now) ensures t.flows[k] in expired {
    }
  }

  lemma CloseKeeps(t: Table)
    requires TableOk(t)
    ensures var (t', flows) := CloseLocked(t);
            && TableOk(t') && Frozen(t, t') && t'.objects == t.objects && t'.closed
            && (forall g: nat :: !InTable(t', g))
            && (forall g: nat :: g in flows <==> InTable(t, g))
  {
    var flows := CloseLocked(t).1;
    forall g: nat | InTable(t, g) ensures g in flows {
      assert t.objects[g].key in t.flows.Keys;
    }
  }

  function Members(s: seq<nat>): set<nat> { set f | f in s }

  lemma NothingReleased(t: Table)
    ensures Members([]) == {} == Under(t, {})
  {
  }

  lemma IdleInTable(t: Table, now: int)
    requires TableOk(t)
    ensures Idle(t, now) <= t.flows.Keys
  {
  }

  lemma IsIdle(t: Table, key: Key, now: int)
    requires TableOk(t) && key in t.flows
    ensures t.flows[key] < |t.objects|
    ensures key in Idle(t, now) <==> now - t.objects[t.flows[key]].lastSeen >= IDLE_TIMEOUT
  {
  }

  lemma ExpireMeans(t: Table, now: int, left: map<Key, nat>, expired: seq<nat>)
    requires TableOk(t) && left == t.flows - Idle(t, now) && Idle(t, now) <= t.flows.Keys
    requires Members(expired) == Under(t, Idle(t, now))
    ensures forall k | k in t.flows :: t.flows[k] < |t.objects|
    ensures forall k | k in t.flows :: k in left <==> now - t.objects[t.flows[k]].lastSeen < 300_000_000_000
    ensures forall f :: f in expired <==> exists k | k in t.flows :: k !in left && f == t.flows[k]
  {
    forall f ensures f in expired <==> exists k | k in t.flows :: k !in left && f == t.flows[k] {
      assert f in expired <==> f in Members(expired);
    }
  }

  /** Taking one more flow out of the table and noting its socket. */
  lemma Release(t: Table, gone: set<Key>, key: Key, released: seq<nat>)
    requires gone <= t.flows.Keys && key in t.flows && Members(released) == Under(t, gone)
    ensures Members(released + [t.flows[key]]) == Under(t, gone + {key})
    ensures t.flows - gone - {key} == t.flows - (gone + {key})
  {
    assert Members(released + [t.flows[key]]) == Members(released) + {t.flows[key]};
    assert Under(t, gone + {key}) == Under(t, gone) + {t.flows[key]};
  }

  // ----- the manager

  class FlowManager {
    var flows: map<Key, nat>
    var objects: seq<Flow>
    var closed: bool

    ghost function View(): Table
      reads this
    {
      Table(flows, objects, closed)
    }

    constructor ()
      ensures View() == EMPTY
    {
      flows, objects, closed := map[], [], false;
    }

    /** The locked part of forward; dialed is whether net.DialUDP succeeds. */
    method Forward(frame: Frame, dialed: bool, now: int) returns (r: Forwarded)
      requires TableOk(View())
      modifies this
      ensures (View(), r) == ForwardLocked(old(View()), frame, dialed, now)
      // the flow to write to is the one in the table, was just seen, and replies to where this frame came from
      ensures r.Reused? || r.Inserted? ==>
                InTable(View(), r.flow) && objects[r.flow].lastSeen == now && objects[r.flow].frame == frame
      // a closed table takes nothing; a known flow is reused; a new one is refused exactly at 1024 flows or if the dial fails
      ensures r.IsClosed? <==> old(closed)
      ensures r.Reused? <==> !old(closed) && KeyOf(frame) in old(flows)
      ensures r.AtCapacity? <==> !old(closed) && KeyOf(frame) !in old(flows) && |old(flows)| >= 1024
      ensures r.DialFailed? <==> !old(closed) && KeyOf(frame) !in old(flows) && |old(flows)| < 1024 && !dialed
      // reuse keeps the flow itself, an insertion makes one, and a refusal changes nothing
      ensures r.Reused? ==> flows == old(flows) && r.flow == flows[KeyOf(frame)]
      ensures r.Inserted? ==> r.flow == |old(objects)| && flows == old(flows)[KeyOf(frame) := r.flow]
      ensures forall f | 0 <= f < |old(objects)| && !(r.Reused? && f == r.flow) :: f < |objects| && objects[f] == old(objects)[f]
      ensures !r.Reused? && !r.Inserted? ==> View() == old(View())
      ensures TableOk(View())
    {
      var key := KeyOf(frame);
      if closed {
        return IsClosed;
      }
      if key !in flows {
        if |flows| >= MAX_FLOWS {
          return AtCapacity;
        }
        if !dialed {
          return DialFailed;
        }
        var f := |objects|;
        objects := objects + [Flow(key, frame, now)];
        flows := flows[key := f];
        return Inserted(f);
      }
      var f := flows[key];
      objects := objects[f := objects[f].(frame := objects[f].frame.(udpAddr := frame.udpAddr))];
      objects := objects[f := objects[f].(lastSeen := now)];
      assert objects == old(objects)[f := objects[f]];
      return Reused(f);
    }

    method Remove(f: nat)
      requires f < |objects|
      modifies `flows
      ensures View() == RemoveLocked(old(View()), f)
      // the flow is gone, and no other flow is: not even one that has taken its key over
      ensures !InTable(View(), f)
      ensures forall k | k in old(flows) && old(flows)[k] != f :: k in flows && flows[k] == old(flows)[k]
    {
      if objects[f].key in flows && flows[objects[f].key] == f {
        flows := flows - {objects[f].key};
      }
    }

    /** The locked part of readResponses. */
    method Read(f: nat, now: int) returns (frame: Option<Frame>)
      requires f < |objects|
      modifies `objects
      ensures (View(), frame) == ReadLocked(old(View()), f, now)
      // a flow in an open table was just seen and replies as its frame says; nothing else changes
      ensures frame.Some? <==> !old(closed) && InTable(old(View()), f)
      ensures objects == old(objects)[f := if frame.Some? then Flow(old(objects)[f].key, old(objects)[f].frame, now) else old(objects)[f]]
      ensures frame.Some? ==> frame.value == old(objects)[f].frame
    {
      if closed || objects[f].key !in flows || flows[objects[f].key] != f {
        return None;
      }
      objects := objects[f := objects[f].(lastSeen := now)];
      return Some(objects[f].frame);
    }

    /** One tick of cleanupLoop, visiting the map in any order. */
    method CleanupTick(now: int) returns (expired: seq<nat>)
      requires TableOk(View())
      modifies `flows
      ensures (View(), Members(expired)) == ExpireLocked(old(View()), now)
      // a flow stays exactly if it has been seen within the last five minutes
      ensures forall k | k in old(flows) :: k in flows <==> now - old(objects)[old(flows)[k]].lastSeen < 300_000_000_000
      ensures forall f :: f in expired <==> exists k | k in old(flows) :: k !in flows && f == old(flows)[k]
    {
      hide Under, Idle, Members, TableOk;
      expired := [];
      ghost var t := View();
      ghost var idle := Idle(t, now);
      ghost var gone: set<Key> := {};
      var pending := flows.Keys;
      NothingReleased(t);
      IdleInTable(t, now);
      while pending != {}
        invariant objects == t.objects && closed == t.closed && pending <= t.flows.Keys
        invariant gone == idle - pending && gone <= t.flows.Keys && flows == t.flows - gone
        invariant Members(expired) == Under(t, gone)
        decreases |pending|
      {
        var key :| key in pending;
        pending := pending - {key};
        IsIdle(t, key, now);
        if now - objects[flows[key]].lastSeen >= IDLE_TIMEOUT {
          Release(t, gone, key, expired);
          gone := gone + {key};
          expired := expired + [flows[key]];
          flows := flows - {key};
        }
      }
      assert gone == idle;
      ExpireMeans(t, now, flows, expired);
    }

    /** close, up to the point where it releases the lock. */
    method Close() returns (released: seq<nat>)
      modifies `flows, `closed
      ensures (View(), Members(released)) == CloseLocked(old(View()))
    {
      hide Under, Members;
      released := [];
      ghost var t := View();
      NothingReleased(t);
      if closed {
        return;
      }
      closed := true;
      ghost var gone: set<Key> := {};
      var pending := flows.Keys;
      while pending != {}
        invariant closed && objects == t.objects && pending <= t.flows.Keys
        invariant gone == t.flows.Keys - pending && flows == t.flows - gone
        invariant Members(released) == Under(t, gone)
        decreases |pending|
      {
        var key :| key in pending;
        pending := pending - {key};
        Release(t, gone, key, released);
        gone := gone + {key};
        released := released + [flows[key]];
        flows := flows - {key};
      }
      assert gone == t.flows.Keys;
    }
  }
}
