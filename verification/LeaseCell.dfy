/** The lease that a supervisor and its workers share under leaseMu, and the generation counter beside it. */
module LeaseCell {
  import opened Options

  /** tenant numbers the terminators built over the life of the supervisor. The empty token is no lease. */
  datatype Lease = Lease(
    token: string,
    capability: string,
    tenant: Option<nat>,
    generation: nat,
    renewing: bool,
    tokenUncertain: bool)

  const NO_LEASE: Lease := Lease("", "", None, 0, false, false)

  datatype Cell = Cell(lease: Lease, nextGeneration: nat)

  function TakeGeneration(c: Cell): Cell { c.(nextGeneration := c.nextGeneration + 1) }

  function Registered(c: Cell, token: string, capability: string, tenant: nat, generation: nat): Cell {
    c.(lease := Lease(token, capability, Some(tenant), generation, false, false))
  }

  predicate MayBeginRenewal(c: Cell, token: string, generation: nat) {
    c.lease.token == token && c.lease.generation == generation && !c.lease.renewing
  }

  function RenewalBegun(c: Cell): Cell {
    c.(lease := c.lease.(tokenUncertain := true, renewing := true))
  }

  function RenewalEnded(c: Cell, generation: nat): Cell {
    if c.lease.generation == generation then c.(lease := c.lease.(renewing := false)) else c
  }

  predicate MayInstallRenewal(c: Cell, token: string, generation: nat) {
    c.lease.token == token && c.lease.generation == generation
  }

  function Renewed(c: Cell, token: string, capability: string): Cell {
    Cell(c.lease.(token := token, capability := capability, renewing := false, tokenUncertain := false,
                  generation := c.nextGeneration + 1),
         c.nextGeneration + 1)
  }

  function Cleared(c: Cell): Cell { c.(lease := NO_LEASE) }

  predicate ReverseStale(l: Lease, capability: string, generation: nat) {
    l.capability != capability || l.generation != generation || l.renewing
  }

  predicate DatagramStale(l: Lease, token: string, generation: nat) {
    l.token != token || l.generation != generation || l.renewing
  }

  predicate SignerStale(l: Lease, generation: nat) {
    l.generation != generation || l.renewing || l.tokenUncertain
  }

  /** The fields of relaySupervisor under leaseMu; each method is one lock section. */
  class SharedLease {
    var token: string
    var capability: string
    var tenant: Option<nat>
    var generation: nat
    var renewing: bool
    var tokenUncertain: bool
    var nextLeaseGeneration: nat

    ghost function View(): Cell
      reads this
    {
      Cell(Lease(token, capability, tenant, generation, renewing, tokenUncertain), nextLeaseGeneration)
    }

    constructor ()
      ensures View() == Cell(NO_LEASE, 0)
    {
      token, capability, tenant := "", "", None;
      generation, renewing, tokenUncertain, nextLeaseGeneration := 0, false, false, 0;
    }

    method BeginRenewal(expected: string, expectedGeneration: nat) returns (begun: bool)
      modifies `renewing, `tokenUncertain
      ensures begun == MayBeginRenewal(old(View()), expected, expectedGeneration)
      ensures View() == if begun then RenewalBegun(old(View())) else old(View())
      // no failed request is held against the lease while its renewal is under way
      ensures begun ==> forall g: nat :: SignerStale(View().lease, g) && DatagramStale(View().lease, expected, g)
    {
      if token != expected || generation != expectedGeneration || renewing {
        return false;
      }
      tokenUncertain := true;
      renewing := true;
      return true;
    }

    method EndRenewal(expectedGeneration: nat)
      modifies `renewing
      ensures View() == RenewalEnded(old(View()), expectedGeneration)
    {
      if generation == expectedGeneration {
        renewing := false;
      }
    }

    method InstallRenewal(expected: string, expectedGeneration: nat, newToken: string, newCapability: string)
      returns (installed: bool)
      modifies this
      ensures installed == MayInstallRenewal(old(View()), expected, expectedGeneration)
      ensures View() == if installed then Renewed(old(View()), newToken, newCapability) else old(View())
      // whatever was sent under an earlier generation is stale from now on, even if the relay repeats itself
      ensures installed ==> forall g: nat | g <= old(nextLeaseGeneration) ::
                SignerStale(View().lease, g) && DatagramStale(View().lease, newToken, g) && ReverseStale(View().lease, newCapability, g)
    {
      if token != expected || generation != expectedGeneration {
        return false;
      }
      nextLeaseGeneration := nextLeaseGeneration + 1;
      token := newToken;
      capability := newCapability;
      renewing := false;
      tokenUncertain := false;
      generation := nextLeaseGeneration;
      return true;
    }

    method ClearLease() returns (released: Option<nat>)
      modifies this
      ensures View() == Cleared(old(View())) && released == old(tenant)
      // a renewal that was under way can no longer be installed
      ensures old(token) != "" ==> forall g: nat :: !MayInstallRenewal(View(), old(token), g)
    {
      released := tenant;
      token, capability, tenant := "", "", None;
      generation, renewing, tokenUncertain := 0, false, false;
    }
  }
}
