/** proxy.go's two shared objects. Each method is one lock section followed by the closes that it decides on, which it
    returns; ProxyPairs interleaves these with the goroutines around them. */
module Proxy {
  import opened Options

  class ProxyPair {
    const relay: nat
    var local: Option<nat>
    var closed: bool

    constructor (relay: nat)
      ensures this.relay == relay && local == None && !closed
    {
      this.relay := relay;
      local := None;
      closed := false;
    }

    ghost predicate Owns(conn: nat)
      reads `local
    {
      conn == relay || local == Some(conn)
    }

    /** A connection dialled for a pair that has been closed meanwhile is closed at once and not stored. */
    method SetLocal(conn: nat) returns (stored: bool, shut: multiset<nat>)
      modifies `local
      ensures stored <==> !closed
      ensures if stored then local == Some(conn) && shut == multiset{}
              else local == old(local) && shut == multiset{conn}
    {
      if closed {
        return false, multiset{conn};
      }
      local := Some(conn);
      return true, multiset{};
    }

    /** The first call closes what the pair owns; later ones close nothing. */
    method Close() returns (shut: multiset<nat>)
      requires local != Some(relay)
      modifies `closed
      ensures closed
      ensures forall conn :: shut[conn] == if !old(closed) && Owns(conn) then 1 else 0
    {
      if closed {
        return multiset{};
      }
      closed := true;
      shut := multiset{relay};
      if local.Some? {
        shut := shut + multiset{local.value};
      }
    }
  }

  class ActiveProxyPairs {
    var pairs: set<ProxyPair>

    constructor ()
      ensures pairs == {}
    {
      pairs := {};
    }

    method Add(pair: ProxyPair)
      modifies this
      ensures pairs == old(pairs) + {pair}
    {
      pairs := pairs + {pair};
    }

    method Remove(pair: ProxyPair)
      modifies this
      ensures pairs == old(pairs) - {pair}
    {
      pairs := pairs - {pair};
    }

    /** No connection belongs to two pairs, or twice to one. */
    ghost predicate Apart()
      reads this, pairs
    {
      && (forall p | p in pairs :: p.local != Some(p.relay))
      && forall p, q, conn: nat | p in pairs && q in pairs && p.Owns(conn) && q.Owns(conn) :: p == q
    }

    ghost predicate OpenHere(conn: nat)
      reads this, pairs
    {
      exists p :: p in pairs && !p.closed && p.Owns(conn)
    }

    /** Visiting the snapshot in any order, closeAll closes each connection of an open pair exactly once and nothing
        else, and leaves every pair closed. */
    method CloseAll() returns (shut: multiset<nat>)
      requires Apart()
      modifies pairs
      ensures pairs == old(pairs) && forall p | p in pairs :: p.closed && p.local == old(p.local)
      ensures forall conn: nat :: shut[conn] == if old(OpenHere(conn)) then 1 else 0
    {
      shut := multiset{};
      var rest := pairs;
      while rest != {}
        invariant rest <= pairs == old(pairs)
        invariant forall p | p in pairs :: p.local == old(p.local)
        invariant forall p | p in pairs - rest :: p.closed
        invariant forall p | p in rest :: p.closed == old(p.closed)
        invariant forall p, conn: nat | p in rest && p.Owns(conn) :: shut[conn] == 0
        invariant forall p, conn: nat | p in pairs - rest && p.Owns(conn) :: shut[conn] == if old(p.closed) then 0 else 1
        invariant forall conn | conn in shut :: exists p :: p in pairs && p.Owns(conn)
        decreases |rest|
      {
        var p :| p in rest;
        rest := rest - {p};
        label Before:
        ghost var was := shut;
        var more := p.Close();
        shut := shut + more;
        forall q, conn: nat | q in pairs && q != p && q.Owns(conn) ensures shut[conn] == was[conn] {
          assert !p.Owns(conn);
        }
        assert forall conn | conn in more :: p.Owns(conn);
      }
    }
  }
}
