/** The live peer table of a gateway's interfaces and the backend that edits it. */
module FleetPeers {
  import opened FleetTypes
  import opened Options

  /** One engine interface; a gateway runs one for each transport version it serves. */
  datatype Interface = Interface(transport: Transport, version: Version)

  /** A peer entry: a key on an interface. */
  datatype Peer = Peer(interface: Interface, key: Key)

  /** An allowed network: the addresses from `lo` to `hi`, or an IPv6 network. */
  datatype Route = Net4(lo: nat, hi: nat) | Net6(net: nat)

  type Table = map<Peer, set<Route>>

  function PeerOf(c: Command): Peer { Peer(Interface(c.transport, c.version), c.key) }

  function HostRoute(c: Command): Route { Net4(c.address, c.address) }

  predicate Covers(r: Route, a: Address) { r.Net4? && r.lo <= a <= r.hi }

  /** Another key of the same interface has a route over the address. */
  predicate Owns(t: Table, p: Peer, c: Command)
    requires p in t
  {
    p.interface == PeerOf(c).interface && p.key != c.key && exists r | r in t[p] :: Covers(r, c.address)
  }

  predicate AddressTaken(t: Table, c: Command) {
    exists p | p in t :: Owns(t, p, c)
  }

  function Conflicts(t: Table, c: Command): Option<Code> {
    if AddressTaken(t, c) then Some(LiveAddressOwned)
    else if PeerOf(c) in t && t[PeerOf(c)] != {HostRoute(c)} then Some(LiveBindingChanged)
    else None
  }

  /** A first claim never adopts a peer that is already there. */
  function Preflight(t: Table, c: Command): Option<Code> {
    if PeerOf(c) in t then Some(UnmanagedLiveKey) else Conflicts(t, c)
  }

  /** The table a command asks for. */
  function Applied(t: Table, c: Command): Table {
    if c.operation.Present? then (if PeerOf(c) in t then t else t[PeerOf(c) := {HostRoute(c)}])
    else t - {PeerOf(c)}
  }

  /** What an operation on an external system may do: succeed, fail before its effect, or fail
      (or lose the caller) after it. */
  datatype Fault = Clean | BeforeEffect | AfterEffect

  /** The operator's listing as a dictionary; a repeated key is refused. */
  method ReadPeers(lines: seq<(Key, set<Route>)>) returns (r: Option<map<Key, set<Route>>>)
    ensures r.Some? <==> forall i, j | 0 <= i < j < |lines| :: lines[i].0 != lines[j].0
    ensures r.Some? ==> && (forall i | 0 <= i < |lines| :: lines[i].0 in r.value && r.value[lines[i].0] == lines[i].1)
                        && (forall k | k in r.value :: exists i :: 0 <= i < |lines| && lines[i].0 == k)
  {
    var peers: map<Key, set<Route>> := map[];
    for n := 0 to |lines|
      invariant forall i, j | 0 <= i < j < n :: lines[i].0 != lines[j].0
      invariant forall i | 0 <= i < n :: lines[i].0 in peers && peers[lines[i].0] == lines[i].1
      invariant forall k | k in peers :: exists i :: 0 <= i < n && lines[i].0 == k
    {
      if lines[n].0 in peers {
        return None;
      }
      peers := peers[lines[n].0 := lines[n].1];
    }
    return Some(peers);
  }

  class WGPeerBackend {
    var peers: Table

    constructor (initial: Table)
      ensures peers == initial
    {
      peers := initial;
    }

    /** Scans the other keys of the interface for a route over the address, then the key itself. */
    method CheckConflicts(c: Command) returns (r: Option<Code>)
      ensures r == Conflicts(peers, c)
    {
      var rest := peers.Keys;
      while rest != {}
        invariant rest <= peers.Keys
        invariant forall p | p in peers && p !in rest :: !Owns(peers, p, c)
        decreases |rest|
      {
        var p :| p in rest;
        if Owns(peers, p, c) {
          return Some(LiveAddressOwned);
        }
        rest := rest - {p};
      }
      if PeerOf(c) in peers && peers[PeerOf(c)] != {HostRoute(c)} {
        return Some(LiveBindingChanged);
      }
      return None;
    }

    /** Brings the table to what the command asks for and confirms it.  `ok` promises that the
        peer is exactly as asked and no other peer moved; on any failure at most this peer moved. */
    method Ensure(c: Command, fault: Fault) returns (ok: bool)
      modifies this
      ensures ok <==> fault.Clean? && Conflicts(old(peers), c).None?
      ensures peers == old(peers) || peers == Applied(old(peers), c)
      ensures ok ==> peers == Applied(old(peers), c)
      ensures Conflicts(old(peers), c).Some? || fault.BeforeEffect? ==> peers == old(peers)
      ensures ok ==> if c.operation.Present? then PeerOf(c) in peers && peers[PeerOf(c)] == {HostRoute(c)}
                     else PeerOf(c) !in peers
      ensures forall p | p != PeerOf(c) ::
        (p in peers <==> p in old(peers)) && (p in peers ==> peers[p] == old(peers)[p])
    {
      var before := peers;
      var conflict := CheckConflicts(c);
      if conflict.Some? || fault.BeforeEffect? {
        return false;
      }
      if c.operation.Present? {
        if PeerOf(c) !in before {
          peers := peers[PeerOf(c) := {HostRoute(c)}];
        }
      } else if PeerOf(c) in before {
        peers := peers - {PeerOf(c)};
      }
      if fault.AfterEffect? {
        return false;
      }
      var others := before - {PeerOf(c)} == peers - {PeerOf(c)};
      var confirmed := if c.operation.Present? then PeerOf(c) in peers && peers[PeerOf(c)] == {HostRoute(c)}
                       else PeerOf(c) !in peers;
      ok := others && confirmed;
    }
  }
}
