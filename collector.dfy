/**
 * The collection pipeline: one record per roster node, built from the
 * batched address lookup, the peer-status service and the activity prober.
 */
module Collector {
  import opened Records
  import opened Roster
  import opened Resolver
  import opened Prober

  /**
   * The peer-status service's answer: the four fields the collector reads
   * (each absent or present) and the number of other fields.
   */
  datatype PeerInfo = PeerInfo(
    peerName: Option<string>,
    online: Option<bool>,
    score: Option<int>,
    reward: Option<int>,
    otherFields: nat)

  /** `if not peer_info`: the fetch failed or the object is empty. */
  predicate Missing(peer: Option<PeerInfo>) {
    peer.None?
    || (peer.value.peerName.None? && peer.value.online.None? && peer.value.score.None?
        && peer.value.reward.None? && peer.value.otherFields == 0)
  }

  function GetOr<T>(o: Option<T>, default: T): T {
    if o.Some? then o.value else default
  }

  /** `eoa_addresses.get(node_id)`: absent when the id is not a key or maps to nothing. */
  function Lookup(table: map<string, Option<string>>, id: string): Option<string> {
    if id in table then table[id] else None
  }

  /**
   * The clock while one node is handled: the epoch seconds the prober
   * measures ages against, and the ISO 8601 text stamped on the record.
   */
  datatype Instant = Instant(epochSeconds: real, isoText: string)

  /** What the chain side of one cycle gives the address resolver. */
  datatype ChainAccess = ChainAccess(initialised: bool, connected: bool, reconnected: bool, call: nat -> CallOutcome)

  /**
   * `collect_node_data`. `peers[i]` is the peer service's answer for the
   * `i`-th node and `clock[i]` the clock while that node is handled.
   * Returns the records and the addresses handed to the prober, in order.
   */
  method CollectNodeData(nodes: seq<NodeDescriptor>, chain: ChainAccess, peers: seq<Option<PeerInfo>>,
                         fetch: string -> HttpOutcome, iso: IsoParser, clock: seq<Instant>)
    returns (records: seq<NodeRecord>, probed: seq<string>)
    requires |peers| == |nodes| && |clock| == |nodes|
    ensures |records| == |nodes|
    ensures var table := BatchTable(Ids(nodes), chain.initialised, chain.connected, chain.reconnected, chain.call);
      forall i :: 0 <= i < |nodes| ==>
        records[i] == RecordFor(nodes[i], Lookup(table, nodes[i].nodeId), peers[i], fetch, iso, clock[i])
    ensures probed == ProbedAddresses(nodes, BatchTable(Ids(nodes), chain.initialised, chain.connected, chain.reconnected, chain.call), peers)
  {
    var table := ResolveAddresses(Ids(nodes), chain);
    records, probed := RecordAll(nodes, table, peers, fetch, iso, clock);
    RecordsUpToAt(nodes, table, peers, fetch, iso, clock, |nodes|);
  }

  /** The per-node loop of `collect_node_data`, against an already resolved table. */
  method RecordAll(nodes: seq<NodeDescriptor>, table: map<string, Option<string>>, peers: seq<Option<PeerInfo>>,
                   fetch: string -> HttpOutcome, iso: IsoParser, clock: seq<Instant>)
    returns (records: seq<NodeRecord>, probed: seq<string>)
    requires |peers| == |nodes| && |clock| == |nodes|
    ensures records == RecordsUpTo(nodes, table, peers, fetch, iso, clock, |nodes|)
    ensures probed == ProbedAddresses(nodes, table, peers)
  {
    records, probed := [], [];
    for i := 0 to |nodes|
      invariant records == RecordsUpTo(nodes, table, peers, fetch, iso, clock, i)
      invariant probed == ProbedUpTo(nodes, table, peers, i)
    {
      var record, prober := NodeRecordOf(nodes[i], Lookup(table, nodes[i].nodeId), peers[i], fetch, iso, clock[i]);
      records := records + [record];
      probed := probed + prober;
    }
  }

  /** The records of the first `n` nodes, in order. */
  function RecordsUpTo(nodes: seq<NodeDescriptor>, table: map<string, Option<string>>, peers: seq<Option<PeerInfo>>,
                       fetch: string -> HttpOutcome, iso: IsoParser, clock: seq<Instant>, n: nat): seq<NodeRecord>
    requires |peers| == |nodes| && |clock| == |nodes| && n <= |nodes|
  {
    if n == 0 then []
    else
      RecordsUpTo(nodes, table, peers, fetch, iso, clock, n - 1)
        + [RecordFor(nodes[n - 1], Lookup(table, nodes[n - 1].nodeId), peers[n - 1], fetch, iso, clock[n - 1])]
  }

  /** The `i`-th of the first `n` records is the record of node `i`. */
  lemma {:induction false} RecordsUpToAt(nodes: seq<NodeDescriptor>, table: map<string, Option<string>>,
                                         peers: seq<Option<PeerInfo>>, fetch: string -> HttpOutcome,
                                         iso: IsoParser, clock: seq<Instant>, n: nat)
    requires |peers| == |nodes| && |clock| == |nodes| && n <= |nodes|
    ensures var r := RecordsUpTo(nodes, table, peers, fetch, iso, clock, n);
      |r| == n && forall i :: 0 <= i < n ==>
        r[i] == RecordFor(nodes[i], Lookup(table, nodes[i].nodeId), peers[i], fetch, iso, clock[i])
  {
    if n > 0 {
      RecordsUpToAt(nodes, table, peers, fetch, iso, clock, n - 1);
    }
  }

  /** The batched address lookup of one cycle, against the cycle's chain access. */
  method ResolveAddresses(ids: seq<string>, chain: ChainAccess) returns (table: map<string, Option<string>>)
    ensures table == BatchTable(ids, chain.initialised, chain.connected, chain.reconnected, chain.call)
  {
    var attempts;
    table, attempts := GetEoaAddressesBatch(ids, chain.initialised, chain.connected, chain.reconnected, chain.call);
  }

  /**
   * The body of the loop for one node: the record, and the address handed
   * to the prober (none when the peer info is missing or the address falsy).
   */
  method NodeRecordOf(node: NodeDescriptor, address: Option<string>, peer: Option<PeerInfo>,
                      fetch: string -> HttpOutcome, iso: IsoParser, at: Instant)
    returns (record: NodeRecord, probed: seq<string>)
    ensures record == RecordFor(node, address, peer, fetch, iso, at)
    ensures probed == if !Missing(peer) && AddressTruthy(address) then [address.value] else []
  {
    probed := [];
    if Missing(peer) {
      record := NodeRecord(node.nodeId, node.customName, "UNKNOWN", node.hardwareType,
                           address, 0, 0, false, None, at.isoText);
      return;
    }
    var p := peer.value;
    var lastTx: Option<int> := None;
    if AddressTruthy(address) {
      var requested;
      lastTx, requested := GetLastInternalTxTime(address.value, fetch, iso, at.epochSeconds);
      probed := [address.value];
    }
    record := NodeRecord(node.nodeId, node.customName, GetOr(p.peerName, "Unknown"),
                         node.hardwareType, address, GetOr(p.score, 0), GetOr(p.reward, 0),
                         GetOr(p.online, false), lastTx, at.isoText);
  }

  /**
   * A record carries its node's id, name and hardware class and the
   * resolved address. Without peer info it is fixed: `UNKNOWN`, no wins, no
   * rewards, offline, no activity. With peer info the peer's `score` becomes
   * the record's `reward` and the peer's `reward` its `score`, each defaulting
   * to 0, and the activity is probed only for a truthy address.
   */
  lemma RecordForFields(node: NodeDescriptor, address: Option<string>, peer: Option<PeerInfo>,
                        fetch: string -> HttpOutcome, iso: IsoParser, at: Instant)
    ensures var r := RecordFor(node, address, peer, fetch, iso, at);
      && r.id == node.nodeId && r.customName == node.customName && r.hardwareType == node.hardwareType
      && r.address == address && r.timestamp == at.isoText
      && (Missing(peer) ==>
            r.apiName == "UNKNOWN" && r.reward == 0 && r.score == 0 && !r.online && r.lastTxMinutesAgo == None)
      && (!Missing(peer) ==>
            && r.apiName == GetOr(peer.value.peerName, "Unknown")
            && r.reward == GetOr(peer.value.score, 0)
            && r.score == GetOr(peer.value.reward, 0)
            && r.online == GetOr(peer.value.online, false)
            && r.lastTxMinutesAgo == if AddressTruthy(address) then Probe(address.value, fetch, iso, at.epochSeconds) else None)
  {
  }

  /** The node ids of the roster, in order. */
  function Ids(nodes: seq<NodeDescriptor>): (ids: seq<string>)
    ensures |ids| == |nodes| && forall i :: 0 <= i < |nodes| ==> ids[i] == nodes[i].nodeId
  {
    if nodes == [] then [] else [nodes[0].nodeId] + Ids(nodes[1..])
  }

  /** The record of one node (the two dictionaries `collect_node_data` builds). */
  function RecordFor(node: NodeDescriptor, address: Option<string>, peer: Option<PeerInfo>,
                     fetch: string -> HttpOutcome, iso: IsoParser, at: Instant): (r: NodeRecord)
    ensures r.id == node.nodeId && r.customName == node.customName && r.hardwareType == node.hardwareType
    ensures r.address == address && r.timestamp == at.isoText
    ensures r.lastTxMinutesAgo.Some? ==> !Missing(peer) && AddressTruthy(address)
    ensures Missing(peer) ==> r.apiName == "UNKNOWN" && !r.online
  {
    if Missing(peer) then
      NodeRecord(node.nodeId, node.customName, "UNKNOWN", node.hardwareType, address, 0, 0, false, None, at.isoText)
    else
      var p := peer.value;
      NodeRecord(node.nodeId, node.customName, GetOr(p.peerName, "Unknown"), node.hardwareType, address,
                 GetOr(p.score, 0), GetOr(p.reward, 0), GetOr(p.online, false),
                 if AddressTruthy(address) then Probe(address.value, fetch, iso, at.epochSeconds) else None, at.isoText)
  }

  /** The address the prober gets for node `i`, if it gets one. */
  function ProbedAt(nodes: seq<NodeDescriptor>, table: map<string, Option<string>>,
                    peers: seq<Option<PeerInfo>>, i: nat): seq<string>
    requires |peers| == |nodes| && i < |nodes|
  {
    var address := Lookup(table, nodes[i].nodeId);
    if !Missing(peers[i]) && AddressTruthy(address) then [address.value] else []
  }

  /** The addresses the prober is called with for the first `n` nodes, in order. */
  function ProbedUpTo(nodes: seq<NodeDescriptor>, table: map<string, Option<string>>,
                      peers: seq<Option<PeerInfo>>, n: nat): seq<string>
    requires |peers| == |nodes| && n <= |nodes|
  {
    if n == 0 then [] else ProbedUpTo(nodes, table, peers, n - 1) + ProbedAt(nodes, table, peers, n - 1)
  }

  /** The addresses the prober is called with: those of nodes with peer info and a truthy address, in order. */
  function ProbedAddresses(nodes: seq<NodeDescriptor>, table: map<string, Option<string>>,
                           peers: seq<Option<PeerInfo>>): seq<string>
    requires |peers| == |nodes|
  {
    ProbedUpTo(nodes, table, peers, |nodes|)
  }

  /** Every address probed among the first `n` nodes is resolved for one of them that has peer info. */
  lemma {:induction false} ProbedUpToResolved(nodes: seq<NodeDescriptor>, table: map<string, Option<string>>,
                                              peers: seq<Option<PeerInfo>>, n: nat)
    requires |peers| == |nodes| && n <= |nodes|
    ensures |ProbedUpTo(nodes, table, peers, n)| <= n
    ensures forall a :: a in ProbedUpTo(nodes, table, peers, n) ==>
      a != "" && exists i :: 0 <= i < n && !Missing(peers[i]) && Lookup(table, nodes[i].nodeId) == Some(a)
  {
    if n > 0 {
      ProbedUpToResolved(nodes, table, peers, n - 1);
      forall a | a in ProbedUpTo(nodes, table, peers, n)
        ensures a != "" && exists i :: 0 <= i < n && !Missing(peers[i]) && Lookup(table, nodes[i].nodeId) == Some(a)
      {
        if a !in ProbedUpTo(nodes, table, peers, n - 1) {
          assert !Missing(peers[n - 1]) && Lookup(table, nodes[n - 1].nodeId) == Some(a);
        }
      }
    }
  }

  /**
   * The prober is called only with addresses the table resolved for a node
   * that has peer info, and never with the empty string.
   */
  lemma ProbedAreResolved(nodes: seq<NodeDescriptor>, table: map<string, Option<string>>,
                          peers: seq<Option<PeerInfo>>)
    requires |peers| == |nodes|
    ensures |ProbedAddresses(nodes, table, peers)| <= |nodes|
    ensures forall a :: a in ProbedAddresses(nodes, table, peers) ==>
      a != "" && exists i :: 0 <= i < |nodes| && !Missing(peers[i]) && Lookup(table, nodes[i].nodeId) == Some(a)
  {
    ProbedUpToResolved(nodes, table, peers, |nodes|);
  }

  /** The batch table never holds the zero address. */
  lemma BatchTableNoZero(ids: seq<string>, chain: ChainAccess, id: string)
    ensures Lookup(BatchTable(ids, chain.initialised, chain.connected, chain.reconnected, chain.call), id)
      != Some(ZeroAddress)
  {
  }

  /** A node whose address resolves to the zero address (or to nothing) is never probed. */
  lemma ZeroAddressNeverProbed(nodes: seq<NodeDescriptor>, chain: ChainAccess, peers: seq<Option<PeerInfo>>)
    requires |peers| == |nodes|
    ensures ZeroAddress !in ProbedAddresses(nodes, BatchTable(Ids(nodes), chain.initialised, chain.connected,
                                                              chain.reconnected, chain.call), peers)
  {
    var table := BatchTable(Ids(nodes), chain.initialised, chain.connected, chain.reconnected, chain.call);
    ProbedAreResolved(nodes, table, peers);
  }
}
