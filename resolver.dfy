/**
 * The address resolver: one batched contract read maps node ids to the
 * on-chain accounts bound to them, with a bounded retry on failure.
 */
module Resolver {
  import opened Records

  /** `max_retries`: the number of contract calls attempted per batch. */
  const MaxRetries: nat := 3

  /** What one contract call gives: the returned address list, or an exception. */
  datatype CallOutcome = Returned(addresses: seq<string>) | Raised

  /** The resolved address for the id at position `i`: absent past the end of the list or for the zero address. */
  function EntryAt(i: nat, returned: seq<string>): Option<string> {
    if i < |returned| && returned[i] != ZeroAddress then Some(returned[i]) else None
  }

  /** The last position of `id` in `ids`. */
  function LastIndex(ids: seq<string>, id: string): (k: nat)
    requires id in ids
    ensures k < |ids| && ids[k] == id
    ensures forall j :: k < j < |ids| ==> ids[j] != id
  {
    if ids[|ids| - 1] == id then |ids| - 1 else LastIndex(ids[..|ids| - 1], id)
  }

  /**
   * The id-to-address table `get_eoa_addresses_batch` builds from a returned list: every id
   * is a key, and a repeated id gets the entry of its last position.
   */
  function Resolved(ids: seq<string>, returned: seq<string>): (t: map<string, Option<string>>)
    ensures t.Keys == set id | id in ids
    ensures forall id :: id in t && t[id].Some? ==> t[id].value != ZeroAddress && t[id].value in returned
  {
    map id | id in ids :: EntryAt(LastIndex(ids, id), returned)
  }

  /** The table of a batch whose calls all failed: every id unresolved. */
  function AllUnresolved(ids: seq<string>): map<string, Option<string>> {
    map id | id in ids :: None
  }

  /** The first attempt, from attempt `k` on, whose call returns. */
  function FirstReturned(call: nat -> CallOutcome, k: nat): (r: Option<nat>)
    requires k <= MaxRetries
    ensures r.Some? ==>
      && k <= r.value < MaxRetries && call(r.value).Returned?
      && forall j :: k <= j < r.value ==> call(j).Raised?
    ensures r.None? ==> forall j :: k <= j < MaxRetries ==> call(j).Raised?
    decreases MaxRetries - k
  {
    if k == MaxRetries then None
    else if call(k).Returned? then Some(k)
    else FirstReturned(call, k + 1)
  }

  /**
   * The table a batch yields: empty when the client is not initialised or
   * cannot connect, the resolved table of the first call that returns, or
   * all ids unresolved when every attempt raises.
   */
  function BatchTable(ids: seq<string>, initialised: bool, connected: bool, reconnected: bool,
                      call: nat -> CallOutcome): (t: map<string, Option<string>>)
    ensures t == map[] || t.Keys == set id | id in ids
    ensures forall id :: id in t ==> t[id] != Some(ZeroAddress)
  {
    if !initialised || (!connected && !reconnected) then map[]
    else match FirstReturned(call, 0)
      case Some(k) => Resolved(ids, call(k).addresses)
      case None => AllUnresolved(ids)
  }

  /** Extending the ids by one position overwrites that id's entry and keeps the others. */
  lemma ResolvedSnoc(ids: seq<string>, i: nat, returned: seq<string>)
    requires i < |ids|
    ensures Resolved(ids[..i + 1], returned) == Resolved(ids[..i], returned)[ids[i] := EntryAt(i, returned)]
  {
    var pre, next := ids[..i], ids[..i + 1];
    assert next[..i] == pre;
    forall id | id in next
      ensures EntryAt(LastIndex(next, id), returned)
        == Resolved(pre, returned)[ids[i] := EntryAt(i, returned)][id]
    {
      if id != ids[i] {
        assert id in pre;
      }
    }
  }

  /**
   * `get_eoa_addresses_batch`. `initialised` says the contract and the web3
   * client exist, `connected` that the client reports a connection, and
   * `reconnected` that re-running the connection setup brought it back; the
   * `k`-th contract call (counting from 0) gives `call(k)`. The waits and the
   * reconnection between attempts have no effect on the returned table.
   * Returns the table and the number of contract calls made.
   */
  method GetEoaAddressesBatch(ids: seq<string>, initialised: bool, connected: bool,
                              reconnected: bool, call: nat -> CallOutcome)
    returns (result: map<string, Option<string>>, attempts: nat)
    ensures result == BatchTable(ids, initialised, connected, reconnected, call)
    ensures !initialised || (!connected && !reconnected) ==> result == map[] && attempts == 0
    ensures initialised && (connected || reconnected) ==>
      && 1 <= attempts <= MaxRetries
      && (forall k :: 0 <= k < attempts - 1 ==> call(k).Raised?)
      && (call(attempts - 1).Returned? ==> result == Resolved(ids, call(attempts - 1).addresses))
      && (call(attempts - 1).Raised? ==> attempts == MaxRetries && result == AllUnresolved(ids))
  {
    if !initialised {
      return map[], 0;
    }
    if !connected && !reconnected {
      return map[], 0;
    }
    var addresses: seq<string> := [];
    var returned := false;
    attempts := 0;
    while attempts < MaxRetries
      invariant attempts <= MaxRetries
      invariant forall k :: 0 <= k < attempts ==> call(k).Raised?
      invariant FirstReturned(call, 0) == FirstReturned(call, attempts)
    {
      var outcome := call(attempts);
      attempts := attempts + 1;
      if outcome.Returned? {
        addresses, returned := outcome.addresses, true;
        break;
      }
      // a failed attempt waits and reconnects before the next one
    }
    if !returned {
      // every attempt raised: the batch degrades to all ids unresolved
      return AllUnresolved(ids), attempts;
    }
    result := map[];
    var i := 0;
    while i < |ids|
      invariant i <= |ids|
      invariant result == Resolved(ids[..i], addresses)
    {
      ResolvedSnoc(ids, i, addresses);
      result := result[ids[i] := EntryAt(i, addresses)];
      i := i + 1;
    }
    assert ids[..i] == ids;
  }

  /**
   * The resolved table has a key for every id; the entry is absent exactly
   * when the id's last position is past the end of the returned list or holds
   * the zero address, and is the returned address otherwise.
   */
  lemma ResolvedEntry(ids: seq<string>, returned: seq<string>, id: string)
    requires id in ids
    ensures id in Resolved(ids, returned)
    ensures var k := LastIndex(ids, id);
      Resolved(ids, returned)[id] ==
        if k < |returned| && returned[k] != ZeroAddress then Some(returned[k]) else None
  {
  }

  /** Every key of the resolved table is one of the ids. */
  lemma ResolvedKeys(ids: seq<string>, returned: seq<string>)
    ensures Resolved(ids, returned).Keys == set id | id in ids
    ensures AllUnresolved(ids).Keys == set id | id in ids
  {
  }

  /** A zero address resolves to nothing and the next node's address is kept. */
  lemma ZeroAddressExample(a: string)
    requires a != ZeroAddress
    ensures Resolved(["nodeA", "nodeB"], [ZeroAddress, a]) == map["nodeA" := None, "nodeB" := Some(a)]
  {
    var ids := ["nodeA", "nodeB"];
    assert LastIndex(ids, "nodeA") == 0;
    assert LastIndex(ids, "nodeB") == 1;
  }

  /** A repeated id takes the entry of its last position; a short list leaves the rest unresolved. */
  lemma DuplicateAndShortListExample(a: string, b: string)
    requires a != ZeroAddress && b != ZeroAddress
    ensures Resolved(["n", "n"], [a, b]) == map["n" := Some(b)]
    ensures Resolved(["n", "m"], [a]) == map["n" := Some(a), "m" := None]
  {
    assert LastIndex(["n", "n"], "n") == 1;
    assert LastIndex(["n", "m"], "n") == 0;
    assert LastIndex(["n", "m"], "m") == 1;
  }
}
