/**
 * The data manager: the snapshot of the previous cycle, the capped history
 * of snapshots, the per-node diff between two cycles and the activity
 * status of a node.
 */
module DataManager {
  import opened Records

  /** The number of history entries kept. */
  const HistoryCap: nat := 100

  /** One history entry: the instant it was saved (ISO text) and the cycle's records. */
  datatype HistoryEntry = HistoryEntry(timestamp: string, data: seq<NodeRecord>)

  /** The last `n` elements of `xs`, or all of them when there are no more than `n`. */
  function KeepLast<T>(xs: seq<T>, n: nat): seq<T> {
    if |xs| > n then xs[|xs| - n..] else xs
  }

  /**
   * The stored state of the data manager: the previous cycle's snapshot
   * (`current_data.json`) and the history (`history.json`), held in memory.
   */
  class DataStore {
    var currentData: Option<seq<NodeRecord>>
    var history: seq<HistoryEntry>

    /** A fresh store: no snapshot, empty history. */
    constructor()
      ensures currentData.None? && history == []
    {
      currentData := None;
      history := [];
    }

    /** `load_previous_data`: the stored snapshot, or nothing when none was saved. */
    method LoadPreviousData() returns (data: Option<seq<NodeRecord>>)
      ensures data == currentData
    {
      data := currentData;
    }

    /** `save_current_data`: the snapshot is replaced and the history is untouched. */
    method SaveCurrentData(data: seq<NodeRecord>)
      modifies this
      ensures currentData == Some(data) && history == old(history)
    {
      currentData := Some(data);
    }

    /**
     * `save_to_history`: the entry stamped `now` is appended and the history
     * is cut to its last `HistoryCap` entries.
     */
    method SaveToHistory(data: seq<NodeRecord>, now: string)
      modifies this
      ensures history == KeepLast(old(history) + [HistoryEntry(now, data)], HistoryCap)
      ensures |history| <= HistoryCap && history[|history| - 1] == HistoryEntry(now, data)
      ensures currentData == old(currentData)
    {
      var entry := HistoryEntry(now, data);
      history := history + [entry];
      if |history| > HistoryCap {
        history := history[|history| - HistoryCap..];
      }
    }
  }

  /**
   * After one save the history holds `min(|h| + 1, HistoryCap)` entries, the
   * new one last, and they are the tail of the old history followed by the
   * new entry, in their original order.
   */
  lemma {:induction false} SaveShape(h: seq<HistoryEntry>, e: HistoryEntry)
    ensures var r := KeepLast(h + [e], HistoryCap);
      && |r| == (if |h| + 1 > HistoryCap then HistoryCap else |h| + 1)
      && r[|r| - 1] == e
      && r[..|r| - 1] == h[|h| + 1 - |r|..]
  {
    var r := KeepLast(h + [e], HistoryCap);
    assert r == (h + [e])[|h| + 1 - |r|..];
    assert r[..|r| - 1] == (h + [e])[|h| + 1 - |r|..|h|];
  }

  /** Cutting before appending does not change what a later cut keeps. */
  lemma {:induction false} KeepLastAppend<T>(xs: seq<T>, e: T, n: nat)
    ensures KeepLast(KeepLast(xs, n) + [e], n) == KeepLast(xs + [e], n)
  {
    if |xs| > n && n > 0 {
      var ys := xs[|xs| - n..] + [e];
      assert ys[|ys| - n..] == xs[|xs| - n + 1..] + [e];
      assert (xs + [e])[|xs| + 1 - n..] == xs[|xs| - n + 1..] + [e];
    }
  }

  /** The history after saving each entry of `es` in turn, starting from `h`. */
  function SaveAll(h: seq<HistoryEntry>, es: seq<HistoryEntry>): seq<HistoryEntry>
    decreases |es|
  {
    if es == [] then h else SaveAll(KeepLast(h + [es[0]], HistoryCap), es[1..])
  }

  /**
   * Saving entry by entry keeps exactly the last `HistoryCap` of everything
   * saved so far: the cap never loses an entry a single cut would keep.
   */
  lemma {:induction false} SaveAllKeepsLast(h: seq<HistoryEntry>, es: seq<HistoryEntry>)
    requires |h| <= HistoryCap
    ensures SaveAll(h, es) == KeepLast(h + es, HistoryCap)
    decreases |es|
  {
    if es == [] {
      assert h + es == h;
    } else {
      var h' := KeepLast(h + [es[0]], HistoryCap);
      SaveAllKeepsLast(h', es[1..]);
      if es[1..] == [] {
        assert h + es == h + [es[0]];
      } else {
        KeepLastConcat(h + [es[0]], es[1..]);
        assert (h + [es[0]]) + es[1..] == h + es;
      }
    }
  }

  /** Cutting a prefix to the cap before extending it does not change the final cut. */
  lemma {:induction false} KeepLastConcat<T>(xs: seq<T>, ys: seq<T>)
    ensures KeepLast(KeepLast(xs, HistoryCap) + ys, HistoryCap) == KeepLast(xs + ys, HistoryCap)
    decreases |ys|
  {
    if ys != [] {
      var k := |ys| - 1;
      KeepLastConcat(xs, ys[..k]);
      KeepLastAppend(KeepLast(xs, HistoryCap) + ys[..k], ys[k], HistoryCap);
      KeepLastAppend(xs + ys[..k], ys[k], HistoryCap);
      assert KeepLast(xs, HistoryCap) + ys == KeepLast(xs, HistoryCap) + ys[..k] + [ys[k]];
      assert xs + ys == xs + ys[..k] + [ys[k]];
    }
  }

  /** One node's change between two cycles; `txTimeChange` is absent unless both activity ages are known. */
  datatype ChangeEntry = ChangeEntry(rewardChange: int, scoreChange: int, onlineChange: bool, txTimeChange: Option<int>)

  /**
   * The changes of a cycle: the per-id entries, and the ids in the order the
   * dictionary holds them (the order of first insertion).
   */
  datatype Changes = Changes(order: seq<string>, at: map<string, ChangeEntry>)

  const NoChanges: Changes := Changes([], map[])

  /** A dictionary's insertion order lists each of its keys exactly once. */
  ghost predicate WellFormedChanges(c: Changes) {
    && (forall a, b :: 0 <= a < b < |c.order| ==> c.order[a] != c.order[b])
    && (forall id :: id in c.order <==> id in c.at)
  }

  /**
   * The change from `prev` to `cur`: no movement exactly when wins, rewards
   * and the online flag agree, and an activity change exactly when both ages
   * are known.
   */
  function Diff(cur: NodeRecord, prev: NodeRecord): (e: ChangeEntry)
    ensures (e.rewardChange == 0 && e.scoreChange == 0 && !e.onlineChange)
      <==> (cur.reward == prev.reward && cur.score == prev.score && cur.online == prev.online)
    ensures e.txTimeChange.Some? <==> cur.lastTxMinutesAgo.Some? && prev.lastTxMinutesAgo.Some?
  {
    ChangeEntry(cur.reward - prev.reward, cur.score - prev.score, cur.online != prev.online,
                if cur.lastTxMinutesAgo.Some? && prev.lastTxMinutesAgo.Some?
                then Some(cur.lastTxMinutesAgo.value - prev.lastTxMinutesAgo.value)
                else None)
  }

  /** `{item['id']: item for item in previous}`: each id's record, a later one overwriting an earlier. */
  function ById(records: seq<NodeRecord>): (t: map<string, NodeRecord>)
    ensures forall id :: id in t ==> t[id].id == id && t[id] in records
  {
    if records == [] then map[]
    else
      var last := records[|records| - 1];
      ById(records[..|records| - 1])[last.id := last]
  }

  /** A dictionary assignment: the entry is replaced, and a new key goes last in the order. */
  function Assign(c: Changes, id: string, e: ChangeEntry): Changes {
    Changes(if id in c.at then c.order else c.order + [id], c.at[id := e])
  }

  /** The changes built from `current`, in order, against the previous cycle's records by id. */
  function DiffAll(current: seq<NodeRecord>, prev: map<string, NodeRecord>): (c: Changes)
    ensures forall id :: id in c.at ==> id in prev
    ensures forall id :: id in c.order <==> id in c.at
  {
    if current == [] then NoChanges
    else
      var c := DiffAll(current[..|current| - 1], prev);
      var r := current[|current| - 1];
      if r.id in prev then Assign(c, r.id, Diff(r, prev[r.id])) else c
  }

  /** What `calculate_changes` returns: nothing against a missing or empty previous cycle. */
  function ChangesOf(current: seq<NodeRecord>, previous: Option<seq<NodeRecord>>): Changes {
    if previous.None? || previous.value == [] then NoChanges
    else DiffAll(current, ById(previous.value))
  }

  /** `calculate_changes`. */
  method CalculateChanges(current: seq<NodeRecord>, previous: Option<seq<NodeRecord>>) returns (changes: Changes)
    ensures changes == ChangesOf(current, previous)
    ensures previous.None? || previous.value == [] ==> changes == NoChanges
  {
    if previous.None? || previous.value == [] {
      return NoChanges;
    }
    var prevById := ById(previous.value);
    var order: seq<string> := [];
    var at: map<string, ChangeEntry> := map[];
    for i := 0 to |current|
      invariant Changes(order, at) == DiffAll(current[..i], prevById)
    {
      assert current[..i + 1][..i] == current[..i];
      var cur := current[i];
      if cur.id in prevById {
        var prev := prevById[cur.id];
        var entry := ChangeEntry(cur.reward - prev.reward, cur.score - prev.score, cur.online != prev.online, None);
        if cur.lastTxMinutesAgo.Some? && prev.lastTxMinutesAgo.Some? {
          entry := entry.(txTimeChange := Some(cur.lastTxMinutesAgo.value - prev.lastTxMinutesAgo.value));
        }
        assert entry == Diff(cur, prev);
        if cur.id !in at {
          order := order + [cur.id];
        }
        at := at[cur.id := entry];
      }
    }
    assert current[..|current|] == current;
    changes := Changes(order, at);
  }

  /**
   * The by-id table has a key for exactly the ids that occur, and holds the
   * record of each id's last occurrence.
   */
  lemma {:induction false} ByIdLast(records: seq<NodeRecord>, i: nat)
    requires i < |records|
    requires forall j :: i < j < |records| ==> records[j].id != records[i].id
    ensures records[i].id in ById(records) && ById(records)[records[i].id] == records[i]
  {
    var k := |records| - 1;
    if i < k {
      var prefix := records[..k];
      assert prefix[i] == records[i];
      assert forall j :: i < j < |prefix| ==> prefix[j] == records[j];
      ByIdLast(prefix, i);
      assert ById(records) == ById(prefix)[records[k].id := records[k]];
    }
  }

  /** Every key of the by-id table is the id of some record. */
  lemma {:induction false} ByIdKeys(records: seq<NodeRecord>, id: string)
    ensures id in ById(records) <==> exists i :: 0 <= i < |records| && records[i].id == id
  {
    if records != [] {
      var k := |records| - 1;
      ByIdKeys(records[..k], id);
      if id in ById(records[..k]) {
        var i :| 0 <= i < k && records[..k][i].id == id;
        assert records[i].id == id;
      }
      if exists i :: 0 <= i < |records| && records[i].id == id {
        var i :| 0 <= i < |records| && records[i].id == id;
        if i < k {
          assert records[..k][i].id == id;
        }
      }
    }
  }

  /**
   * The diff has an entry exactly for the ids of `current` that the previous
   * table holds, and that entry compares the last record of the id in
   * `current` with the previous table's record. The order lists each key once.
   */
  lemma {:induction false} DiffAllEntries(current: seq<NodeRecord>, prev: map<string, NodeRecord>)
    ensures var c := DiffAll(current, prev);
      && (forall id :: id in c.at <==> id in ById(current) && id in prev)
      && (forall id :: id in c.at ==> c.at[id] == Diff(ById(current)[id], prev[id]))
      && (forall id :: id in c.order <==> id in c.at)
      && (forall a, b :: 0 <= a < b < |c.order| ==> c.order[a] != c.order[b])
  {
    if current != [] {
      DiffAllEntries(current[..|current| - 1], prev);
    }
  }

  /**
   * `calculate_changes` against a previous cycle: an entry exactly for the
   * ids present in both cycles; it compares the last record of the id in
   * each cycle. New and removed ids get no entry.
   */
  lemma ChangesEntries(current: seq<NodeRecord>, previous: seq<NodeRecord>, i: nat, j: nat)
    requires previous != [] && i < |current| && j < |previous| && current[i].id == previous[j].id
    requires forall k :: i < k < |current| ==> current[k].id != current[i].id
    requires forall k :: j < k < |previous| ==> previous[k].id != previous[j].id
    ensures var c := ChangesOf(current, Some(previous));
      current[i].id in c.at && c.at[current[i].id] == Diff(current[i], previous[j])
  {
    DiffAllEntries(current, ById(previous));
    ByIdLast(current, i);
    ByIdLast(previous, j);
  }

  /** What `calculate_changes` returns is a dictionary: its order lists each key once. */
  lemma ChangesWellFormed(current: seq<NodeRecord>, previous: Option<seq<NodeRecord>>)
    ensures WellFormedChanges(ChangesOf(current, previous))
  {
    if previous.Some? && previous.value != [] {
      DiffAllEntries(current, ById(previous.value));
    }
  }

  /** The position of the first record with id `id`, or the length when there is none. */
  function FirstIndex(records: seq<NodeRecord>, id: string): (i: nat)
    ensures i <= |records|
    ensures i < |records| ==> records[i].id == id
    ensures forall j :: 0 <= j < i ==> records[j].id != id
  {
    if records == [] then 0
    else if records[0].id == id then 0
    else FirstIndex(records[1..], id) + 1
  }

  /**
   * The key order of the diff: the ids of `current` that the previous table
   * holds, each once, in the order of their first occurrence in `current`.
   * This order decides which changes the main report lists.
   */
  lemma DiffAllOrder(current: seq<NodeRecord>, prev: map<string, NodeRecord>)
    ensures var o := DiffAll(current, prev).order;
      && (forall k :: 0 <= k < |o| ==> o[k] in prev && FirstIndex(current, o[k]) < |current|)
      && (forall j :: 0 <= j < |current| && current[j].id in prev ==> current[j].id in o)
      && (forall a, b :: 0 <= a < b < |o| ==> FirstIndex(current, o[a]) < FirstIndex(current, o[b]))
  {
    OrderMembers(current, prev);
    OrderFirstSeen(current, prev);
  }

  /** The keys in the order are exactly the ids of `current` that the previous table holds. */
  lemma OrderMembers(current: seq<NodeRecord>, prev: map<string, NodeRecord>)
    ensures var o := DiffAll(current, prev).order;
      && (forall k :: 0 <= k < |o| ==> o[k] in prev && FirstIndex(current, o[k]) < |current|)
      && (forall j :: 0 <= j < |current| && current[j].id in prev ==> current[j].id in o)
  {
    var o := DiffAll(current, prev).order;
    DiffAllEntries(current, prev);
    forall k | 0 <= k < |o|
      ensures o[k] in prev && FirstIndex(current, o[k]) < |current|
    {
      ByIdKeys(current, o[k]);
    }
    forall j | 0 <= j < |current| && current[j].id in prev
      ensures current[j].id in o
    {
      ByIdKeys(current, current[j].id);
    }
  }

  /** Keys enter the order at the first occurrence of their id. */
  lemma {:induction false} OrderFirstSeen(current: seq<NodeRecord>, prev: map<string, NodeRecord>)
    ensures var o := DiffAll(current, prev).order;
      forall a, b :: 0 <= a < b < |o| ==> FirstIndex(current, o[a]) < FirstIndex(current, o[b])
  {
    if current != [] {
      var k := |current| - 1;
      assert current == current[..k] + [current[k]];
      OrderFirstSeen(current[..k], prev);
      OrderStep(current[..k], current[k], prev);
    }
  }

  /**
   * One record appended: the keys already in the order keep their first
   * positions, and a key added now is first seen in the new record.
   */
  lemma OrderStep(p: seq<NodeRecord>, r: NodeRecord, prev: map<string, NodeRecord>)
    ensures var c, o := DiffAll(p, prev).order, DiffAll(p + [r], prev).order;
      && (o == c || (o == c + [r.id] && FirstIndex(p + [r], r.id) == |p|))
      && (forall a :: 0 <= a < |c| ==> FirstIndex(p + [r], c[a]) == FirstIndex(p, c[a]) < |p|)
  {
    var current := p + [r];
    assert current[..|p|] == p;
    var c := DiffAll(p, prev);
    OrderMembers(p, prev);
    forall a | 0 <= a < |c.order|
      ensures FirstIndex(current, c.order[a]) == FirstIndex(p, c.order[a]) < |p|
    {
      FirstIndexPrefix(p, r, c.order[a]);
    }
    if r.id in prev && r.id !in c.at {
      DiffAllEntries(p, prev);
      ByIdKeys(p, r.id);
      FirstIndexAbsent(p, r);
    }
  }

  /** Appending a record leaves the first position of an id that already occurs. */
  lemma FirstIndexPrefix(p: seq<NodeRecord>, r: NodeRecord, id: string)
    requires FirstIndex(p, id) < |p|
    ensures FirstIndex(p + [r], id) == FirstIndex(p, id)
  {
    var g := FirstIndex(p, id);
    assert (p + [r])[g] == p[g];
  }

  /** An id first seen in the appended record is first found there. */
  lemma FirstIndexAbsent(p: seq<NodeRecord>, r: NodeRecord)
    requires forall j :: 0 <= j < |p| ==> p[j].id != r.id
    ensures FirstIndex(p + [r], r.id) == |p|
  {
    var q := p + [r];
    assert q[|p|] == r;
  }

  /** An id that is missing from either cycle has no entry. */
  lemma ChangesOnlyShared(current: seq<NodeRecord>, previous: Option<seq<NodeRecord>>, id: string)
    requires id in ChangesOf(current, previous).at
    ensures previous.Some? && previous.value != []
    ensures exists i :: 0 <= i < |current| && current[i].id == id
    ensures exists j :: 0 <= j < |previous.value| && previous.value[j].id == id
  {
    DiffAllEntries(current, ById(previous.value));
    ByIdKeys(current, id);
    ByIdKeys(previous.value, id);
  }

  /**
   * Diffing a cycle against itself: every id gets an entry with no change
   * of wins or rewards, no online flip, and an activity change of 0 or none.
   */
  lemma SelfDiff(data: seq<NodeRecord>, id: string)
    requires data != []
    ensures var c := ChangesOf(data, Some(data));
      && (id in c.at <==> exists i :: 0 <= i < |data| && data[i].id == id)
      && (id in c.at ==>
            c.at[id].rewardChange == 0 && c.at[id].scoreChange == 0 && !c.at[id].onlineChange
            && c.at[id].txTimeChange in {None, Some(0)})
  {
    DiffAllEntries(data, ById(data));
    ByIdKeys(data, id);
  }

  /** The activity status of a node (`get_status_text`). */
  datatype Status = NoData | VeryActive | Active | Warning | Problem

  /** The status of an activity age in minutes; each band includes its lower edge. */
  function StatusOf(txMinutes: Option<int>): (s: Status)
    ensures s == NoData <==> txMinutes.None?
    ensures s == VeryActive <==> txMinutes.Some? && txMinutes.value < 10
    ensures s == Active <==> txMinutes.Some? && 10 <= txMinutes.value < 30
    ensures s == Warning <==> txMinutes.Some? && 30 <= txMinutes.value < 60
    ensures s == Problem <==> txMinutes.Some? && 60 <= txMinutes.value
  {
    if txMinutes.None? then NoData
    else if txMinutes.value < 10 then VeryActive
    else if txMinutes.value < 30 then Active
    else if txMinutes.value < 60 then Warning
    else Problem
  }
}
