/**
 * The report side of the monitor: what the chat notifications contain
 * (counts, tallies, truncated listings) and in which order they are sent.
 * The HTML and emoji text around the numbers is not modelled.
 */
module Notifier {
  import opened Records
  import opened Text
  import opened DataManager

  /** The longest message sent in one piece. */
  const ChunkSize: nat := 4000

  /** `[message[i:i+4000] for i in range(0, len(message), 4000)]` for a non-empty message. */
  function Chunks(s: string): (r: seq<string>)
    ensures |r| >= 1 && forall k :: 0 <= k < |r| ==> |r[k]| <= ChunkSize
    decreases |s|
  {
    if |s| <= ChunkSize then [s] else [s[..ChunkSize]] + Chunks(s[ChunkSize..])
  }

  /** The parts joined back together. */
  function Concat(parts: seq<string>): string {
    if parts == [] then [] else parts[0] + Concat(parts[1..])
  }

  /**
   * The chunks join back to the message; every chunk is at most `ChunkSize`
   * long, all but the last exactly that long, and none is empty unless the
   * message is.
   */
  lemma {:induction false} ChunksShape(s: string)
    ensures Concat(Chunks(s)) == s
    ensures forall k :: 0 <= k < |Chunks(s)| ==> |Chunks(s)[k]| <= ChunkSize
    ensures forall k :: 0 <= k < |Chunks(s)| - 1 ==> |Chunks(s)[k]| == ChunkSize
    ensures s != [] ==> forall k :: 0 <= k < |Chunks(s)| ==> Chunks(s)[k] != []
    ensures s != [] ==> |Chunks(s)| == (|s| + ChunkSize - 1) / ChunkSize
    decreases |s|
  {
    if |s| > ChunkSize {
      var rest := s[ChunkSize..];
      ChunksShape(rest);
      assert Chunks(s) == [s[..ChunkSize]] + Chunks(rest);
      assert Concat(Chunks(s)) == s[..ChunkSize] + Concat(Chunks(rest));
      assert s[..ChunkSize] + rest == s;
      assert (|s| + ChunkSize - 1) / ChunkSize == (|rest| + ChunkSize - 1) / ChunkSize + 1;
    }
  }

  /**
   * `send_message`: a message of at most `ChunkSize` characters is sent as
   * it is and the result is that send's; a longer one is sent chunk by chunk
   * and the result is success whatever the sends returned. `deliver` is the
   * outcome of one send; `sent` lists the texts sent, in order.
   */
  method SendMessage(message: string, deliver: string -> bool) returns (ok: bool, sent: seq<string>)
    ensures sent == if |message| > ChunkSize then Chunks(message) else [message]
    ensures ok <==> |message| > ChunkSize || deliver(message)
    ensures Concat(sent) == message
    ensures |message| > ChunkSize ==> forall k :: 0 <= k < |sent| ==> 0 < |sent[k]| <= ChunkSize
  {
    if |message| > ChunkSize {
      var parts := Chunks(message);
      ChunksShape(message);
      sent := [];
      for i := 0 to |parts|
        invariant sent == parts[..i]
      {
        var delivered := deliver(parts[i]);
        sent := sent + [parts[i]];
      }
      assert parts[..|parts|] == parts;
      ok := true;
    } else {
      ok := deliver(message);
      sent := [message];
      assert Concat(sent) == message + Concat([]);
    }
  }

  /** The first `n` items of a list and the number left over (the "and N more" line). */
  datatype Listing<T> = Listing(shown: seq<T>, more: nat)

  /** `xs[:n]` and `len(xs) - n` when positive. */
  function Top<T>(xs: seq<T>, n: nat): (l: Listing<T>)
    ensures |l.shown| <= n && |l.shown| <= |xs| && l.shown == xs[..|l.shown|]
    ensures l.more == |xs| - |l.shown|
    ensures l.more > 0 <==> |xs| > n
    ensures l.more > 0 ==> |l.shown| == n
  {
    if |xs| <= n then Listing(xs, 0) else Listing(xs[..n], |xs| - n)
  }

  /** The number of nodes reported online. */
  function OnlineCount(data: seq<NodeRecord>): (n: nat)
    ensures n <= |data|
  {
    if data == [] then 0 else OnlineCount(data[..|data| - 1]) + (if data[|data| - 1].online then 1 else 0)
  }

  /** The number of nodes with a truthy address. */
  function AddressCount(data: seq<NodeRecord>): (n: nat)
    ensures n <= |data|
  {
    if data == [] then 0
    else AddressCount(data[..|data| - 1]) + (if AddressTruthy(data[|data| - 1].address) then 1 else 0)
  }

  /** The total of the nodes' `reward` (wins). */
  function TotalWins(data: seq<NodeRecord>): int {
    if data == [] then 0 else TotalWins(data[..|data| - 1]) + data[|data| - 1].reward
  }

  /** The number of nodes whose activity status is `s`. */
  function BucketCount(data: seq<NodeRecord>, s: Status): (n: nat)
    ensures n <= |data|
  {
    if data == [] then 0
    else BucketCount(data[..|data| - 1], s) + (if StatusOf(data[|data| - 1].lastTxMinutesAgo) == s then 1 else 0)
  }

  /** The five activity buckets cover every node exactly once. */
  lemma {:induction false} BucketsCoverAll(data: seq<NodeRecord>)
    ensures BucketCount(data, VeryActive) + BucketCount(data, Active) + BucketCount(data, Warning)
      + BucketCount(data, Problem) + BucketCount(data, NoData) == |data|
  {
    if data != [] {
      BucketsCoverAll(data[..|data| - 1]);
    }
  }

  /** One hardware class's counters: nodes, nodes online, wins. */
  datatype HwTally = HwTally(total: nat, online: nat, wins: int)

  /** The per-class counters and the classes in the order they were first met. */
  datatype HwStats = HwStats(order: seq<string>, at: map<string, HwTally>)

  /** The counters after counting one more node into its class. */
  function CountNode(s: HwStats, node: NodeRecord): HwStats {
    var hw := node.hardwareType;
    var t := if hw in s.at then s.at[hw] else HwTally(0, 0, 0);
    HwStats(if hw in s.at then s.order else s.order + [hw],
            s.at[hw := HwTally(t.total + 1, t.online + (if node.online then 1 else 0), t.wins + node.reward)])
  }

  /** The counters over all nodes, in data order. */
  function Tally(data: seq<NodeRecord>): (r: HwStats)
    ensures |r.order| <= |data|
  {
    if data == [] then HwStats([], map[]) else CountNode(Tally(data[..|data| - 1]), data[|data| - 1])
  }

  /** The `hardware_stats` loop of the main report. */
  method HardwareStats(data: seq<NodeRecord>) returns (stats: HwStats)
    ensures stats == Tally(data)
  {
    var order: seq<string> := [];
    var at: map<string, HwTally> := map[];
    for i := 0 to |data|
      invariant HwStats(order, at) == Tally(data[..i])
    {
      assert data[..i + 1][..i] == data[..i];
      var hw := data[i].hardwareType;
      if hw !in at {
        order := order + [hw];
        at := at[hw := HwTally(0, 0, 0)];
      }
      var t := at[hw];
      t := t.(total := t.total + 1);
      if data[i].online {
        t := t.(online := t.online + 1);
      }
      t := t.(wins := t.wins + data[i].reward);
      at := at[hw := t];
    }
    assert data[..|data|] == data;
    stats := HwStats(order, at);
  }

  /** The sum of `f` over the counters of the classes in `order`. */
  function SumOver(order: seq<string>, at: map<string, HwTally>, f: HwTally -> int): int {
    if order == [] then 0
    else
      var hw := order[|order| - 1];
      SumOver(order[..|order| - 1], at, f) + (if hw in at then f(at[hw]) else 0)
  }

  function TotalOf(t: HwTally): int { t.total }

  function WinsOf(t: HwTally): int { t.wins }

  /** No class listed twice. */
  predicate Distinct(order: seq<string>) {
    forall a, b :: 0 <= a < b < |order| ==> order[a] != order[b]
  }

  /** Changing the counters of a class not listed leaves the sum as it is. */
  lemma {:induction false} SumOverOther(order: seq<string>, at: map<string, HwTally>, f: HwTally -> int,
                                        hw: string, t: HwTally)
    requires hw !in order
    ensures SumOver(order, at[hw := t], f) == SumOver(order, at, f)
  {
    if order != [] {
      SumOverOther(order[..|order| - 1], at, f, hw, t);
    }
  }

  /** Changing the counters of a class listed once moves the sum by the change of `f`. */
  lemma {:induction false} SumOverUpdate(order: seq<string>, at: map<string, HwTally>, f: HwTally -> int,
                                         hw: string, t: HwTally)
    requires Distinct(order) && hw in order && hw in at
    ensures SumOver(order, at[hw := t], f) == SumOver(order, at, f) - f(at[hw]) + f(t)
  {
    var k := |order| - 1;
    var prefix := order[..k];
    if order[k] == hw {
      forall a | 0 <= a < k
        ensures prefix[a] != hw
      {
        assert order[a] != order[k];
      }
      SumOverOther(prefix, at, f, hw, t);
    } else {
      assert hw in prefix by {
        var a :| 0 <= a < |order| && order[a] == hw;
        assert a < k && prefix[a] == hw;
      }
      SumOverUpdate(prefix, at, f, hw, t);
    }
  }

  /** The number of nodes of class `hw`. */
  function ClassCount(data: seq<NodeRecord>, hw: string): (n: nat)
    ensures n <= |data|
  {
    if data == [] then 0
    else ClassCount(data[..|data| - 1], hw) + (if data[|data| - 1].hardwareType == hw then 1 else 0)
  }

  /**
   * The tally lists each class once, exactly the classes that occur; each
   * class's total is its number of nodes, and its online count is at most
   * its total.
   */
  lemma {:induction false} TallyClasses(data: seq<NodeRecord>)
    ensures var s := Tally(data);
      && Distinct(s.order)
      && (forall hw :: hw in s.order <==> hw in s.at)
      && (forall hw :: hw in s.at <==> ClassCount(data, hw) > 0)
      && (forall hw :: hw in s.at ==> s.at[hw].total == ClassCount(data, hw) && s.at[hw].online <= s.at[hw].total)
  {
    if data != [] {
      TallyClasses(data[..|data| - 1]);
    }
  }

  /** The class totals add up to the number of nodes. */
  lemma {:induction false} TallyTotals(data: seq<NodeRecord>)
    ensures SumOver(Tally(data).order, Tally(data).at, TotalOf) == |data|
  {
    if data != [] {
      var prefix, node := data[..|data| - 1], data[|data| - 1];
      var s, hw := Tally(prefix), node.hardwareType;
      TallyTotals(prefix);
      TallyClasses(prefix);
      var t' := CountNode(s, node).at[hw];
      if hw in s.at {
        SumOverUpdate(s.order, s.at, TotalOf, hw, t');
      } else {
        SumOverOther(s.order, s.at, TotalOf, hw, t');
        assert (s.order + [hw])[..|s.order|] == s.order;
      }
    }
  }

  /** The class wins add up to the total wins of the report. */
  lemma {:induction false} TallyWins(data: seq<NodeRecord>)
    ensures SumOver(Tally(data).order, Tally(data).at, WinsOf) == TotalWins(data)
  {
    if data != [] {
      var prefix, node := data[..|data| - 1], data[|data| - 1];
      var s, hw := Tally(prefix), node.hardwareType;
      TallyWins(prefix);
      TallyClasses(prefix);
      var t' := CountNode(s, node).at[hw];
      if hw in s.at {
        SumOverUpdate(s.order, s.at, WinsOf, hw, t');
      } else {
        SumOverOther(s.order, s.at, WinsOf, hw, t');
        assert (s.order + [hw])[..|s.order|] == s.order;
      }
    }
  }

  /** Activity ages from which a node needs attention, and from which it is critical. */
  const AttentionMinutes: int := 30
  const CriticalMinutes: int := 60

  /** How many attention lines, significant changes and critical nodes are listed. */
  const AttentionShown: nat := 5
  const ChangesShown: nat := 8
  const CriticalShown: nat := 3

  predicate NeedsAttention(node: NodeRecord) {
    node.lastTxMinutesAgo.Some? && node.lastTxMinutesAgo.value >= AttentionMinutes
  }

  /** The nodes needing attention, in data order. */
  function Attention(data: seq<NodeRecord>): (r: seq<NodeRecord>)
    ensures |r| <= |data|
  {
    if data == [] then []
    else Attention(data[..|data| - 1]) + (if NeedsAttention(data[|data| - 1]) then [data[|data| - 1]] else [])
  }

  /** The `problem_nodes` loop of the main report. */
  method AttentionNodes(data: seq<NodeRecord>) returns (nodes: seq<NodeRecord>)
    ensures nodes == Attention(data)
  {
    nodes := [];
    for i := 0 to |data|
      invariant nodes == Attention(data[..i])
    {
      assert data[..i + 1][..i] == data[..i];
      var tx := data[i].lastTxMinutesAgo;
      if tx.Some? && tx.value >= AttentionMinutes {
        nodes := nodes + [data[i]];
      }
    }
    assert data[..|data|] == data;
  }

  /**
   * The attention list holds exactly the nodes with an activity age of 30
   * minutes or more, as many as the warning and problem buckets together.
   */
  lemma {:induction false} AttentionExactly(data: seq<NodeRecord>)
    ensures forall n :: n in Attention(data) <==> n in data && NeedsAttention(n)
    ensures |Attention(data)| == BucketCount(data, Warning) + BucketCount(data, Problem)
  {
    if data != [] {
      var prefix := data[..|data| - 1];
      AttentionExactly(prefix);
      assert data == prefix + [data[|data| - 1]];
    }
  }

  /** A change worth listing: wins or rewards moved, or the node went on- or offline. */
  predicate Significant(e: ChangeEntry) {
    e.rewardChange != 0 || e.scoreChange != 0 || e.onlineChange
  }

  /** `next((n for n in data if n['id'] == id), None)`. */
  function FirstWithId(data: seq<NodeRecord>, id: string): (r: Option<NodeRecord>)
    ensures r.None? <==> forall k :: 0 <= k < |data| ==> data[k].id != id
    ensures r.Some? ==>
      exists k :: 0 <= k < |data| && data[k] == r.value && r.value.id == id && forall j :: 0 <= j < k ==> data[j].id != id
  {
    if data == [] then None
    else if data[0].id == id then Some(data[0])
    else
      var r := FirstWithId(data[1..], id);
      assert forall k :: 0 < k < |data| ==> data[k] == data[1..][k - 1];
      r
  }

  /** The changes listed, in the order of the changes dictionary: the node and its change. */
  function SignificantFrom(order: seq<string>, at: map<string, ChangeEntry>, data: seq<NodeRecord>)
    : (r: seq<(NodeRecord, ChangeEntry)>)
    ensures |r| <= |order|
  {
    if order == [] then []
    else
      var id := order[|order| - 1];
      var node := FirstWithId(data, id);
      SignificantFrom(order[..|order| - 1], at, data)
        + (if id in at && node.Some? && Significant(at[id]) then [(node.value, at[id])] else [])
  }

  /** The `significant_changes` loop of the main report. */
  method SignificantChanges(data: seq<NodeRecord>, changes: Changes) returns (listed: seq<(NodeRecord, ChangeEntry)>)
    ensures listed == SignificantFrom(changes.order, changes.at, data)
  {
    listed := [];
    var order := changes.order;
    for i := 0 to |order|
      invariant listed == SignificantFrom(order[..i], changes.at, data)
    {
      assert order[..i + 1][..i] == order[..i];
      var id := order[i];
      if id in changes.at {
        var node := FirstWithId(data, id);
        if node.Some? {
          var change := changes.at[id];
          if change.rewardChange != 0 || change.scoreChange != 0 || change.onlineChange {
            listed := listed + [(node.value, change)];
          }
        }
      }
    }
    assert order[..|order|] == order;
  }

  /**
   * A change is listed exactly when its id is in the changes, names a node
   * of this cycle (the first with that id) and is significant.
   */
  lemma {:induction false} SignificantExactly(order: seq<string>, at: map<string, ChangeEntry>,
                                              data: seq<NodeRecord>, id: string)
    requires id in order
    ensures (exists p :: p in SignificantFrom(order, at, data) && p.0.id == id)
      <==> id in at && FirstWithId(data, id).Some? && Significant(at[id])
    ensures forall p :: p in SignificantFrom(order, at, data) && p.0.id == id ==>
      p == (FirstWithId(data, id).value, at[id])
  {
    var k := |order| - 1;
    var prefix := order[..k];
    var last := order[k];
    var node := FirstWithId(data, last);
    var tail := if last in at && node.Some? && Significant(at[last]) then [(node.value, at[last])] else [];
    assert SignificantFrom(order, at, data) == SignificantFrom(prefix, at, data) + tail;
    if id in prefix {
      SignificantExactly(prefix, at, data, id);
    } else {
      assert id == last;
      NoneNamed(prefix, at, data, id);
    }
  }

  /** An id not in `order` names no listed change. */
  lemma {:induction false} NoneNamed(order: seq<string>, at: map<string, ChangeEntry>, data: seq<NodeRecord>, id: string)
    requires id !in order
    ensures forall p :: p in SignificantFrom(order, at, data) ==> p.0.id != id
  {
    if order != [] {
      var k := |order| - 1;
      NoneNamed(order[..k], at, data, id);
      assert order[k] != id;
    }
  }

  /** The changes part of the main report. */
  datatype ChangeSection = FirstRun | NoSignificantChanges | Listed(changes: Listing<(NodeRecord, ChangeEntry)>)

  /** The numbers and lists of the main report. */
  datatype MainReport = MainReport(
    nodes: nat,
    online: nat,
    withAddress: nat,
    wins: int,
    hardware: HwStats,
    veryActive: nat,
    active: nat,
    warning: nat,
    problem: nat,
    noData: nat,
    attention: Option<Listing<NodeRecord>>,
    changes: ChangeSection)

  /**
   * The changes section: the first-run note for an empty changes dictionary,
   * otherwise at most `ChangesShown` of its significant changes and a count
   * of the rest.
   */
  function ChangeSectionOf(data: seq<NodeRecord>, changes: Changes): (r: ChangeSection)
    requires WellFormedChanges(changes)
    ensures r == FirstRun <==> changes.at == map[]
    ensures r.Listed? ==>
      && |r.changes.shown| <= ChangesShown
      && |r.changes.shown| + r.changes.more == |SignificantFrom(changes.order, changes.at, data)|
  {
    if changes.at == map[] then FirstRun
    else
      var listed := SignificantFrom(changes.order, changes.at, data);
      if listed == [] then NoSignificantChanges else Listed(Top(listed, ChangesShown))
  }

  /**
   * The main report of a cycle; none for an empty cycle, whose online
   * percentage divides by zero.
   */
  function MainReportOf(data: seq<NodeRecord>, changes: Changes): (r: Option<MainReport>)
    requires WellFormedChanges(changes)
    ensures r.Some? <==> data != []
    ensures r.Some? ==> r.value.nodes == |data| && r.value.online <= |data| && r.value.problem <= |data|
  {
    if data == [] then None
    else
      var warning, problem := BucketCount(data, Warning), BucketCount(data, Problem);
      Some(MainReport(|data|, OnlineCount(data), AddressCount(data), TotalWins(data), Tally(data),
                      BucketCount(data, VeryActive), BucketCount(data, Active), warning, problem,
                      BucketCount(data, NoData),
                      if warning > 0 || problem > 0 then Some(Top(Attention(data), AttentionShown)) else None,
                      ChangeSectionOf(data, changes)))
  }

  /** `create_main_report`. */
  method CreateMainReport(data: seq<NodeRecord>, changes: Changes) returns (report: Option<MainReport>)
    requires WellFormedChanges(changes)
    ensures report == MainReportOf(data, changes)
  {
    if data == [] {
      return None;
    }
    var hardware := HardwareStats(data);
    var warning, problem := BucketCount(data, Warning), BucketCount(data, Problem);
    var attention: Option<Listing<NodeRecord>> := None;
    if warning > 0 || problem > 0 {
      var nodes := AttentionNodes(data);
      attention := Some(Top(nodes, AttentionShown));
    }
    var section := FirstRun;
    if changes.at != map[] {
      var listed := SignificantChanges(data, changes);
      section := if listed == [] then NoSignificantChanges else Listed(Top(listed, ChangesShown));
    }
    report := Some(MainReport(|data|, OnlineCount(data), AddressCount(data), TotalWins(data), hardware,
                              BucketCount(data, VeryActive), BucketCount(data, Active), warning, problem,
                              BucketCount(data, NoData), attention, section));
  }

  /**
   * What the main report's numbers add up to: the buckets cover every node,
   * the class totals and wins add up, the attention section appears exactly
   * when some node is 30 minutes or more behind and lists at most five of
   * them plus the rest as a count, and the first-run note appears exactly
   * when there are no changes.
   */
  lemma MainReportCounts(data: seq<NodeRecord>, changes: Changes)
    requires data != [] && WellFormedChanges(changes)
    ensures var r := MainReportOf(data, changes).value;
      && r.veryActive + r.active + r.warning + r.problem + r.noData == r.nodes == |data|
      && r.online <= r.nodes && r.withAddress <= r.nodes
      && SumOver(r.hardware.order, r.hardware.at, TotalOf) == r.nodes
      && SumOver(r.hardware.order, r.hardware.at, WinsOf) == r.wins
      && (r.attention.Some? <==> exists n :: n in data && NeedsAttention(n))
      && (r.attention.Some? ==>
            && |r.attention.value.shown| <= AttentionShown
            && r.attention.value.shown + Attention(data)[|r.attention.value.shown|..] == Attention(data)
            && |r.attention.value.shown| + r.attention.value.more == r.warning + r.problem)
      && (r.changes == FirstRun <==> changes.at == map[])
      && (r.changes == FirstRun <==> changes.order == [])
  {
    if changes.order != [] {
      assert changes.order[0] in changes.at;
    }
    MainReportTotals(data, changes);
    MainReportAttention(data, changes);
  }

  /** The main report's counters: buckets, online and address counts, class totals and wins. */
  lemma MainReportTotals(data: seq<NodeRecord>, changes: Changes)
    requires data != [] && WellFormedChanges(changes)
    ensures var r := MainReportOf(data, changes).value;
      && r.veryActive + r.active + r.warning + r.problem + r.noData == r.nodes == |data|
      && r.online <= r.nodes && r.withAddress <= r.nodes
      && SumOver(r.hardware.order, r.hardware.at, TotalOf) == r.nodes
      && SumOver(r.hardware.order, r.hardware.at, WinsOf) == r.wins
  {
    BucketsCoverAll(data);
    TallyTotals(data);
    TallyWins(data);
  }

  /** The main report's attention section: present exactly when some node needs attention, at most five shown. */
  lemma MainReportAttention(data: seq<NodeRecord>, changes: Changes)
    requires data != [] && WellFormedChanges(changes)
    ensures var r := MainReportOf(data, changes).value;
      && (r.attention.Some? <==> exists n :: n in data && NeedsAttention(n))
      && (r.attention.Some? ==>
            && |r.attention.value.shown| <= AttentionShown
            && r.attention.value.shown + Attention(data)[|r.attention.value.shown|..] == Attention(data)
            && |r.attention.value.shown| + r.attention.value.more == r.warning + r.problem)
  {
    var r := MainReportOf(data, changes).value;
    var xs := Attention(data);
    AttentionExactly(data);
    AttentionNonEmpty(data);
    assert r.attention == if |xs| > 0 then Some(Top(xs, AttentionShown)) else None;
    if r.attention.Some? {
      var l := r.attention.value;
      assert l.shown + xs[|l.shown|..] == xs[..|l.shown|] + xs[|l.shown|..];
    }
  }

  /** Some node is on the attention list exactly when some node needs attention. */
  lemma AttentionNonEmpty(data: seq<NodeRecord>)
    ensures Attention(data) != [] <==> exists n :: n in data && NeedsAttention(n)
  {
    AttentionExactly(data);
    if Attention(data) != [] {
      assert Attention(data)[0] in Attention(data);
    }
    if exists n :: n in data && NeedsAttention(n) {
      var n :| n in data && NeedsAttention(n);
      assert n in Attention(data);
    }
  }

  /** How an activity age is shown: unknown, in minutes, or in hours and minutes. */
  datatype Age = NoAge | MinutesAgo(minutes: int) | HoursMinutesAgo(hours: int, minutes: int)

  /** `tx // 60` and `tx % 60`, shown as hours and minutes when there is at least one hour. */
  function Clock(tx: int): (r: Age)
    ensures r.HoursMinutesAgo? <==> tx >= 60
    ensures r.HoursMinutesAgo? ==> r.hours * 60 + r.minutes == tx && 0 <= r.minutes < 60
    ensures r.MinutesAgo? ==> 0 <= r.minutes < 60
  {
    var hours, minutes := tx / 60, tx % 60;
    if hours > 0 then HoursMinutesAgo(hours, minutes) else MinutesAgo(minutes)
  }

  /** The age line of the detailed report: minutes below an hour, `Clock` from an hour on. */
  function AgeOf(tx: Option<int>): Age {
    if tx.None? then NoAge
    else if tx.value < CriticalMinutes then MinutesAgo(tx.value)
    else Clock(tx.value)
  }

  /**
   * The hours and minutes of an age recombine to it with the minutes below
   * 60; from an hour on the age is always shown with hours, so the
   * minutes-only form of `Clock` is never used for a critical node.
   */
  lemma ClockSplit(tx: int)
    ensures Clock(tx).HoursMinutesAgo? ==>
      Clock(tx).hours * 60 + Clock(tx).minutes == tx && 0 <= Clock(tx).minutes < 60 && Clock(tx).hours >= 1
    ensures Clock(tx).MinutesAgo? ==> 0 <= Clock(tx).minutes < 60 && (0 <= tx ==> Clock(tx).minutes == tx)
    ensures tx >= CriticalMinutes <==> Clock(tx).HoursMinutesAgo?
  {
  }

  /** The detailed report shows an age in the band the activity status uses. */
  lemma AgeMatchesStatus(tx: Option<int>)
    ensures AgeOf(tx).NoAge? <==> StatusOf(tx) == NoData
    ensures AgeOf(tx).HoursMinutesAgo? <==> StatusOf(tx) == Problem
    ensures AgeOf(tx).MinutesAgo? ==> AgeOf(tx).minutes == tx.value
  {
    if tx.Some? {
      ClockSplit(tx.value);
    }
  }

  /** The longest detailed report before it is cut short, and the largest cycle it is sent for. */
  const DetailLimit: nat := 3000
  const DetailedMaxNodes: nat := 15

  /** The text of the nodes' blocks, in order; `block` renders one node. */
  function Rendered(nodes: seq<NodeRecord>, block: NodeRecord -> string): string {
    if nodes == [] then [] else Rendered(nodes[..|nodes| - 1], block) + block(nodes[|nodes| - 1])
  }

  /** Rendering one more node appends its block. */
  lemma RenderedSnoc(data: seq<NodeRecord>, i: nat, block: NodeRecord -> string)
    requires i < |data|
    ensures Rendered(data[..i + 1], block) == Rendered(data[..i], block) + block(data[i])
  {
    assert data[..i + 1][..i] == data[..i];
  }

  /** The closing line of a report cut short: how many nodes were left out. */
  function MoreNodesLine(n: nat): string {
    "... и еще " + NatText(n) + " нод\n"
  }

  /**
   * `create_detailed_report`: the header, then each node's block until the
   * message is longer than `DetailLimit`; a report cut short ends with the
   * number of nodes left out. `shown` is the number of blocks in it.
   */
  method CreateDetailedReport(data: seq<NodeRecord>, header: string, block: NodeRecord -> string)
    returns (message: string, shown: nat)
    ensures shown <= |data| && (data != [] ==> shown >= 1)
    ensures forall k :: 1 <= k < shown ==> |header + Rendered(data[..k], block)| <= DetailLimit
    ensures shown < |data| ==> |header + Rendered(data[..shown], block)| > DetailLimit
    ensures message == header + Rendered(data[..shown], block)
      + (if shown < |data| then MoreNodesLine(|data| - shown) else [])
  {
    message := header;
    var i := 0;
    // the header alone is never checked: a block is added before each check
    while i < |data| && (i == 0 || |message| <= DetailLimit)
      invariant i <= |data|
      invariant message == header + Rendered(data[..i], block)
      invariant forall k :: 1 <= k < i ==> |header + Rendered(data[..k], block)| <= DetailLimit
    {
      RenderedSnoc(data, i, block);
      message := message + block(data[i]);
      i := i + 1;
    }
    shown := i;
    if shown < |data| {
      message := message + MoreNodesLine(|data| - shown);
    }
  }

  /** `[node for node in data if tx is not None and tx >= 60]`. */
  function Critical(data: seq<NodeRecord>): (r: seq<NodeRecord>)
    ensures |r| <= |data|
    ensures forall k :: 0 <= k < |r| ==> r[k].lastTxMinutesAgo.Some? && r[k].lastTxMinutesAgo.value >= CriticalMinutes
  {
    if data == [] then []
    else
      var node := data[|data| - 1];
      Critical(data[..|data| - 1])
        + (if node.lastTxMinutesAgo.Some? && node.lastTxMinutesAgo.value >= CriticalMinutes then [node] else [])
  }

  /**
   * The critical nodes are exactly the nodes 60 minutes or more behind, as
   * many as the problem bucket, and every one of them needs attention.
   */
  lemma {:induction false} CriticalExactly(data: seq<NodeRecord>)
    ensures forall n :: n in Critical(data) <==>
      n in data && n.lastTxMinutesAgo.Some? && n.lastTxMinutesAgo.value >= CriticalMinutes
    ensures |Critical(data)| == BucketCount(data, Problem)
    ensures forall n :: n in Critical(data) ==> n in Attention(data)
  {
    if data != [] {
      var prefix := data[..|data| - 1];
      CriticalExactly(prefix);
      AttentionExactly(data);
      assert data == prefix + [data[|data| - 1]];
    }
  }

  /** One listed node of the critical alert, with its age. */
  datatype AlertLine = AlertLine(node: NodeRecord, age: Age)

  /** The critical alert: the number of critical nodes, the first ones listed, and how many more. */
  datatype Alert = Alert(count: nat, lines: seq<AlertLine>, more: nat)

  /**
   * `create_critical_alert`. The listed nodes must carry an activity age
   * (`create_critical_alert` divides it by 60).
   */
  method CreateCriticalAlert(critical: seq<NodeRecord>) returns (alert: Alert)
    requires forall k :: 0 <= k < |critical| && k < CriticalShown ==> critical[k].lastTxMinutesAgo.Some?
    ensures alert.count == |critical|
    ensures |alert.lines| == |Top(critical, CriticalShown).shown| && alert.more == Top(critical, CriticalShown).more
    ensures forall k :: 0 <= k < |alert.lines| ==>
      alert.lines[k] == AlertLine(critical[k], Clock(critical[k].lastTxMinutesAgo.value))
  {
    var listed := Top(critical, CriticalShown).shown;
    var lines: seq<AlertLine> := [];
    for i := 0 to |listed|
      invariant |lines| == i
      invariant forall k :: 0 <= k < i ==> lines[k] == AlertLine(critical[k], Clock(critical[k].lastTxMinutesAgo.value))
    {
      var tx := listed[i].lastTxMinutesAgo.value;
      lines := lines + [AlertLine(listed[i], Clock(tx))];
    }
    var more := if |critical| > CriticalShown then |critical| - CriticalShown else 0;
    alert := Alert(|critical|, lines, more);
  }

  /**
   * What `create_critical_alert` builds for the critical nodes: their count,
   * the first `CriticalShown` of them with their hours and minutes, and how
   * many more there are.
   */
  predicate IsCriticalAlert(alert: Alert, critical: seq<NodeRecord>) {
    && alert.count == |critical|
    && |alert.lines| == |Top(critical, CriticalShown).shown|
    && alert.more == Top(critical, CriticalShown).more
    && forall k :: 0 <= k < |alert.lines| ==>
         critical[k].lastTxMinutesAgo.Some?
         && alert.lines[k] == AlertLine(critical[k], Clock(critical[k].lastTxMinutesAgo.value))
  }

  /**
   * What `create_detailed_report` builds: the header and the blocks of the
   * first `shown` nodes, cut short after the block that took the text past
   * `DetailLimit`, then the number of nodes left out.
   */
  predicate IsDetailedReport(message: string, shown: nat, data: seq<NodeRecord>, header: string,
                             block: NodeRecord -> string) {
    && shown <= |data| && (data != [] ==> shown >= 1)
    && (forall k :: 1 <= k < shown ==> |header + Rendered(data[..k], block)| <= DetailLimit)
    && (shown < |data| ==> |header + Rendered(data[..shown], block)| > DetailLimit)
    && message == header + Rendered(data[..shown], block)
         + (if shown < |data| then MoreNodesLine(|data| - shown) else [])
  }

  /** One notification of a cycle. */
  datatype Notification =
    | MainReportSent(report: MainReport)
    | CriticalAlertSent(alert: Alert)
    | DocumentSent
    | DetailedReportSent(message: string, shown: nat)

  /** The position of each kind of notification in a cycle. */
  function Rank(n: Notification): nat {
    match n
    case MainReportSent(_) => 0
    case CriticalAlertSent(_) => 1
    case DocumentSent => 2
    case DetailedReportSent(_, _) => 3
  }

  /** The critical alert of a cycle: the alert built for its critical nodes, counting the problem bucket. */
  method AlertNotification(data: seq<NodeRecord>) returns (n: Notification)
    ensures n.CriticalAlertSent? && IsCriticalAlert(n.alert, Critical(data))
    ensures n.alert.count == BucketCount(data, Problem)
  {
    var alert := CreateCriticalAlert(Critical(data));
    CriticalExactly(data);
    n := CriticalAlertSent(alert);
  }

  /** The detailed report of a cycle. */
  method DetailedNotification(data: seq<NodeRecord>, header: string, block: NodeRecord -> string)
    returns (n: Notification)
    ensures n.DetailedReportSent? && IsDetailedReport(n.message, n.shown, data, header, block)
  {
    var message, shown := CreateDetailedReport(data, header, block);
    n := DetailedReportSent(message, shown);
  }

  predicate HasAlert(sent: seq<Notification>) {
    exists k :: 0 <= k < |sent| && sent[k].CriticalAlertSent?
  }

  predicate HasSpreadsheet(sent: seq<Notification>) {
    exists k :: 0 <= k < |sent| && sent[k].DocumentSent?
  }

  predicate HasDetailed(sent: seq<Notification>) {
    exists k :: 0 <= k < |sent| && sent[k].DetailedReportSent?
  }

  /** Putting the main report in front adds none of the other kinds. */
  lemma Prepended(main: Notification, more: seq<Notification>)
    requires main.MainReportSent?
    ensures HasAlert([main] + more) <==> HasAlert(more)
    ensures HasSpreadsheet([main] + more) <==> HasSpreadsheet(more)
    ensures HasDetailed([main] + more) <==> HasDetailed(more)
    ensures forall k :: 0 <= k < |more| ==> ([main] + more)[k + 1] == more[k]
  {
    var all := [main] + more;
    if HasAlert(more) {
      var k :| 0 <= k < |more| && more[k].CriticalAlertSent?;
      assert all[k + 1] == more[k];
    }
    if HasAlert(all) {
      var k :| 0 <= k < |all| && all[k].CriticalAlertSent?;
      assert more[k - 1] == all[k];
    }
    if HasSpreadsheet(more) {
      var k :| 0 <= k < |more| && more[k].DocumentSent?;
      assert all[k + 1] == more[k];
    }
    if HasSpreadsheet(all) {
      var k :| 0 <= k < |all| && all[k].DocumentSent?;
      assert more[k - 1] == all[k];
    }
    if HasDetailed(more) {
      var k :| 0 <= k < |more| && more[k].DetailedReportSent?;
      assert all[k + 1] == more[k];
    }
    if HasDetailed(all) {
      var k :| 0 <= k < |all| && all[k].DetailedReportSent?;
      assert more[k - 1] == all[k];
    }
  }

  /** Each notification ranks strictly after the one before it. */
  predicate Ordered(sent: seq<Notification>) {
    forall a, b :: 0 <= a < b < |sent| ==> Rank(sent[a]) < Rank(sent[b])
  }

  /** Every notification ranks after the main report. */
  predicate AfterMain(sent: seq<Notification>) {
    forall k :: 0 <= k < |sent| ==> Rank(sent[k]) > 0
  }

  /**
   * Every alert in `sent` is the one built for the critical nodes of `data`,
   * and every detailed report is the one built for `data`.
   */
  predicate SentFaithfully(sent: seq<Notification>, data: seq<NodeRecord>, header: string, block: NodeRecord -> string) {
    forall k :: 0 <= k < |sent| ==>
      && (sent[k].CriticalAlertSent? ==>
            IsCriticalAlert(sent[k].alert, Critical(data)) && sent[k].alert.count == BucketCount(data, Problem))
      && (sent[k].DetailedReportSent? ==> IsDetailedReport(sent[k].message, sent[k].shown, data, header, block))
  }

  /** The main report put in front of follow-ups keeps the order. */
  lemma OrderedPrepended(main: Notification, more: seq<Notification>)
    requires main.MainReportSent? && Ordered(more) && AfterMain(more)
    ensures Ordered([main] + more)
  {
    var all := [main] + more;
    forall a, b | 0 <= a < b < |all|
      ensures Rank(all[a]) < Rank(all[b])
    {
      assert all[b] == more[b - 1];
      if a > 0 {
        assert all[a] == more[a - 1];
      }
    }
  }

  /** The follow-ups in sending order: the alert, the spreadsheet, the detailed report, each when present. */
  function Plan(alert: Option<Notification>, spreadsheetReady: bool, detailed: Option<Notification>): seq<Notification> {
    (if alert.Some? then [alert.value] else [])
      + (if spreadsheetReady then [DocumentSent] else [])
      + (if detailed.Some? then [detailed.value] else [])
  }

  /** The plan is ordered, follows the main report, and holds exactly the kinds it was given. */
  lemma PlanFacts(alert: Option<Notification>, spreadsheetReady: bool, detailed: Option<Notification>)
    requires alert.Some? ==> alert.value.CriticalAlertSent?
    requires detailed.Some? ==> detailed.value.DetailedReportSent?
    ensures var p := Plan(alert, spreadsheetReady, detailed);
      && Ordered(p) && AfterMain(p)
      && (HasAlert(p) <==> alert.Some?)
      && (HasSpreadsheet(p) <==> spreadsheetReady)
      && (HasDetailed(p) <==> detailed.Some?)
      && (forall k :: 0 <= k < |p| && p[k].CriticalAlertSent? ==> p[k] == alert.value)
      && (forall k :: 0 <= k < |p| && p[k].DetailedReportSent? ==> p[k] == detailed.value)
  {
    PlanSlots(alert, spreadsheetReady, detailed);
    PlanKinds(alert, spreadsheetReady, detailed);
  }

  /** Position by position: the alert first, then the spreadsheet, then the detailed report. */
  lemma PlanSlots(alert: Option<Notification>, spreadsheetReady: bool, detailed: Option<Notification>)
    ensures var p := Plan(alert, spreadsheetReady, detailed);
      var i := if alert.Some? then 1 else 0;
      var j := i + if spreadsheetReady then 1 else 0;
      && |p| == j + (if detailed.Some? then 1 else 0)
      && forall k :: 0 <= k < |p| ==>
           p[k] == if k < i then alert.value else if k < j then DocumentSent else detailed.value
  {
  }

  /** The plan holds an alert, spreadsheet or detailed report exactly when it was given one. */
  lemma PlanKinds(alert: Option<Notification>, spreadsheetReady: bool, detailed: Option<Notification>)
    requires alert.Some? ==> alert.value.CriticalAlertSent?
    requires detailed.Some? ==> detailed.value.DetailedReportSent?
    ensures var p := Plan(alert, spreadsheetReady, detailed);
      && (HasAlert(p) <==> alert.Some?)
      && (HasSpreadsheet(p) <==> spreadsheetReady)
      && (HasDetailed(p) <==> detailed.Some?)
  {
    PlanSlots(alert, spreadsheetReady, detailed);
    var p := Plan(alert, spreadsheetReady, detailed);
    var i := if alert.Some? then 1 else 0;
    var j := i + if spreadsheetReady then 1 else 0;
    if alert.Some? {
      assert p[0].CriticalAlertSent?;
    }
    if spreadsheetReady {
      assert p[i].DocumentSent?;
    }
    if detailed.Some? {
      assert p[j].DetailedReportSent?;
    }
  }

  /**
   * `send_monitoring_notifications`. `mainDelivered` is what sending the
   * main report's text returned, `spreadsheetReady` that the spreadsheet
   * report was written and exists; `header` and `block` render the detailed
   * report. An empty cycle sends nothing: building its main report divides
   * by zero, and the error ends the whole step.
   */
  method SendMonitoringNotifications(data: seq<NodeRecord>, changes: Changes, mainDelivered: bool,
                                     spreadsheetReady: bool, header: string, block: NodeRecord -> string)
    returns (sent: seq<Notification>)
    requires WellFormedChanges(changes)
    ensures data == [] ==> sent == []
    ensures data != [] ==> |sent| >= 1 && sent[0] == MainReportSent(MainReportOf(data, changes).value)
    ensures !mainDelivered ==> |sent| <= 1
    ensures forall a, b :: 0 <= a < b < |sent| ==> Rank(sent[a]) < Rank(sent[b])
    ensures HasAlert(sent) <==> data != [] && mainDelivered && Critical(data) != []
    ensures HasSpreadsheet(sent) <==> data != [] && mainDelivered && spreadsheetReady
    ensures HasDetailed(sent) <==> data != [] && mainDelivered && |data| <= DetailedMaxNodes
    ensures forall k :: 0 <= k < |sent| && sent[k].CriticalAlertSent? ==>
      IsCriticalAlert(sent[k].alert, Critical(data)) && sent[k].alert.count == BucketCount(data, Problem)
    ensures forall k :: 0 <= k < |sent| && sent[k].DetailedReportSent? ==>
      IsDetailedReport(sent[k].message, sent[k].shown, data, header, block)
  {
    var report := CreateMainReport(data, changes);
    if report.None? {
      return [];
    }
    var main := MainReportSent(report.value);
    if !mainDelivered {
      return [main];
    }
    var more := FollowUps(data, spreadsheetReady, header, block);
    WithMainReport(main, more, data, header, block);
    sent := [main] + more;
  }

  /** The main report in front of the follow-ups: the kinds, the order and the alert counts carry over. */
  lemma WithMainReport(main: Notification, more: seq<Notification>, data: seq<NodeRecord>,
                        header: string, block: NodeRecord -> string)
    requires main.MainReportSent? && Ordered(more) && AfterMain(more) && SentFaithfully(more, data, header, block)
    ensures var sent := [main] + more;
      && Ordered(sent) && SentFaithfully(sent, data, header, block) && sent[0] == main
      && (HasAlert(sent) <==> HasAlert(more))
      && (HasSpreadsheet(sent) <==> HasSpreadsheet(more))
      && (HasDetailed(sent) <==> HasDetailed(more))
  {
    Prepended(main, more);
    OrderedPrepended(main, more);
  }

  /**
   * What follows a delivered main report: the critical alert when some node
   * is critical, the spreadsheet when it exists, the detailed report for a
   * cycle of at most `DetailedMaxNodes` nodes, in that order.
   */
  method FollowUps(data: seq<NodeRecord>, spreadsheetReady: bool, header: string, block: NodeRecord -> string)
    returns (more: seq<Notification>)
    ensures Ordered(more) && AfterMain(more)
    ensures HasAlert(more) <==> Critical(data) != []
    ensures HasSpreadsheet(more) <==> spreadsheetReady
    ensures HasDetailed(more) <==> |data| <= DetailedMaxNodes
    ensures SentFaithfully(more, data, header, block)
  {
    var alert: Option<Notification> := None;
    if Critical(data) != [] {
      var n := AlertNotification(data);
      alert := Some(n);
    }
    var detailed: Option<Notification> := None;
    if |data| <= DetailedMaxNodes {
      var n := DetailedNotification(data, header, block);
      detailed := Some(n);
    }
    PlanFacts(alert, spreadsheetReady, detailed);
    more := Plan(alert, spreadsheetReady, detailed);
  }
}
