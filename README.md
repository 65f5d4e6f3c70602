# Gensyn node monitor — a verified model of its decision logic

The monitor runs in cycles. Each cycle does the following:
- Reads a roster of nodes from a spreadsheet.
- Resolves each node id to its on-chain account with one batched contract read, attempted up to three times.
- Asks a peer-status service about each node.
- Probes a block explorer for the age of each account's latest internal transaction.
- Diffs the resulting records against the previous cycle, and keeps a history capped at 100 snapshots.
- Sends chat reports.

This project models that logic in Dafny. Every network answer, the clock and the ISO 8601 parser are parameters:
- `fetch` gives the outcome of an HTTP GET.
- `call(k)` gives the outcome of the `k`-th contract call.
- `iso` stands for `datetime.fromisoformat(...).timestamp()`.
- `peers[i]` is the peer service's answer for node `i`.
- `clock[i]` is the clock while node `i` is handled.

Modules, one per file:

| file | module | models |
|---|---|---|
| records.dfy | `Records` | the record of one node and the zero address |
| text.dfy | `Text` | the Python string operations the monitor uses: `split`, `split(sep, 1)`, `strip`, `upper`, `isdigit`, `replace`, `int` of a digit string |
| proxy.dfy | `Proxy` | `setup_proxy` |
| roster.dfy | `Roster` | row normalisation in `read_nodes_data` |
| resolver.dfy | `Resolver` | `get_eoa_addresses_batch`, with the retry loop and the positional mapping |
| prober.dfy | `Prober` | `get_last_internal_tx_time`: envelopes, timestamp normalisation, maximum, endpoint fallback |
| collector.dfy | `Collector` | `collect_node_data` |
| data_manager.dfy | `DataManager` | the snapshot and capped history (`DataStore`), `calculate_changes`, `get_status_text` |
| notifier.dfy | `Notifier` | message chunking, the numbers and truncated lists of the three reports, and the sending order |

**How the code is modelled.** Code that loops and mutates is modelled as methods with loops. Each such method is proved equal to a function that defines its result:
- `ReadNodes`, `GetEoaAddressesBatch`, `SelectTransactions`, `TxTimestamp`, `ScanTransactions` and `GetLastInternalTxTime`;
- `CollectNodeData` and `CalculateChanges`;
- `HardwareStats`, `AttentionNodes`, `SignificantChanges`, `CreateDetailedReport` and `CreateCriticalAlert`.

Lemmas about those functions then state what the code guarantees. `DataStore` is a class whose methods update the stored snapshot and history in place.

Timestamps are exact reals. Python's `int()` truncation toward zero is written out. So is Python truthiness, where a latest timestamp of 0 means "no data". A transaction that is a number, a boolean or null, or a string or list that contains one of the timestamp field names, makes `name in tx` or `tx[name]` raise a `TypeError`. That error ends the whole probe with no result, and the model represents it as `Abort`. A string or list that contains no field name simply has no timestamp.

**Where the code does something a reader might not expect, the model follows the code:**
- The activity age is `int((now - latest) / 60)`. It is truncated toward zero, not floored, and it is not clamped, so a timestamp in the future gives a negative age (`Prober.FutureStampNotClamped`). Records therefore do not always carry an age that is absent or non-negative.
- An uninitialised contract or client, or a lost connection that reconnecting does not restore, gives an empty table rather than every id unresolved (`Resolver.GetEoaAddressesBatch`).
- Any string timestamp that is not all digits goes to the ISO parser, whether or not it names a UTC designator. The parser sees it after `Z` has been replaced by `+00:00`.
- The first endpoint whose latest timestamp is present and non-zero decides the result. A latest timestamp of 0 counts as no data.
- Record ids are not made unique. A roster that repeats an id yields two records with that id, and in the address table the last position of the id wins.

## Model

| member | source | states |
|---|---|---|
| Proxy.SetupProxyAcceptsExactly | gensyn_data_collector.py:56-89 | a proxy table exists exactly when the configured string is present and has exactly one `@` and a `:` on each side of it; an empty string, no `@`, two or more `@` (the failed two-way unpack) or a side without `:` give none |
| Proxy.SetupProxy | gensyn_data_collector.py:56-89 | a proxy table is built only from a configured string with exactly one `@`; it has exactly the keys `http` and `https`, mapped to the same URL |
| Proxy.SetupProxyUrl | gensyn_data_collector.py:74-82 | on success the table maps exactly `http` and `https`, both to `http://` followed by the configured `login:password@ip:port` |
| Proxy.TwoAtSignsRejected | gensyn_data_collector.py:68 | a string with two `@` yields no proxy |
| Roster.KeptRows | gensyn_data_collector.py:159 | the kept rows are exactly the rows whose ID cell is not blank, no more than the sheet has |
| Roster.ReadNodes | gensyn_data_collector.py:143-169 | no descriptors when the sheet is missing or lacks `Name`, `ID` or `Type`; otherwise one descriptor per kept row, in sheet order |
| Roster.DescribeKept | gensyn_data_collector.py:162-169 | the row loop gives one normalised descriptor per kept row, in order |
| Roster.DescribeNormalises | gensyn_data_collector.py:164-168 | each descriptor field has no surrounding whitespace, the hardware class has no lower-case letter, and normalising again changes nothing |
| Roster.BlankLookingIdIsKept | gensyn_data_collector.py:159-166 | an ID cell holding only spaces is not dropped and gives an empty id |
| Resolver.FirstReturned | gensyn_data_collector.py:224-248 | the attempt that succeeds is the first of the three whose call returns, all earlier ones having raised; there is none only when all three raise |
| Resolver.GetEoaAddressesBatch | gensyn_data_collector.py:208-269 | empty table and no call when uninitialised or disconnected; otherwise 1 to 3 calls, all but the last raising; the last call's list gives the resolved table, or three failures give every id unresolved |
| Resolver.ResolvedEntry | gensyn_data_collector.py:250-261 | every id is a key; its entry is absent when its last position is past the end of the list or holds the zero address, and is the returned address otherwise |
| Resolver.ResolvedKeys | gensyn_data_collector.py:250-261 | the keys of the resolved table and of the all-unresolved table are exactly the ids |
| Resolver.Resolved | gensyn_data_collector.py:250-261 | the positional mapping has a key for every id and only for them; a resolved address is never the zero address and is one the contract returned |
| Resolver.BatchTable | gensyn_data_collector.py:208-269 | the batch table is either empty or has a key for exactly the ids, and never maps an id to the zero address |
| Resolver.ZeroAddressExample | gensyn_data_collector.py:254-259 | for `nodeA`, `nodeB` and the list `[zero, a]`, `nodeA` is unresolved and `nodeB` maps to `a` |
| Resolver.DuplicateAndShortListExample | gensyn_data_collector.py:250-261 | a repeated id takes the address of its last position; an id past the end of the list is unresolved |
| Prober.Endpoints | gensyn_data_collector.py:276-283 | six candidate URLs, in the order they are tried |
| Prober.ListUnderFirst | gensyn_data_collector.py:305-309 | an object's transaction list is the list under the first of `items`, `transactions`, `data`, `result`, `internal_transactions` that holds a list, or empty when none does |
| Prober.SelectTransactions | gensyn_data_collector.py:301-309 | the envelope loop gives the top-level list as it is, the first list-valued envelope key of an object, and nothing otherwise |
| Prober.FromDigits | gensyn_data_collector.py:320-323 | an all-digit value up to 10^12 is taken as seconds; above it, the value divided by 1000 |
| Prober.ParseStamp | gensyn_data_collector.py:318-326 | only an integer or a string can give a timestamp; an integer gives one exactly when it is non-negative; every digit form gives a non-negative one |
| Prober.ObjectStamp | gensyn_data_collector.py:313-333 | a transaction object never aborts; its timestamp is the parse of the first field, in the fixed order, that is present, truthy and parses; it has none exactly when no field qualifies |
| Prober.TxTimestamp | gensyn_data_collector.py:313-333 | the field loop of one transaction gives its timestamp, or aborts on a value that is not an object, string or list, or on a string or list containing a field name |
| Prober.LatestIsMaximum | gensyn_data_collector.py:312-333 | the scan aborts exactly when some transaction aborts; otherwise its result is one of the timestamps, no timestamp exceeds it, and it is absent only when no transaction has one |
| Prober.ScanTransactions | gensyn_data_collector.py:312-333 | the transaction loop keeps the running maximum and leaves at the first abort |
| Prober.GetLastInternalTxTime | gensyn_data_collector.py:271-350 | the result is the probe's; the URLs requested are a prefix of the six endpoints; an empty or zero address makes no request |
| Prober.ProbeEndpoints | gensyn_data_collector.py:293-346 | the endpoint loop gives the probe's result over the URLs and requests a prefix of them, in order, stopping at the first abort or answer |
| Prober.ScanEndpoint | gensyn_data_collector.py:296-333 | one endpoint: a failed request, a status other than 200 or an empty list has no timestamp; otherwise the latest timestamp of its transactions, or the abort |
| Prober.ProbeStep | gensyn_data_collector.py:293-346 | from one endpoint on, the probe stops at an abort or an answer and otherwise moves to the next endpoint |
| Prober.ProbeFrom | gensyn_data_collector.py:293-346 | a result from a list of endpoints always comes from one of them that answered |
| Prober.Probe | gensyn_data_collector.py:271-350 | a result exists only for a non-empty, non-zero address, and comes from one of its six endpoints that answered |
| Prober.FirstAnswerWins | gensyn_data_collector.py:293-338 | when the endpoints before the `k`-th were silent and the `k`-th answers, the result is that endpoint's age in minutes; later endpoints are not merged in |
| Prober.ResultHasAnswer | gensyn_data_collector.py:293-338 | every result comes from an endpoint that answered after only silent ones |
| Prober.AllSilentGivesNothing | gensyn_data_collector.py:293-346 | when every endpoint fails, is empty or has no usable timestamp, the result is none |
| Prober.MillisecondsNormalisation | gensyn_data_collector.py:320-323 | `1700000000` and `1700000000000` normalise to the same instant; the threshold value itself is not divided |
| Prober.IsoUtcDesignator | gensyn_data_collector.py:325 | a date ending in `Z` parses as the same date ending in `+00:00` |
| Prober.DigitStringLikeInteger | gensyn_data_collector.py:318-323 | a digit string and the integer it spells give the same instant |
| Prober.SecondsAndMilliseconds | gensyn_data_collector.py:318-323 | seconds and the same instant in milliseconds agree, as integers and as digit strings |
| Prober.MinutesAgoBounds | gensyn_data_collector.py:337 | the age is whole elapsed minutes truncated toward zero: non-negative for a past timestamp, and non-positive and unclamped for a future one |
| Prober.MinutesAgo | gensyn_data_collector.py:337 | the age is non-negative for a past timestamp, non-positive for a future one, and 0 when the two instants are less than a minute apart either way |
| Prober.FutureStampNotClamped | gensyn_data_collector.py:337 | a timestamp 150 seconds in the future gives −2 minutes |
| Collector.Ids | gensyn_data_collector.py:357 | the id list has one id per node, in order |
| Collector.CollectNodeData | gensyn_data_collector.py:352-420 | exactly one record per roster node, in order, each built from the batch table entry, peer answer and clock of that node; the prober is called with exactly the addresses of nodes that have peer info and a truthy address, in order |
| Collector.RecordAll | gensyn_data_collector.py:360-405 | the per-node loop gives the records of all nodes in order, and probes exactly the addresses of nodes with peer info and a truthy address |
| Collector.NodeRecordOf | gensyn_data_collector.py:360-405 | the record of one node, plus the address handed to the prober, if any |
| Collector.RecordFor | gensyn_data_collector.py:367-405 | a record keeps its node's id, name, hardware class and resolved address and the cycle's timestamp text; without peer info it is `UNKNOWN` and offline; it carries an age only when there is peer info and the address is truthy |
| Collector.RecordForFields | gensyn_data_collector.py:368-403 | a record carries its node's id, name, hardware class and resolved address; without peer info it is `UNKNOWN`, 0, 0, offline, no age; with peer info, `reward` is the peer's `score` and `score` the peer's `reward`, each defaulting to 0; the name defaults to `Unknown` and online to false; the age is probed only for a truthy address |
| Collector.ProbedAreResolved | gensyn_data_collector.py:385-389 | every probed address is non-empty and is the table's entry for a node that has peer info |
| Collector.BatchTableNoZero | gensyn_data_collector.py:254-259 | the batch table never holds the zero address |
| Collector.ZeroAddressNeverProbed | gensyn_data_collector.py:254-259 | a node whose address resolves to zero is never probed |
| DataManager.DataStore.LoadPreviousData | data_manager.py:20-29 | returns the stored snapshot, or none when none was saved |
| DataManager.DataStore.SaveCurrentData | data_manager.py:31-37 | replaces the snapshot and leaves the history alone |
| DataManager.DataStore.SaveToHistory | data_manager.py:39-60 | the history becomes the last 100 of the old history plus the new entry: at most 100 entries, the new one last |
| DataManager.SaveShape | data_manager.py:50-53 | after one save the history holds `min(old + 1, 100)` entries: the tail of the old history in its order, then the new entry |
| DataManager.KeepLastAppend | data_manager.py:50-53 | cutting to the cap before appending does not change what the next cut keeps |
| DataManager.SaveAllKeepsLast | data_manager.py:50-53 | saving entries one at a time leaves exactly the last 100 of everything saved |
| DataManager.CalculateChanges | data_manager.py:62-83 | nothing against a missing or empty previous cycle; otherwise the diff built in current order against the previous cycle's records by id |
| DataManager.ByIdLast | data_manager.py:67 | the previous cycle's table holds, for each id, the record of its last occurrence |
| DataManager.ByIdKeys | data_manager.py:67 | the table has a key for exactly the ids that occur |
| DataManager.DiffAllEntries | data_manager.py:66-83 | an entry for exactly the current ids the previous table holds, comparing the id's last current record with the previous record; the key order lists each key once |
| DataManager.ChangesEntries | data_manager.py:67-81 | an id present in both cycles gets the difference of wins and of rewards, the online flip, and the activity change only when both ages are known, comparing the last record of the id in each cycle |
| DataManager.Diff | data_manager.py:73-81 | an entry shows no movement exactly when wins, rewards and online status are unchanged; it has an activity change exactly when both ages are known |
| DataManager.ById | data_manager.py:67 | every entry of the previous cycle's table is a record of that cycle filed under its own id |
| DataManager.DiffAll | data_manager.py:66-83 | the changes only name ids of the previous table, and the key order lists exactly the keys |
| DataManager.ChangesWellFormed | data_manager.py:62-83 | the changes dictionary lists each key exactly once in its order, and its order holds exactly its keys |
| DataManager.DiffAllOrder | data_manager.py:66-81 | the changes dictionary's key order holds exactly the ids of the current cycle that the previous cycle has, each once, in the order of their first occurrence in the current cycle |
| DataManager.OrderFirstSeen | data_manager.py:66-81 | a key enters the dictionary's order at the first occurrence of its id; later records of the same id only replace its entry |
| DataManager.ChangesOnlyShared | data_manager.py:63-71 | an entry exists only when there is a previous cycle and the id occurs in both cycles; new and removed ids get none |
| DataManager.SelfDiff | data_manager.py:73-81 | diffing a cycle against itself gives every id an entry with zero deltas, no online flip and an activity change of 0 or none |
| DataManager.StatusOf | data_manager.py:85-95 | no data for an unknown age; otherwise lower-inclusive bands below 10, 10 to 30, 30 to 60, and 60 or more |
| Notifier.ChunksShape | telegram_notifier.py:18-19 | the chunks of a message join back to it; each is at most 4000 characters, all but the last exactly 4000, none empty, and their number is the rounded-up quotient |
| Notifier.Chunks | telegram_notifier.py:18-19 | a message always gives at least one chunk, and no chunk is longer than 4000 characters |
| Notifier.SendMessage | telegram_notifier.py:16-30 | up to 4000 characters: one send, whose result is returned; longer: the chunks are sent in order and the result is success whatever the sends returned |
| Notifier.Top | telegram_notifier.py:140-143 | a listing shows a prefix of at most `n` items, and the rest are counted; the count is positive exactly when there were more than `n` |
| Notifier.OnlineCount | telegram_notifier.py:83 | the online count does not exceed the node count |
| Notifier.AddressCount | telegram_notifier.py:84 | the count of nodes with an address does not exceed the node count |
| Notifier.BucketCount | telegram_notifier.py:99-103 | a bucket count does not exceed the node count |
| Notifier.BucketsCoverAll | telegram_notifier.py:99-103 | the five activity buckets add up to the number of nodes |
| Notifier.HardwareStats | telegram_notifier.py:89-97 | the class loop gives the per-class counters in the order the classes first occur |
| Notifier.Tally | telegram_notifier.py:89-97 | there are no more hardware classes than nodes |
| Notifier.ClassCount | telegram_notifier.py:89-97 | a class has no more nodes than the report |
| Notifier.TallyClasses | telegram_notifier.py:89-97 | each class that occurs is listed once; its total is its number of nodes and its online count is at most its total |
| Notifier.TallyTotals | telegram_notifier.py:89-97 | the class totals add up to the number of nodes |
| Notifier.TallyWins | telegram_notifier.py:85-97 | the class wins add up to the report's total wins |
| Notifier.Attention | telegram_notifier.py:132-138 | the attention list is no longer than the data |
| Notifier.AttentionNodes | telegram_notifier.py:132-138 | the loop collects the nodes 30 or more minutes behind, in data order |
| Notifier.AttentionExactly | telegram_notifier.py:130-138 | the attention list holds exactly the nodes 30 or more minutes behind, as many as the warning and problem buckets together |
| Notifier.FirstWithId | telegram_notifier.py:150 | the node looked up for a change is the first with that id, and there is none exactly when no node has it |
| Notifier.SignificantFrom | telegram_notifier.py:149-168 | no more changes are listed than the dictionary holds |
| Notifier.SignificantChanges | telegram_notifier.py:145-168 | the loop lists node and change pairs in the dictionary's order |
| Notifier.SignificantExactly | telegram_notifier.py:149-168 | an id's change is listed exactly when the id names a node of this cycle and moved wins or rewards or flipped online, and it is listed with the first such node |
| Notifier.ChangeSectionOf | telegram_notifier.py:145-178 | the first-run note appears exactly when the changes dictionary is empty; otherwise at most 8 changes are listed and the rest are counted, together as many as the significant changes |
| Notifier.MainReportOf | telegram_notifier.py:80-180 | a report exists exactly when the cycle has nodes; it counts every node, and the online and problem counts do not exceed them |
| Notifier.CreateMainReport | telegram_notifier.py:80-180 | the report's numbers and lists, for a changes dictionary that lists each key once; none for an empty cycle, whose percentages divide by zero |
| Notifier.MainReportCounts | telegram_notifier.py:83-178 | the buckets add up to the nodes; online and with-address counts are bounded by them; class totals and wins add up; the attention section appears exactly when some node is 30 or more minutes behind and lists at most 5, the rest counted; the first-run note appears exactly when the changes dictionary is empty, which for a dictionary listing each key once is when its order is empty |
| Notifier.MainReportTotals | telegram_notifier.py:83-103 | the five buckets add up to the nodes; the online and with-address counts are bounded by them; class totals add up to the nodes and class wins to the total wins |
| Notifier.MainReportAttention | telegram_notifier.py:130-143 | the attention section appears exactly when some node is 30 or more minutes behind; it shows a prefix of at most 5 of those nodes and counts the rest, as many as the warning and problem buckets |
| Notifier.AttentionNonEmpty | telegram_notifier.py:130-138 | the attention list is non-empty exactly when some node needs attention |
| Notifier.ClockSplit | telegram_notifier.py:202-204 | hours × 60 + minutes is the age, with minutes below 60; from 60 minutes on, the age is always shown with hours |
| Notifier.Clock | telegram_notifier.py:202-204 | an age is shown with hours exactly when it is 60 minutes or more, and then hours × 60 + minutes is the age; the minutes shown are always below 60 |
| Notifier.AgeMatchesStatus | telegram_notifier.py:186-204 | the detailed report's age line agrees with the activity status: unknown for no data, hours for a problem, plain minutes otherwise |
| Notifier.CreateDetailedReport | telegram_notifier.py:182-227 | node blocks are added until the text passes 3000 characters; every shorter prefix stayed within 3000; a report cut short ends with the number of nodes left out; at least one node is shown |
| Notifier.Critical | telegram_notifier.py:256-258 | every critical node is known to be 60 or more minutes behind |
| Notifier.CriticalExactly | telegram_notifier.py:256-258 | the critical nodes are exactly those 60 or more minutes behind, as many as the problem bucket, and all of them need attention |
| Notifier.CreateCriticalAlert | telegram_notifier.py:229-245 | the alert counts every critical node and lists the first three with their hours and minutes; the rest are counted |
| Notifier.AlertNotification | telegram_notifier.py:256-263 | the alert sent is the one `create_critical_alert` builds for the critical nodes: it counts them, as many as the problem bucket, and lists the first three with their hours and minutes, the rest counted |
| Notifier.DetailedNotification | telegram_notifier.py:270-273 | the report sent is the one `create_detailed_report` builds: the header and node blocks up to the first that passes 3000 characters, then the number of nodes left out |
| Notifier.SendMonitoringNotifications | telegram_notifier.py:247-278 | nothing is sent for an empty cycle; the main report goes first; when it is not delivered nothing follows; otherwise come, in order, the alert when a node is critical, the spreadsheet when it exists, and the detailed report for at most 15 nodes; every alert sent is the critical alert of the cycle and every detailed report sent is the cycle's detailed report |
| Notifier.FollowUps | telegram_notifier.py:256-273 | the notifications after a delivered main report: one of each kind whose condition holds, in sending order, each alert and detailed report being the one built for the cycle |
| Notifier.PlanFacts | telegram_notifier.py:256-273 | the follow-ups are in sending order after the main report, and contain an alert, the spreadsheet or the detailed report exactly when each was produced; the only alert and the only detailed report are the ones produced |
| Notifier.WithMainReport | telegram_notifier.py:250-273 | putting the main report first keeps the order and keeps every alert and detailed report the one built for the cycle, and adds no alert, spreadsheet or detailed report |

## Left out

- Network and library I/O: the HTTP session, the web3 provider and its connection checks, the contract ABI, pandas and openpyxl, JSON files, and the chat API. Each appears only as the value it yields: `fetch`, `call`, `peers`, `mainDelivered`, `spreadsheetReady`, the connection flags, and a sheet that is absent when it cannot be read.
- `setup_web3_connection`: connecting and reconnecting are reduced to the `connected` and `reconnected` flags. Rebuilding the contract between attempts affects what later calls return, and `call(k)` already gives that. The model takes the rebuild not to raise, since it uses the address and ABI that already worked at start-up. If it did raise, the error would reach the outer handler and every id would come back unresolved.
- `get_peer_info`: the answer is typed. A body that is not a JSON object is not modelled; the debug line of `get_peer_info` would raise on it and end the cycle. Peer fields holding JSON `null` or non-integer counters are not modelled either.
- The ISO 8601 parser and the local-time conversion of `timestamp()` form the `iso` parameter. Floating-point rounding of `/ 1000`, `/ 60`, the percentages and `avg_score` is not modelled: real division is exact.
- `Text.IsDigit` covers ASCII digits only. A string of other Unicode decimal digits (Arabic-Indic or full-width, say) passes `isdigit`, and `int()` reads it as a number; the model sends it to the ISO parser instead. Only digits that are not decimal, such as superscripts, pass `isdigit` and then fail in `int()`, which the bare `except` skips. `Text.Upper` upper-cases ASCII letters only.
- A JSON value that is not a string and not a digit form (a float, a boolean, a negative integer, a list or an object) is treated as one the ISO parser rejects, as it does their Python text.
- The HTML and emoji text of the reports, their clock lines, and the per-node text of the detailed report (`block`, `header`) are not modelled. The main report's text is not built, so the outcome of sending it is the `mainDelivered` parameter. What happens to the alert, spreadsheet and detailed sends is not observed, as in `send_monitoring_notifications`.
- `Notifier.CreateCriticalAlert` requires the first three listed nodes to carry an age. The source would raise a `TypeError` otherwise, and its only caller passes nodes 60 or more minutes behind.
- `Notifier.SendMessage`: its outer exception handler cannot be reached, because each single send catches its own errors; the model's `deliver` is total.
- `DataManager.DataStore.SaveToHistory`: a history file that cannot be read or written makes `save_to_history` log the error and save nothing. The model's in-memory history always saves.
- `Collector.CollectNodeData`: one `fetch` answers every request of the cycle, so two nodes with the same address get the same HTTP answers. `get_last_internal_tx_time` makes a fresh request for each node, and the service could answer them differently.
- `print_console_report`, `save_excel_report` (with its column-width loop), logging, and the per-node status icons written to the log are not modelled.
- `time.sleep`, the scheduler in main.py, and the constants in config.py are not part of this model. The proxy string and the thresholds are parameters or constants here.
