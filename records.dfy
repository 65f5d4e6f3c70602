/** Values shared by the collector, the data manager and the notifier. */
module Records {

  datatype Option<T> = None | Some(value: T)

  /** The address the resolver contract returns for an unbound node id. */
  const ZeroAddress: string := "0x0000000000000000000000000000000000000000"

  /** Python truthiness of an optional address: present and not the empty string. */
  predicate AddressTruthy(a: Option<string>) {
    a.Some? && a.value != ""
  }

  /**
   * One monitored node's record for one cycle. The field names are those of
   * the dictionaries `collect_node_data` builds: `reward` holds the number of
   * wins and `score` holds the rewards (the peer service's `score` and
   * `reward` are cross-wired when the record is built). `timestamp` is the collection instant as ISO 8601 text.
   */
  datatype NodeRecord = NodeRecord(
    id: string,
    customName: string,
    apiName: string,
    hardwareType: string,
    address: Option<string>,
    reward: int,
    score: int,
    online: bool,
    lastTxMinutesAgo: Option<int>,
    timestamp: string)
}
