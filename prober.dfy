/**
 * The activity prober: the minutes since an address's latest internal
 * transaction, read from the first explorer endpoint that answers with a
 * usable timestamp. HTTP responses, the ISO 8601 parser and the clock are
 * parameters.
 */
module Prober {
  import opened Records
  import opened Text

  /** A decoded JSON value. */
  datatype Json =
    | JNull
    | JBool(b: bool)
    | JInt(i: int)
    | JFloat(f: real)
    | JStr(s: string)
    | JArr(items: seq<Json>)
    | JObj(fields: map<string, Json>)

  /** Python truthiness of a decoded JSON value. */
  predicate Truthy(v: Json) {
    match v
    case JNull => false
    case JBool(b) => b
    case JInt(i) => i != 0
    case JFloat(f) => f != 0.0
    case JStr(s) => s != []
    case JArr(items) => items != []
    case JObj(fields) => fields != map[]
  }

  /** What one GET gives: a request exception, or a status and a body (`None` when it is not JSON). */
  datatype HttpOutcome = RequestFailed | Response(status: int, body: Option<Json>)

  /** An ISO 8601 parser: `datetime.fromisoformat(s).timestamp()`, `None` when it raises. */
  type IsoParser = string -> Option<real>

  /** The envelope keys, in the order they are tried. */
  const EnvelopeKeys: seq<string> := ["items", "transactions", "data", "result", "internal_transactions"]

  /** The timestamp fields of a transaction, in the order they are tried. */
  const TimestampFields: seq<string> := ["timestamp", "block_timestamp", "created_at", "time", "block_time"]

  /** Digit-only timestamps above this are taken as milliseconds. */
  const MillisThreshold: int := 1000000000000

  const ExplorerApi: string := "https://gensyn-testnet.explorer.alchemy.com/api"

  /** The candidate endpoints for an address, in the order they are tried. */
  function Endpoints(address: string): (urls: seq<string>)
    ensures |urls| == 6
  {
    [ ExplorerApi + "/v2/addresses/" + address + "/internal-transactions",
      ExplorerApi + "/v1/addresses/" + address + "/internal-transactions",
      ExplorerApi + "/addresses/" + address + "/internal-transactions",
      ExplorerApi + "/v2/addresses/" + address + "/internal_transactions",
      ExplorerApi + "/v1/addresses/" + address + "/internal_transactions",
      ExplorerApi + "/v2/addresses/" + address + "/transactions?filter=internal" ]
  }

  // ---------------------------------------------------------------------------
  // Envelope selection

  /** The transaction list of a response body: the first envelope key in `keys` that holds a list. */
  function ListUnder(fields: map<string, Json>, keys: seq<string>): seq<Json> {
    if keys == [] then []
    else if keys[0] in fields && fields[keys[0]].JArr? then fields[keys[0]].items
    else ListUnder(fields, keys[1..])
  }

  /** A top-level list as it is; an object's first list-valued envelope key; nothing otherwise. */
  function Envelope(data: Json): seq<Json> {
    match data
    case JArr(items) => items
    case JObj(fields) => ListUnder(fields, EnvelopeKeys)
    case _ => []
  }

  predicate HoldsList(fields: map<string, Json>, key: string) {
    key in fields && fields[key].JArr?
  }

  /**
   * The envelope of an object is the list under the first key that holds
   * one, or empty when no key does.
   */
  lemma {:induction false} ListUnderFirst(fields: map<string, Json>, keys: seq<string>)
    ensures (forall k :: 0 <= k < |keys| ==> !HoldsList(fields, keys[k])) ==> ListUnder(fields, keys) == []
    ensures forall k :: 0 <= k < |keys| && HoldsList(fields, keys[k])
                        && (forall j :: 0 <= j < k ==> !HoldsList(fields, keys[j]))
                        ==> ListUnder(fields, keys) == fields[keys[k]].items
  {
    if keys != [] {
      ListUnderFirst(fields, keys[1..]);
      forall k | 0 <= k < |keys| && HoldsList(fields, keys[k])
        && (forall j :: 0 <= j < k ==> !HoldsList(fields, keys[j]))
        ensures ListUnder(fields, keys) == fields[keys[k]].items
      {
        if k > 0 {
          assert !HoldsList(fields, keys[0]);
          assert keys[1..][k - 1] == keys[k];
          assert forall j :: 0 <= j < k - 1 ==> keys[1..][j] == keys[j + 1];
        }
      }
    }
  }

  /** The loop over the envelope keys (`for key in possible_keys ... break`). */
  method SelectTransactions(data: Json) returns (txs: seq<Json>)
    ensures txs == Envelope(data)
  {
    txs := [];
    if data.JArr? {
      txs := data.items;
    } else if data.JObj? {
      var i := 0;
      while i < |EnvelopeKeys|
        invariant i <= |EnvelopeKeys|
        invariant ListUnder(data.fields, EnvelopeKeys) == ListUnder(data.fields, EnvelopeKeys[i..])
      {
        var key := EnvelopeKeys[i];
        if key in data.fields && data.fields[key].JArr? {
          txs := data.fields[key].items;
          break;
        }
        i := i + 1;
      }
    }
  }

  // ---------------------------------------------------------------------------
  // Timestamps

  /** `str(v)` read as a number when `str(v).isdigit()`: a non-negative integer or a digit string. */
  function DigitForm(v: Json): Option<nat> {
    match v
    case JInt(i) => if i >= 0 then Some(i) else None
    case JStr(s) => if AllDigits(s) then Some(DigitsValue(s)) else None
    case _ => None
  }

  /** An all-digit timestamp in seconds: values above the threshold are milliseconds and are divided by 1000. */
  function FromDigits(n: nat): (t: real)
    ensures n <= MillisThreshold ==> t == n as real
    ensures n > MillisThreshold ==> t * 1000.0 == n as real
  {
    if n > MillisThreshold then n as real / 1000.0 else n as real
  }

  /**
   * The instant a timestamp value denotes, or `None` when it does not parse:
   * digits go through `FromDigits`, a string goes to the ISO parser after
   * `Z` is replaced by `+00:00`, and any other value is not accepted.
   */
  function ParseStamp(v: Json, iso: IsoParser): (r: Option<real>)
    ensures r.Some? ==> v.JInt? || v.JStr?
    ensures v.JInt? ==> (r.Some? <==> v.i >= 0)
    ensures DigitForm(v).Some? ==> r.Some? && r.value >= 0.0
  {
    match DigitForm(v)
    case Some(n) => Some(FromDigits(n))
    case None => if v.JStr? then iso(ReplaceChar(v.s, 'Z', "+00:00")) else None
  }

  /** What scanning one transaction gives. `Abort` is the TypeError that ends the whole probe. */
  datatype TxScan = NoStamp | Stamp(t: real) | Abort

  /** Python's `name in tx` on a JSON value that supports `in` (object, string or list). */
  predicate HasMember(tx: Json, name: string)
    requires tx.JObj? || tx.JStr? || tx.JArr?
  {
    match tx
    case JObj(fields) => name in fields
    case JStr(s) => Contains(s, name)
    case JArr(items) => JStr(name) in items
  }

  /** Substring test. */
  predicate Contains(s: string, part: string) {
    part <= s || (s != [] && Contains(s[1..], part))
  }

  /**
   * The scan of one transaction over `names`: the first field that is
   * present, truthy and parses gives the stamp. A string or list that
   * "contains" a field name fails on `tx[name]`.
   */
  function FieldScan(tx: Json, names: seq<string>, iso: IsoParser): TxScan
    requires tx.JObj? || tx.JStr? || tx.JArr?
  {
    if names == [] then NoStamp
    else if !HasMember(tx, names[0]) then FieldScan(tx, names[1..], iso)
    else if !tx.JObj? then Abort
    else if !Truthy(tx.fields[names[0]]) then FieldScan(tx, names[1..], iso)
    else match ParseStamp(tx.fields[names[0]], iso)
      case Some(t) => Stamp(t)
      case None => FieldScan(tx, names[1..], iso)
  }

  /** The scan of one transaction; `name in tx` raises on a number, a boolean or null. */
  function TxStamp(tx: Json, iso: IsoParser): TxScan {
    if tx.JObj? || tx.JStr? || tx.JArr? then FieldScan(tx, TimestampFields, iso) else Abort
  }

  /** A field of a transaction object that gives a stamp. */
  predicate Usable(fields: map<string, Json>, name: string, iso: IsoParser) {
    name in fields && Truthy(fields[name]) && ParseStamp(fields[name], iso).Some?
  }

  /**
   * A transaction object never aborts; its stamp is the parse of the first
   * usable field, and it has none exactly when no field is usable.
   */
  lemma {:induction false} ObjectStamp(fields: map<string, Json>, names: seq<string>, iso: IsoParser)
    ensures FieldScan(JObj(fields), names, iso) != Abort
    ensures FieldScan(JObj(fields), names, iso) == NoStamp
      <==> forall k :: 0 <= k < |names| ==> !Usable(fields, names[k], iso)
    ensures forall k :: 0 <= k < |names| && Usable(fields, names[k], iso)
                        && (forall j :: 0 <= j < k ==> !Usable(fields, names[j], iso))
                        ==> FieldScan(JObj(fields), names, iso) == Stamp(ParseStamp(fields[names[k]], iso).value)
  {
    if names != [] {
      ObjectStamp(fields, names[1..], iso);
      assert forall k :: 1 <= k < |names| ==> names[1..][k - 1] == names[k];
      forall k | 0 <= k < |names| && Usable(fields, names[k], iso)
        && (forall j :: 0 <= j < k ==> !Usable(fields, names[j], iso))
        ensures FieldScan(JObj(fields), names, iso) == Stamp(ParseStamp(fields[names[k]], iso).value)
      {
        if k > 0 {
          assert !Usable(fields, names[0], iso);
          assert forall j :: 0 <= j < k - 1 ==> names[1..][j] == names[j + 1];
        }
      }
    }
  }

  /** The loop over the timestamp fields of one transaction. */
  method TxTimestamp(tx: Json, iso: IsoParser) returns (scan: TxScan)
    ensures scan == TxStamp(tx, iso)
  {
    if !(tx.JObj? || tx.JStr? || tx.JArr?) {
      return Abort;
    }
    var i := 0;
    while i < |TimestampFields|
      invariant i <= |TimestampFields|
      invariant FieldScan(tx, TimestampFields, iso) == FieldScan(tx, TimestampFields[i..], iso)
    {
      var name := TimestampFields[i];
      assert TimestampFields[i..][1..] == TimestampFields[i + 1..];
      if HasMember(tx, name) {
        if !tx.JObj? {
          return Abort;
        }
        if Truthy(tx.fields[name]) {
          var parsed := ParseStamp(tx.fields[name], iso);
          if parsed.Some? {
            return Stamp(parsed.value);
          }
        }
      }
      i := i + 1;
    }
    return NoStamp;
  }

  // ---------------------------------------------------------------------------
  // The latest timestamp of a transaction list

  /** The scan of a transaction list: an abort, or the latest stamp (`None` when there is none). */
  datatype Scan = Aborted | Latest(latest: Option<real>)

  /** The larger of a running maximum and a new stamp. */
  function Later(acc: Option<real>, t: real): real {
    if acc.None? || t > acc.value then t else acc.value
  }

  /** The scan of `txs` from left to right, starting from the running maximum `acc`. */
  function LatestFrom(txs: seq<Json>, acc: Option<real>, iso: IsoParser): Scan {
    if txs == [] then Latest(acc)
    else match TxStamp(txs[0], iso)
      case Abort => Aborted
      case NoStamp => LatestFrom(txs[1..], acc, iso)
      case Stamp(t) => LatestFrom(txs[1..], Some(Later(acc, t)), iso)
  }

  /**
   * The scan aborts exactly when some transaction aborts. Otherwise the
   * latest stamp is the maximum of the running value and all stamps: it is
   * one of them and no stamp exceeds it, and it is `None` only when there
   * was no running value and no stamp.
   */
  lemma {:induction false} LatestIsMaximum(txs: seq<Json>, acc: Option<real>, iso: IsoParser)
    ensures LatestFrom(txs, acc, iso).Aborted? <==> exists i :: 0 <= i < |txs| && TxStamp(txs[i], iso).Abort?
    ensures var s := LatestFrom(txs, acc, iso);
      s.Latest? ==>
        && (s.latest.None? <==> acc.None? && forall i :: 0 <= i < |txs| ==> !TxStamp(txs[i], iso).Stamp?)
        && (s.latest.Some? ==>
              && (acc.Some? ==> acc.value <= s.latest.value)
              && (forall i :: 0 <= i < |txs| && TxStamp(txs[i], iso).Stamp? ==> TxStamp(txs[i], iso).t <= s.latest.value)
              && (Some(s.latest.value) == acc || exists i :: 0 <= i < |txs| && TxStamp(txs[i], iso) == Stamp(s.latest.value)))
  {
    if txs != [] {
      var head := TxStamp(txs[0], iso);
      var next := if head.Stamp? then Some(Later(acc, head.t)) else acc;
      LatestIsMaximum(txs[1..], next, iso);
      assert forall i :: 1 <= i < |txs| ==> txs[1..][i - 1] == txs[i];
      if head.Abort? {
        assert LatestFrom(txs, acc, iso).Aborted?;
      } else {
        assert LatestFrom(txs, acc, iso) == LatestFrom(txs[1..], next, iso);
        if (exists i :: 0 <= i < |txs| && TxStamp(txs[i], iso).Abort?) {
          var i :| 0 <= i < |txs| && TxStamp(txs[i], iso).Abort?;
          assert TxStamp(txs[1..][i - 1], iso).Abort?;
        }
        var s := LatestFrom(txs, acc, iso);
        if s.Latest? && s.latest.Some? {
          if Some(s.latest.value) != next {
            var i :| 0 <= i < |txs| - 1 && TxStamp(txs[1..][i], iso) == Stamp(s.latest.value);
            assert TxStamp(txs[i + 1], iso) == Stamp(s.latest.value);
          } else if Some(s.latest.value) != acc {
            assert TxStamp(txs[0], iso) == Stamp(s.latest.value);
          }
        }
      }
    }
  }

  /** The loop over a transaction list, keeping the running maximum; an abort leaves the loop at once. */
  method ScanTransactions(txs: seq<Json>, iso: IsoParser) returns (scan: Scan)
    ensures scan == LatestFrom(txs, None, iso)
  {
    var latest: Option<real> := None;
    var i := 0;
    while i < |txs|
      invariant i <= |txs|
      invariant LatestFrom(txs, None, iso) == LatestFrom(txs[i..], latest, iso)
    {
      assert txs[i..][1..] == txs[i + 1..];
      var stamp := TxTimestamp(txs[i], iso);
      if stamp.Abort? {
        return Aborted;
      }
      if stamp.Stamp? && (latest.None? || stamp.t > latest.value) {
        latest := Some(stamp.t);
      }
      i := i + 1;
    }
    return Latest(latest);
  }

  // ---------------------------------------------------------------------------
  // Endpoint fallback

  /** `int(x)`: truncation toward zero. */
  function Truncate(x: real): int {
    if x >= 0.0 then x.Floor else -((-x).Floor)
  }

  /** `int((now - latest) / 60)`: whole minutes, truncated toward zero and not clamped at zero. */
  function MinutesAgo(now: real, latest: real): (m: int)
    ensures now >= latest ==> m >= 0
    ensures now <= latest ==> m <= 0
    ensures now - latest < 60.0 && latest - now < 60.0 ==> m == 0
  {
    Truncate((now - latest) / 60.0)
  }

  /** What one endpoint contributes: the scan of its transaction list, or nothing when it failed. */
  function EndpointScan(outcome: HttpOutcome, iso: IsoParser): Scan {
    if outcome.RequestFailed? || outcome.status != 200 || outcome.body.None? then Latest(None)
    else
      var txs := Envelope(outcome.body.value);
      if txs == [] then Latest(None) else LatestFrom(txs, None, iso)
  }

  /** An endpoint answers when its latest stamp is present and non-zero (Python truthiness). */
  predicate Answers(outcome: HttpOutcome, iso: IsoParser) {
    var s := EndpointScan(outcome, iso);
    s.Latest? && s.latest.Some? && s.latest.value != 0.0
  }

  /** An endpoint that neither answers nor aborts, after which the next one is tried. */
  predicate Silent(outcome: HttpOutcome, iso: IsoParser) {
    EndpointScan(outcome, iso).Latest? && !Answers(outcome, iso)
  }

  /** The probe over the remaining endpoints. */
  function ProbeFrom(urls: seq<string>, fetch: string -> HttpOutcome, iso: IsoParser, now: real): (r: Option<int>)
    ensures r.Some? ==> exists u :: u in urls && Answers(fetch(u), iso)
  {
    if urls == [] then None
    else
      var s := EndpointScan(fetch(urls[0]), iso);
      if s.Aborted? then None
      else if Answers(fetch(urls[0]), iso) then Some(MinutesAgo(now, s.latest.value))
      else ProbeFrom(urls[1..], fetch, iso, now)
  }

  /** `get_last_internal_tx_time` as a value: nothing for an empty or zero address. */
  function Probe(address: string, fetch: string -> HttpOutcome, iso: IsoParser, now: real): (r: Option<int>)
    ensures r.Some? ==> address != "" && address != ZeroAddress
    ensures r.Some? ==> exists u :: u in Endpoints(address) && Answers(fetch(u), iso)
  {
    if address == "" || address == ZeroAddress then None
    else ProbeFrom(Endpoints(address), fetch, iso, now)
  }

  /**
   * `get_last_internal_tx_time`. `fetch` gives the outcome of a GET on a
   * URL and `now` is `time.time()`. Returns the minutes and the URLs
   * requested, in order.
   */
  method GetLastInternalTxTime(address: string, fetch: string -> HttpOutcome, iso: IsoParser, now: real)
    returns (minutes: Option<int>, requested: seq<string>)
    ensures minutes == Probe(address, fetch, iso, now)
    ensures |requested| <= 6 && requested == Endpoints(address)[..|requested|]
    ensures address == "" || address == ZeroAddress ==> requested == []
  {
    if address == "" || address == ZeroAddress {
      return None, [];
    }
    minutes, requested := ProbeEndpoints(Endpoints(address), fetch, iso, now);
  }

  /** The endpoint loop: each URL in turn until an abort or an answer. */
  method ProbeEndpoints(urls: seq<string>, fetch: string -> HttpOutcome, iso: IsoParser, now: real)
    returns (minutes: Option<int>, requested: seq<string>)
    ensures minutes == ProbeFrom(urls, fetch, iso, now)
    ensures |requested| <= |urls| && requested == urls[..|requested|]
  {
    requested := [];
    var e := 0;
    while e < |urls|
      invariant e <= |urls| && requested == urls[..e]
      invariant ProbeFrom(urls, fetch, iso, now) == ProbeFrom(urls[e..], fetch, iso, now)
    {
      ProbeStep(urls, e, fetch, iso, now);
      var outcome := fetch(urls[e]);
      requested := requested + [urls[e]];
      var scan := ScanEndpoint(outcome, iso);
      if scan.Aborted? {
        // the TypeError escapes to the handler around the whole probe
        return None, requested;
      }
      if scan.latest.Some? && scan.latest.value != 0.0 {
        return Some(MinutesAgo(now, scan.latest.value)), requested;
      }
      e := e + 1;
    }
    return None, requested;
  }

  /** The probe from endpoint `e` on: stop on an abort or an answer, otherwise go on with the next. */
  lemma ProbeStep(urls: seq<string>, e: nat, fetch: string -> HttpOutcome, iso: IsoParser, now: real)
    requires e < |urls|
    ensures var s := EndpointScan(fetch(urls[e]), iso);
      ProbeFrom(urls[e..], fetch, iso, now) ==
        if s.Aborted? then None
        else if Answers(fetch(urls[e]), iso) then Some(MinutesAgo(now, s.latest.value))
        else ProbeFrom(urls[e + 1..], fetch, iso, now)
  {
    assert urls[e..][1..] == urls[e + 1..];
  }

  /** The body of the endpoint loop: the transactions of a good response, scanned for their latest stamp. */
  method ScanEndpoint(outcome: HttpOutcome, iso: IsoParser) returns (scan: Scan)
    ensures scan == EndpointScan(outcome, iso)
  {
    scan := Latest(None);
    if outcome.Response? && outcome.status == 200 && outcome.body.Some? {
      var txs := SelectTransactions(outcome.body.value);
      if txs != [] {
        scan := ScanTransactions(txs, iso);
      }
    }
  }

  // ---------------------------------------------------------------------------
  // Properties of the probe

  /**
   * The first endpoint that answers decides the result when every endpoint
   * before it was silent: no merging across endpoints.
   */
  lemma {:induction false} FirstAnswerWins(urls: seq<string>, k: nat, fetch: string -> HttpOutcome, iso: IsoParser, now: real)
    requires k < |urls| && Answers(fetch(urls[k]), iso)
    requires forall j :: 0 <= j < k ==> Silent(fetch(urls[j]), iso)
    ensures ProbeFrom(urls, fetch, iso, now) == Some(MinutesAgo(now, EndpointScan(fetch(urls[k]), iso).latest.value))
  {
    if k > 0 {
      assert Silent(fetch(urls[0]), iso);
      assert urls[1..][k - 1] == urls[k];
      assert forall j :: 0 <= j < k - 1 ==> urls[1..][j] == urls[j + 1];
      FirstAnswerWins(urls[1..], k - 1, fetch, iso, now);
    }
  }

  /**
   * A result comes from some endpoint that answered, every endpoint before
   * it having been silent.
   */
  lemma {:induction false} ResultHasAnswer(urls: seq<string>, fetch: string -> HttpOutcome, iso: IsoParser, now: real)
    requires ProbeFrom(urls, fetch, iso, now).Some?
    ensures exists k :: 0 <= k < |urls| && Answers(fetch(urls[k]), iso)
                        && (forall j :: 0 <= j < k ==> Silent(fetch(urls[j]), iso))
                        && ProbeFrom(urls, fetch, iso, now) == Some(MinutesAgo(now, EndpointScan(fetch(urls[k]), iso).latest.value))
  {
    if !Answers(fetch(urls[0]), iso) {
      ResultHasAnswer(urls[1..], fetch, iso, now);
      var k :| 0 <= k < |urls| - 1 && Answers(fetch(urls[1..][k]), iso)
        && (forall j :: 0 <= j < k ==> Silent(fetch(urls[1..][j]), iso))
        && ProbeFrom(urls[1..], fetch, iso, now) == Some(MinutesAgo(now, EndpointScan(fetch(urls[1..][k]), iso).latest.value));
      assert urls[1..][k] == urls[k + 1];
      forall j | 0 <= j < k + 1 ensures Silent(fetch(urls[j]), iso) {
        if j > 0 { assert urls[1..][j - 1] == urls[j]; }
      }
    }
  }

  /** When every endpoint is silent the probe has no data. */
  lemma {:induction false} AllSilentGivesNothing(urls: seq<string>, fetch: string -> HttpOutcome, iso: IsoParser, now: real)
    requires forall j :: 0 <= j < |urls| ==> Silent(fetch(urls[j]), iso)
    ensures ProbeFrom(urls, fetch, iso, now) == None
  {
    if urls != [] {
      assert Silent(fetch(urls[0]), iso);
      assert forall j :: 0 <= j < |urls| - 1 ==> urls[1..][j] == urls[j + 1];
      AllSilentGivesNothing(urls[1..], fetch, iso, now);
    }
  }

  /** Seconds and the same instant in milliseconds normalise alike; the threshold itself is not divided. */
  lemma MillisecondsNormalisation()
    ensures FromDigits(1700000000) == FromDigits(1700000000000) == 1700000000.0
    ensures FromDigits(MillisThreshold) == MillisThreshold as real
    ensures FromDigits(MillisThreshold + 1) < MillisThreshold as real
  {
  }

  /**
   * A string ending in the `Z` designator is parsed as its `+00:00` form, so
   * `...Z` and `...+00:00` denote the same instant.
   */
  lemma IsoUtcDesignator(date: string, iso: IsoParser)
    requires 'Z' !in date
    ensures ParseStamp(JStr(date + "Z"), iso) == iso(date + "+00:00")
    ensures ParseStamp(JStr(date + "Z"), iso) == ParseStamp(JStr(date + "+00:00"), iso)
  {
    var z, u := date + "Z", date + "+00:00";
    assert !AllDigits(z) by { assert !IsDigit(z[|z| - 1]); }
    assert !AllDigits(u) by { assert !IsDigit(u[|u| - 6]); }
    UtcReplaced(date);
    ReplaceCharAbsent(u, 'Z', "+00:00");
  }

  /** Replacing `Z` by `+00:00` turns the `Z` form into the `+00:00` form. */
  lemma UtcReplaced(date: string)
    requires 'Z' !in date
    ensures ReplaceChar(date + "Z", 'Z', "+00:00") == date + "+00:00"
  {
    ReplaceCharAppend(date, "Z", 'Z', "+00:00");
    ReplaceCharAbsent(date, 'Z', "+00:00");
    assert ReplaceChar("Z", 'Z', "+00:00") == "+00:00";
  }

  /** A JSON string of digits and the JSON integer it spells denote the same instant. */
  lemma DigitStringLikeInteger(n: nat, iso: IsoParser)
    ensures ParseStamp(JStr(NatText(n)), iso) == ParseStamp(JInt(n), iso) == Some(FromDigits(n))
  {
  }

  /** Seconds and the same instant in milliseconds normalise alike, as integers or as digit strings. */
  lemma SecondsAndMilliseconds(iso: IsoParser)
    ensures ParseStamp(JInt(1700000000000), iso) == ParseStamp(JInt(1700000000), iso) == Some(1700000000.0)
    ensures ParseStamp(JStr(NatText(1700000000000)), iso) == ParseStamp(JStr(NatText(1700000000)), iso)
  {
    DigitStringLikeInteger(1700000000000, iso);
    DigitStringLikeInteger(1700000000, iso);
  }

  /**
   * The minutes are whole minutes truncated toward zero: for a past stamp
   * they are non-negative and floor the elapsed time, for a future stamp
   * they are not clamped and may be negative.
   */
  lemma MinutesAgoBounds(now: real, latest: real)
    ensures var m := MinutesAgo(now, latest);
      (now >= latest ==> 0 <= m && (m as real) * 60.0 <= now - latest < (m as real + 1.0) * 60.0)
      && (now < latest ==> m <= 0 && (m as real - 1.0) * 60.0 < now - latest <= (m as real) * 60.0)
  {
  }

  /** A stamp 150 seconds in the future gives minus two minutes, not zero. */
  lemma FutureStampNotClamped()
    ensures MinutesAgo(1000.0, 1150.0) == -2
  {
  }
}
