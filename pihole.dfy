/**
 * The classification and aggregation engine of the exporter: the three
 * taxonomy tables, one grouped query-log row, the per-row classifier, and
 * `queryPihole`, which folds the rows of one window `[since, now)` into six
 * label-to-count maps.
 *
 * The database is not modelled: the answer to the windowed, grouped SELECT
 * is an input, either a query failure or the sequence of what each
 * `rows.Scan` produced.
 */
module Pihole {
  import opened Counts

  /** `queryTypes`: query type code `t` (1-based) is labelled `QueryTypeNames[t - 1]`. */
  const QueryTypeNames: seq<string> := [
    "A", "AAAA", "ANY", "SRV", "SOA", "PTR", "TXT", "NAPTR",
    "MX", "DS", "RRSIG", "DNSKEY", "NS", "OTHER", "SVCB", "HTTPS"
  ]

  /** `queryStatuses`: status code `s` (0-based) is labelled `QueryStatusNames[s]`. */
  const QueryStatusNames: seq<string> := [
    "unknown", "gravity", "forwarded", "cache_hit", "regex_blacklist",
    "exact_blacklist", "known_upstream", "unspecified_upstream",
    "nxdomain_upstream", "gravity_cname", "regex_blacklist_cname",
    "exact_blacklist_cname", "retried_query", "retried_ignored_query",
    "already_forwarded", "database_busy", "special_domain"
  ]

  /** `replyTypes`: reply type code `r` (0-based) is labelled `ReplyTypeNames[r]`. */
  const ReplyTypeNames: seq<string> := [
    "unknown", "nodata", "nxdomain", "cname", "ip", "domain", "rrname",
    "servfail", "refused", "notimp", "other", "dnssec", "none", "blob"
  ]

  /** The three case lists of the status switch, as explicit code sets. */
  const AllowedStatuses: set<int> := {0, 2, 3, 12, 13, 14}
  const BlockedStatuses: set<int> := {1, 4, 5, 6, 7, 8, 15, 16}
  const BlockedCnameStatuses: set<int> := {9, 10, 11}

  datatype Option<T> = None | Some(value: T)

  /**
   * One row of the grouped query: `(type, status, client, forward,
   * reply_type, count(id))`. `forward` is a nullable column.
   */
  datatype Row = Row(
    queryType: int,
    status: int,
    client: string,
    forward: Option<string>,
    replyType: int,
    count: nat)

  /** What one `rows.Scan` produced. */
  datatype Scan = Scanned(row: Row) | ScanError(reason: string)

  /** What the database answered to the windowed query. */
  datatype DbAnswer = QueryError(reason: string) | Rows(scans: seq<Scan>)

  /** `PiholeStats`: six label-to-count maps; `allowedQueries` is keyed by status, then upstream. */
  datatype Stats = Stats(
    queryTypes: map<string, nat>,
    allowedQueries: map<string, map<string, nat>>,
    blockedQueries: map<string, nat>,
    blockedCnameQueries: map<string, nat>,
    clientQueries: map<string, nat>,
    queryReplies: map<string, nat>)

  /** The freshly made stats every call starts from. */
  const EmptyStats := Stats(map[], map[], map[], map[], map[], map[])

  datatype Failure = QueryDb(reason: string) | ScanRow(reason: string)

  /**
   * What `queryPihole` ends in: stats, an error (and no stats), or the Go
   * runtime's index-out-of-range panic on `replyTypes[replyType]`, raised
   * while handling `row`.
   */
  datatype Outcome = Success(stats: Stats) | Failed(failure: Failure) | Panicked(row: Row)

  /** The status bucket a row that reaches the switch lands in. */
  datatype Bucket =
    | Allowed(status: string, upstream: string)
    | Blocked(status: string)
    | BlockedCname(status: string)
    | NoBucket

  /** How far a row gets through the loop body, and with which labels. */
  datatype Classification =
    | UnknownType
    | UnknownReply(typeKey: string)
    | ReplyOutOfRange(typeKey: string)
    | Counted(typeKey: string, replyKey: string, bucket: Bucket)

  /** `sql.NullString.String`: the empty string for NULL. */
  function NullStringValue(forward: Option<string>): string
  {
    if forward.Some? then forward.value else ""
  }

  /** The upstream label of an allowed row. */
  function Upstream(status: int, forward: Option<string>): (u: string)
    ensures forward.Some? ==> u == forward.value
    ensures forward.None? && status == 0 ==> u == ""
    ensures forward.None? && status != 0 ==> u == "cache"
  {
    if forward.Some? || status == 0 then NullStringValue(forward) else "cache"
  }

  /** The `switch status` of the loop body. */
  function StatusBucket(status: int, forward: Option<string>): Bucket
  {
    if status in AllowedStatuses then Allowed(QueryStatusNames[status], Upstream(status, forward))
    else if status in BlockedStatuses then Blocked(QueryStatusNames[status])
    else if status in BlockedCnameStatuses then BlockedCname(QueryStatusNames[status])
    else NoBucket
  }

  /** The query-type guard, the reply-type guard as written, and the status switch. */
  function Classify(row: Row): Classification
  {
    if row.queryType < 1 || row.queryType > |QueryTypeNames| then UnknownType
    else
      var typeKey := QueryTypeNames[row.queryType - 1];
      if row.replyType < 0 || row.replyType > |ReplyTypeNames| then UnknownReply(typeKey)
      else if row.replyType == |ReplyTypeNames| then ReplyOutOfRange(typeKey)
      else Counted(typeKey, ReplyTypeNames[row.replyType], StatusBucket(row.status, row.forward))
  }

  /** The row makes `replyTypes[replyType]` index past the end of the table. */
  predicate Panics(row: Row)
  {
    Classify(row).ReplyOutOfRange?
  }

  /** `m[s][u] += n`, allocating the inner map of `s` on first use. */
  function AddNested(m: map<string, map<string, nat>>, s: string, u: string, n: nat): map<string, map<string, nat>>
  {
    m[s := Add(if s in m then m[s] else map[], u, n)]
  }

  /** The status-map update of a row that reached the switch. */
  function AddToBucket(s: Stats, bucket: Bucket, n: nat): Stats
  {
    match bucket
    case Allowed(st, up) => s.(allowedQueries := AddNested(s.allowedQueries, st, up, n))
    case Blocked(st) => s.(blockedQueries := Add(s.blockedQueries, st, n))
    case BlockedCname(st) => s.(blockedCnameQueries := Add(s.blockedCnameQueries, st, n))
    case NoBucket => s
  }

  /** The effect of one row on the stats (the row must not panic). */
  function ApplyRow(s: Stats, row: Row): Stats
    requires !Panics(row)
  {
    var n := row.count;
    match Classify(row)
    case UnknownType => s
    case UnknownReply(t) => s.(queryTypes := Add(s.queryTypes, t, n))
    case Counted(t, reply, bucket) =>
      var s1 := s.(queryTypes := Add(s.queryTypes, t, n),
                   queryReplies := Add(s.queryReplies, reply, n),
                   clientQueries := Add(s.clientQueries, row.client, n));
      AddToBucket(s1, bucket, n)
  }

  /** The loop from the current stats over the remaining scans; the first error or panic ends it. */
  function FoldFrom(s: Stats, scans: seq<Scan>): Outcome
    decreases |scans|
  {
    if scans == [] then Success(s)
    else match scans[0]
      case ScanError(e) => Failed(ScanRow(e))
      case Scanned(row) =>
        if Panics(row) then Panicked(row) else FoldFrom(ApplyRow(s, row), scans[1..])
  }

  /** One turn of the loop at position `i`. */
  lemma FoldFromAt(s: Stats, scans: seq<Scan>, i: nat)
    requires i < |scans|
    ensures scans[i].ScanError? ==> FoldFrom(s, scans[i..]) == Failed(ScanRow(scans[i].reason))
    ensures scans[i].Scanned? && Panics(scans[i].row) ==> FoldFrom(s, scans[i..]) == Panicked(scans[i].row)
    ensures scans[i].Scanned? && !Panics(scans[i].row) ==>
      FoldFrom(s, scans[i..]) == FoldFrom(ApplyRow(s, scans[i].row), scans[i + 1..])
  {
    assert scans[i..][0] == scans[i] && scans[i..][1..] == scans[i + 1..];
  }

  /** `queryPihole` as a function of the database's answer. */
  function Aggregate(answer: DbAnswer): Outcome
  {
    match answer
    case QueryError(e) => Failed(QueryDb(e))
    case Rows(scans) => FoldFrom(EmptyStats, scans)
  }

  /**
   * `queryPihole`: six maps made empty, then updated in place row by row;
   * rows of unknown type, unknown reply type or unexpected status are
   * logged and skipped from that point on; a scan error discards the stats.
   */
  method QueryPihole(answer: DbAnswer) returns (r: Outcome)
    ensures r == Aggregate(answer)
  {
    if answer.QueryError? {
      return Failed(QueryDb(answer.reason));
    }
    var scans := answer.scans;
    var stats := EmptyStats;
    for i := 0 to |scans|
      invariant FoldFrom(EmptyStats, scans) == FoldFrom(stats, scans[i..])
    {
      FoldFromAt(stats, scans, i);
      if scans[i].ScanError? {
        return Failed(ScanRow(scans[i].reason));
      }
      var row := scans[i].row;
      var n := row.count;
      if row.queryType < 1 || row.queryType > |QueryTypeNames| {
        continue;  // unknown query type: logged
      }
      var typeKey := QueryTypeNames[row.queryType - 1];
      stats := stats.(queryTypes := Add(stats.queryTypes, typeKey, n));
      if row.replyType < 0 || row.replyType > |ReplyTypeNames| {
        continue;  // unknown reply type: logged
      }
      if row.replyType == |ReplyTypeNames| {
        return Panicked(row);  // replyTypes[replyType] is out of range
      }
      var replyKey := ReplyTypeNames[row.replyType];
      stats := stats.(queryReplies := Add(stats.queryReplies, replyKey, n));
      stats := stats.(clientQueries := Add(stats.clientQueries, row.client, n));
      assert Classify(row) == Counted(typeKey, replyKey, StatusBucket(row.status, row.forward));
      stats := CountStatus(stats, row.status, row.forward, n);
    }
    return Success(stats);
  }

  /**
   * The `switch status` of the loop body: one of the three status maps
   * gains `n` under the status label, or nothing changes for an unexpected
   * status (logged).
   */
  method CountStatus(s: Stats, status: int, forward: Option<string>, n: nat) returns (t: Stats)
    ensures t == AddToBucket(s, StatusBucket(status, forward), n)
  {
    t := s;
    if status in AllowedStatuses {
      var statusKey := QueryStatusNames[status];
      var upstream := "cache";
      if forward.Some? || status == 0 {
        upstream := NullStringValue(forward);
      }
      var allowed := t.allowedQueries;
      if statusKey !in allowed {
        allowed := allowed[statusKey := map[]];
      }
      allowed := allowed[statusKey := Add(allowed[statusKey], upstream, n)];
      assert allowed == AddNested(s.allowedQueries, statusKey, upstream, n);
      t := t.(allowedQueries := allowed);
    } else if status in BlockedStatuses {
      var statusKey := QueryStatusNames[status];
      t := t.(blockedQueries := Add(t.blockedQueries, statusKey, n));
    } else if status in BlockedCnameStatuses {
      var statusKey := QueryStatusNames[status];
      t := t.(blockedCnameQueries := Add(t.blockedCnameQueries, statusKey, n));
    }
  }
}
