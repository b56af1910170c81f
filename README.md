# pihole-exporter core in Dafny

A model of the core of `pihole-exporter`, a Prometheus exporter for a
Pi-hole's query log. The model has three parts.

- `queryPihole` reads the rows of the `queries` table from one time window
  `[since, now)`, grouped by `(type, status, client, forward, reply_type)`
  with a count each. It folds them into six label-to-count maps
  (`PiholeStats`). Three constant tables name the query types (1-based),
  the query statuses and the reply types (0-based).
- `updateMetrics` adds five of those maps (all but `QueryReplies`), entry
  by entry, to four cumulative Prometheus counter vectors. It returns where the next window starts:
  `now` after a successful poll, `since` after a failed one.
- The `/metrics` handler keeps the package-level `lastUpdate`. It polls
  from there, stores the returned value, and answers 500 when the value
  did not move.

Files and modules:

- `counts.dfy`, module `Counts`. Go's `map[string]float64` as used here:
  a read with zero default, `+=`, label-wise sums, and the sum of all counts.
- `pihole.dfy`, module `Pihole`. The tables, the row, the six maps, the
  per-row classifier, and `QueryPihole`. `QueryPihole` is a loop over the
  scanned rows that updates one stats value in place. `CountStatus` is its
  `switch status`.
- `pihole_properties.dfy`, module `PiholeProperties`. What the fold
  promises:
  - how each row is routed;
  - the status partition;
  - the sums that relate the maps;
  - all-or-nothing failure;
  - independence from row order;
  - a worked batch;
  - the reply-type guard.
- `prometheus.dfy`, module `Prometheus`. `CounterVec` is one counter
  vector, an object whose map of label tuples to counts is written in
  place by `Add`. `Counters` holds the four package-level vectors.
  `UpdateMetrics` runs the five `range` loops. `Applied` and `Updated` are
  the same update stated on values.
- `main.dfy`, module `Exporter`. `MetricsHandler` is the handler with its
  `lastUpdate` field. `Scrape` and `Run` are one scrape and a sequence of
  scrapes stated on values. The chain lemmas cover the windows the
  successful polls queried.

The database and the clock are inputs, not modelled:

- The database's answer to the windowed query is a parameter: either a
  query error, or the sequence of what each `rows.Scan` produced (a row or
  a scan error).
- The reading of `time.Now().Unix()` is the parameter `now`.

Counts are `nat`. They come from SQL `count(id)` and are `float64` only by
Go typing.

Two ways the model departs from the code:

- The reply-type index past the table is not left as an out-of-range
  index. Go panics there (`pihole.go:141-146`), and the model has an
  explicit outcome `Panicked(row)` for it. That panic unwinds through
  `updateMetrics` and the handler before `lastUpdate` is assigned. The
  model therefore changes nothing and answers `ConnectionAborted`, which is
  what `net/http` does when it recovers a handler's panic.
- The window and its emptiness are stated on the window itself, and
  `SameSecondIsError` proves that emptiness. The model does not tie the
  rows of the answer to the window.

Behaviour kept as the code has it:

- There is no strict mode. Unknown codes are only logged and skipped.
- A row whose status is in none of the three status sets lands in no
  status map. It still counts by type, reply type and client.
- Only `sum(queryTypes) >= sum(clientQueries) >= sum(status maps)` holds
  in general. Equality needs well-formed rows.
- A successful poll whose `now` equals the current `lastUpdate` is
  answered 500. That value is the `now` of the last successful poll,
  because a failed scrape leaves `lastUpdate` alone. After a failed scrape
  in second `t`, a successful poll in the same second `t` is served. The
  500 case queries the empty window `[t, t)`, so the result it adds to the
  counters is empty in practice. The model admits a non-empty answer there
  only because it does not tie rows to the window.
- An iteration error ends `for rows.Next()` exactly as the last row does.
  Examples are the 30-second deadline (`pihole.go:11`, `pihole.go:100`) or
  a lost connection. `rows.Err()` is never read, so `queryPihole` returns
  the stats of the rows read so far with a nil error, and `updateMetrics`
  returns `now` (`prometheus.go:117`). The rows of `[since, now)` that were
  never read are then never counted. See "## Findings".

## Model

| member | source | states |
|---|---|---|
| `Counts.Add` | pihole.go:139 | `m[k] += n` creates the label at zero on first use, raises it by `n`, and leaves every other label as it was |
| `Pihole.Upstream` | pihole.go:154-157 | an allowed row's upstream label is the forward string when it is non-NULL; with NULL it is `""` for status 0 and `"cache"` otherwise |
| `Pihole.QueryPihole` | pihole.go:99-175 | the loop over the scans, with its per-row skips, in-place updates and early returns, ends in exactly the outcome of folding the database's answer: the stats, the first error, or the panic of the first row of known query type with reply type 14, unless a scan error comes first |
| `Pihole.StatusBucket` | pihole.go:151-170 | the `switch status`: statuses 0, 2, 3, 12, 13, 14 select the allowed map under `(queryStatuses[status], upstream)`, statuses 1, 4-8, 15, 16 the blocked map, statuses 9-11 the CNAME-blocked map, and any other status no map |
| `Pihole.Classify` | pihole.go:133-170 | a type outside 1..16 is skipped; otherwise the type is labelled `queryTypes[type-1]`; a reply type that fails the written guard stops there; reply type 14 passes it and is the out-of-range index; any other reply type is labelled `replyTypes[reply_type]` and the row goes to its `StatusBucket` |
| `Pihole.ApplyRow` | pihole.go:133-171 | one loop turn of a row that does not panic: nothing for an unknown type, only `QueryTypes` for an unknown reply type, otherwise `QueryTypes`, `QueryReplies`, `ClientQueries` in that order and then the status map |
| `Pihole.FoldFrom` | pihole.go:118-174 | the loop from given stats over the remaining scans: a scan error returns that error and no stats, a panicking row ends in the panic, any other row is applied and the loop goes on; at the end the stats are returned |
| `Pihole.Aggregate` | pihole.go:103-174 | `queryPihole` on the database's answer: a query error is returned as such, otherwise the loop runs from six empty maps |
| `Pihole.CountStatus` | pihole.go:151-170 | the status switch, including the lazy allocation of the inner upstream map, adds the count to the one status map that the row's status selects, or changes nothing for an unexpected status |
| `PiholeProperties.UnknownTypeChangesNothing` | pihole.go:133-136 | a query type outside 1..16 changes none of the six maps |
| `PiholeProperties.CountedLabels` | pihole.go:138-146 | a row that reaches the switch has a type in 1..16 and a reply type in 0..13, and is labelled `queryTypes[type-1]` and `replyTypes[reply_type]` |
| `PiholeProperties.ApplyCounted` | pihole.go:133-170 | a row whose type is in 1..16 and whose reply type is in 0..13 (both guards pass) adds its count under `queryTypes[type-1]`, `replyTypes[reply_type]` and its client, then to the bucket its status and upstream select |
| `PiholeProperties.KnownTypeIsCounted` | pihole.go:138-139 | a known query type always adds its count under `queryTypes[type-1]`, whatever happens later in the body |
| `PiholeProperties.UnknownReplyCountsTypeOnly` | pihole.go:139-144 | a known type whose reply type fails the guard adds to `QueryTypes` and to no other map |
| `PiholeProperties.PanicsExactly` | pihole.go:141-146 | a row indexes past the reply table exactly when its type is known and its reply type is 14 |
| `PiholeProperties.StatusPartition` | pihole.go:151-170 | the three case lists are pairwise disjoint, and their union is exactly the index range 0..16 of `queryStatuses` |
| `PiholeProperties.StatusRouting` | pihole.go:151-167 | a row at the switch adds to the allowed map (under status and upstream), the blocked map or the CNAME-blocked map, as its status set says, and leaves the other two untouched |
| `PiholeProperties.UnknownStatusCountsNoBucket` | pihole.go:146-149 | a row at the switch whose status is in no set still counts by type, reply type and client, and lands in no status map |
| `PiholeProperties.ApplyRowIsEffect` | pihole.go:133-171 | one loop turn bumps each of the six maps at most once, at labels fixed by the row alone |
| `PiholeProperties.ApplyRowSums` | pihole.go:133-171 | one row raises the sum of each map by its count exactly when it gets that far in the loop body |
| `PiholeProperties.FoldFromSums` | pihole.go:118-171 | a successful fold raises each map's sum by the total count of the rows that reach that map |
| `PiholeProperties.TotalsAgree` | pihole.go:133-171 | when every row of known type has an in-range reply type and a named status, every counted row reaches a status map |
| `PiholeProperties.AggregateSums` | pihole.go:103-171 | for any successful poll, sum(QueryReplies) = sum(ClientQueries), and sum(QueryTypes) >= sum(ClientQueries) >= the sum over the three status maps |
| `PiholeProperties.AggregateSumsEqual` | pihole.go:133-171 | when every scanned row is well formed, sum(QueryTypes) = sum(ClientQueries) = the sum over the three status maps |
| `PiholeProperties.FoldFromSucceedsIffClean` | pihole.go:118-131 | the loop returns stats exactly when every scan yields a row that does not panic; otherwise no stats come back at all |
| `PiholeProperties.FoldFromSplit` | pihole.go:118-171 | the loop over a clean prefix of the rows, continued over the remaining rows, ends where the loop over all rows ends |
| `PiholeProperties.TruncatedAnswerSucceeds` | pihole.go:118-174 | rows that stop early still give a successful poll, and each map's sum falls short of the full answer's by the counts of the rows never read |
| `PiholeProperties.FirstFailureWins` | pihole.go:128-131 | the first scan error, met before any panicking row, is the reported error, whatever follows it |
| `PiholeProperties.ApplyRowCommutes` | pihole.go:139-167 | two rows applied in either order give the same six maps |
| `PiholeProperties.FoldFromMoveToFront` | pihole.go:118-171 | a clean row can be moved to the front of the rows without changing the outcome |
| `PiholeProperties.FoldFromPermutation` | pihole.go:103-171 | any permutation of clean rows folds to the same outcome |
| `PiholeProperties.AggregateOrderIndependent` | pihole.go:103-110 | a successful poll depends only on the multiset of rows, not on the order the database returns them in |
| `PiholeProperties.TwoRowBatch` | pihole.go:133-171 | a forwarded row and a gravity-blocked row of type A from one client give QueryTypes {A: 8}, AllowedQueries {forwarded: {1.1.1.1: 5}}, BlockedQueries {gravity: 3}, ClientQueries {a: 8}, QueryReplies {unknown: 8} |
| `PiholeProperties.ReplyGuardAdmitsFourteen` | pihole.go:141-146 | reply type 14 passes the guard as written although the table has 14 entries, and a single such row makes the whole poll panic |
| `PiholeProperties.ClassifyIntended` | pihole.go:141 | with the guard `replyType >= len(replyTypes)`, no row indexes past the table |
| `PiholeProperties.ClassifyIntendedAgrees` | pihole.go:141-146 | the intended guard agrees with the written one on every row that does not panic; on a row that does, it skips the reply type like any other unknown one |
| `Prometheus.CounterVec.Add` | prometheus.go:93 | `WithLabelValues(l).Add(n)` raises the counter for `l` by `n`, creating it at zero, and leaves every other label alone |
| `Prometheus.AddEach` | prometheus.go:92-94 | the `range` loop over a stats map adds every entry to its counter |
| `Prometheus.AddAllowed` | prometheus.go:96-100 | the nested loop adds every `(status, upstream)` count of `AllowedQueries` to the counter labelled with that pair |
| `Prometheus.AddUpstreams` | prometheus.go:97-99 | the inner loop adds every upstream count of one status under `(status, upstream)` |
| `Prometheus.AddBlocked` | prometheus.go:102-108 | the loop adds every status count of a blocked map under `(status, deep_cname)`, with `deep_cname` fixed |
| `Prometheus.Applied` | prometheus.go:92-112 | the five `range` loops on values: type counts added to `dns_queries`, the flattened `(status, upstream)` counts to the allowed vector, the blocked counts under `deep_cname = "false"` and the CNAME-blocked ones under `"true"` to the blocked vector, client counts to the client vector; `QueryReplies` is not read |
| `Prometheus.Updated` | prometheus.go:84-117 | `updateMetrics` on values: a failed poll returns `since` with the counters as they were, a panicking poll aborts with them unchanged, and a successful poll applies its stats and returns `now` |
| `Prometheus.UpdatedChecked` | prometheus.go:84-117 | `updateMetrics` with the `rows.Err()` check the code lacks: a successful poll whose iteration reported an error takes the error path (counters unchanged, `since` returned); otherwise it is `Updated` |
| `Prometheus.UpdateMetrics` | prometheus.go:84-118 | a failed poll returns `since` and a panicking one aborts, both with every counter unchanged; a successful poll adds every stats entry to its counter and returns `now` |
| `Prometheus.AppliedQueryTypes` | prometheus.go:92-94 | every query-type counter rises by exactly that type's count, and a type absent from the stats keeps its value |
| `Prometheus.AppliedAllowed` | prometheus.go:96-100 | the counter `(status, upstream)` rises by exactly `AllowedQueries[status][upstream]`, and by 0 where the pair is absent |
| `Prometheus.AppliedBlocked` | prometheus.go:102-108 | `(status, "false")` rises by the blocked count and `(status, "true")` by the CNAME-blocked one; no other `deep_cname` changes, and the two maps never write the same label pair |
| `Prometheus.AppliedClients` | prometheus.go:110-112 | every client counter rises by exactly that client's count |
| `Prometheus.RepliesNeverApplied` | prometheus.go:92-112 | the counters after a poll do not depend on `QueryReplies` at all |
| `Prometheus.UpdatedMonotone` | prometheus.go:92-112 | whatever the poll does, no counter at any label decreases |
| `Prometheus.UpdatedCases` | prometheus.go:84-90 | only a successful poll changes a counter; it returns `now`; a failed poll returns `since`; the call aborts exactly when the poll panics |
| `Prometheus.TruncatedPollAdvances` | prometheus.go:84-117 | a poll whose rows stopped early adds only the rows read and still returns `now`, so the next window starts after the rows never read |
| `Prometheus.BlockedCounterGain` | prometheus.go:102-104 | the counter `(status, "false")` rises by exactly the blocked count of `status` |
| `Prometheus.TruncatedBatchSkipsGravity` | prometheus.go:84-117 | with the forwarded and gravity rows of one window and the rows stopping after the first, the poll returns `now` and the gravity counter gains 0 instead of 3 |
| `Prometheus.CheckedPollRetries` | prometheus.go:84-117 | with a `rows.Err()` check, a poll whose rows stopped early changes no counter and returns `since`; a poll that returns `now` has counted every row of the window |
| `Exporter.Scrape` | main.go:68-79 | one request to `/metrics`: the poll from `lastUpdate`; a panic aborts with the state unchanged; otherwise `lastUpdate` becomes the returned value, and the answer is 500 when it equals the old one, else the served counters |
| `Exporter.Run` | main.go:68-79 | the state after a sequence of requests, one `Scrape` each, with the window `[lastUpdate, now)` of every successful poll, oldest first |
| `Exporter.ScrapeResponse` | main.go:68-79 | a scrape is served exactly when the poll succeeds at a clock reading other than `lastUpdate`; a failure, or a success whose `now` equals `lastUpdate`, gets 500; a panic aborts; on success `lastUpdate` becomes `now`, otherwise nothing changes |
| `Exporter.SameSecondIsError` | main.go:70-75 | a successful poll whose `now` equals the current `lastUpdate` (the `now` of the last successful poll) is answered 500; its window `[lastUpdate, now)` contains no instant, and its result is added to the counters |
| `Exporter.RunChains` | main.go:70-71 | over any sequence of scrapes, the windows of the successful polls join without gap or overlap at their edges, from the first `lastUpdate` to the last |
| `Exporter.RunMonotone` | main.go:68-79 | over any sequence of scrapes, no counter decreases |
| `Exporter.ChainExtend` | main.go:70-71 | a successful poll extends the chain of queried windows by `[lastUpdate, now)` |
| `Exporter.ChainCovers` | main.go:70-71 | every second from the first window start up to the current `lastUpdate` lies in some queried window |
| `Exporter.ChainDisjoint` | main.go:70-71 | when the clock runs forward, no second lies in two queried windows |
| `Exporter.MetricsHandler.constructor` | main.go:29 | `lastUpdate` starts at 0, so the first window begins at the epoch; every counter starts empty |
| `Exporter.MetricsHandler.ServeMetrics` | main.go:68-79 | the handler stores what `updateMetrics` returned and answers as `Scrape` says; it keeps the queried windows a gapless chain from 0 to `lastUpdate` |

## Left out

- SQL text, `QueryContext`, `context.WithTimeout`, and the `rows.Next`/`Scan` mechanics: these are I/O. The answer to the query is an input sequence.
- No link between the query window and the rows returned: the database is not modelled, so the answer is any sequence.
- `rows.Err()` after the loop: the code never checks it. Rows that stop early are modelled as a shorter scan sequence. The model cannot tell that answer from a complete one, as the code cannot. What follows from it is proved in `TruncatedPollAdvances` and listed under "## Findings".
- `log.Printf` warnings: output only. The rows they concern are skipped, as in the code.
- `buildMetrics` and the Prometheus registry: library setup with no logic. The counter vectors start empty in `Counters.constructor`.
- `HTTPRequestDuration`: wall-clock time converted to `float64`, not modelled.
- `float64` arithmetic: counts are `nat`. Float rounding of large sums is not modelled.
- `init`, `main`, the HTTP mux and server, `okHandler`: process plumbing.
- The text the Prometheus handler writes: a served response carries the counter values.
- Concurrent scrapes racing on `lastUpdate`: scrapes are sequential.
- Label values as Unicode strings. Go strings are bytes, and `client` and `forward` are scanned as raw column text. The model's `string` holds Unicode characters. client_golang's `WithLabelValues` panics on a label value that is not valid UTF-8. Such a panic at prometheus.go:98 or :111 would leave the earlier loops' counts added while `lastUpdate` stays put, so the next scrape would count them again. The model has no such values, because the Pi-hole database stores client addresses and host names as text. `Prometheus.CounterVec.Add` is therefore total, and `UpdatedCases` and `UpdateMetrics` promise all-or-nothing only for label values that are valid UTF-8.
- Go's random map iteration order: each `range` loop picks its next label arbitrarily. The proofs hold for every order.

## Findings

| source | as written | input that shows it | evidently intended | confidence | as-written member | corrected member |
|---|---|---|---|---|---|---|
| pihole.go:141 | the guard `replyType < 0 \|\| replyType > len(replyTypes)` lets 14 through, and `replyTypes[14]` at pihole.go:146 is out of range and panics | one row `(type 1, status 2, client "a", forward "1.1.1.1", reply_type 14, count 1)` | `replyType >= len(replyTypes)`, so that reply type 14 is logged and skipped like other unknown reply types | not executed | `PiholeProperties.ReplyGuardAdmitsFourteen` | `PiholeProperties.ClassifyIntendedAgrees` |
| pihole.go:118-174 | `for rows.Next()` also ends when iteration stops on an error, `rows.Err()` is never read, and `queryPihole` returns the partial stats with a nil error; `updateMetrics` then returns `now` (prometheus.go:117), so the unread rows of `[since, now)` are never counted | the window's rows are the forwarded row (count 5) and the gravity row (count 3), and iteration stops after the first, for example on the 30-second deadline | check `rows.Err()` after the loop and return it as an error, so that `updateMetrics` returns `since` and the window is queried again | not executed; needs a driver that stops mid-result | `Prometheus.TruncatedBatchSkipsGravity` | `Prometheus.CheckedPollRetries` |

The call chain (`Pihole.Classify`, `QueryPihole`, `UpdateMetrics`,
`ServeMetrics`) keeps the guard as written. A poll that meets such a row
panics, so there is no silent fix. `ClassifyIntended` is the corrected
classifier. `ClassifyIntendedAgrees` proves that it never indexes past the
table, that it agrees with the written classifier wherever that one does not
panic, and that it skips reply type 14 as an unknown reply.

The same call chain keeps the unchecked `rows.Err()`: its answer is a
plain scan sequence, and rows that stop early cannot be told apart from
the end of the rows. `Prometheus.UpdatedChecked` is `updateMetrics` with
the check, given the value `rows.Err()` would report. `CheckedPollRetries`
proves two things. First, when the rows stop early the corrected poll
leaves every counter and the window start alone. Second, a corrected poll
that moves the window start on has counted every row of the window.
`TruncatedPollAdvances` proves the code as written does not do this.
