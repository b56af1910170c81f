/**
 * What `queryPihole` promises: how each row is routed, the status
 * partition, the sums that relate the six maps, all-or-nothing failure,
 * and independence from the order of the rows.
 */
module PiholeProperties {
  import opened Counts
  import opened Pihole

  // ----- Routing of a single row -----

  /** A row whose query type is outside 1..16 changes none of the six maps. */
  lemma UnknownTypeChangesNothing(s: Stats, row: Row)
    requires row.queryType < 1 || row.queryType > |QueryTypeNames|
    ensures !Panics(row) && ApplyRow(s, row) == s
  {
  }

  /** The stats after a row that reaches the switch has been counted by type, reply type and client. */
  function CountedStats(s: Stats, t: string, reply: string, client: string, n: nat): Stats
  {
    s.(queryTypes := Add(s.queryTypes, t, n),
       queryReplies := Add(s.queryReplies, reply, n),
       clientQueries := Add(s.clientQueries, client, n))
  }

  /**
   * A row of a known type whose reply type is in the table is counted under
   * `queryTypes[type-1]`, `replyTypes[reply_type]` and its client, then goes
   * to the bucket its status and upstream select.
   */
  lemma ApplyCounted(s: Stats, row: Row)
    requires 1 <= row.queryType <= |QueryTypeNames| && 0 <= row.replyType < |ReplyTypeNames|
    ensures !Panics(row)
    ensures ApplyRow(s, row) ==
      AddToBucket(CountedStats(s, QueryTypeNames[row.queryType - 1], ReplyTypeNames[row.replyType], row.client, row.count),
                  StatusBucket(row.status, row.forward), row.count)
  {
  }

  /** The labels a row that reaches the switch is counted under. */
  lemma CountedLabels(row: Row)
    requires Classify(row).Counted?
    ensures 1 <= row.queryType <= |QueryTypeNames| && 0 <= row.replyType < |ReplyTypeNames|
    ensures Classify(row) ==
      Counted(QueryTypeNames[row.queryType - 1], ReplyTypeNames[row.replyType], StatusBucket(row.status, row.forward))
  {
  }

  /** A row of a known query type always adds its count under its type label, whatever follows. */
  lemma KnownTypeIsCounted(s: Stats, row: Row)
    requires 1 <= row.queryType <= |QueryTypeNames|
    requires !Panics(row)
    ensures ApplyRow(s, row).queryTypes == Add(s.queryTypes, QueryTypeNames[row.queryType - 1], row.count)
  {
    ApplyRowIsEffect(s, row);
    EffectLabels(row);
  }

  /**
   * A row of a known query type whose reply type fails the guard adds to
   * the query types and to nothing else.
   */
  lemma UnknownReplyCountsTypeOnly(s: Stats, row: Row)
    requires 1 <= row.queryType <= |QueryTypeNames|
    requires row.replyType < 0 || row.replyType > |ReplyTypeNames|
    ensures !Panics(row)
    ensures ApplyRow(s, row) == s.(queryTypes := Add(s.queryTypes, QueryTypeNames[row.queryType - 1], row.count))
  {
  }

  /** Exactly the rows of a known type with reply type 14 index past the end of the reply table. */
  lemma PanicsExactly(row: Row)
    ensures Panics(row) <==> 1 <= row.queryType <= |QueryTypeNames| && row.replyType == 14
  {
  }

  /** The three status sets are pairwise disjoint and together are exactly the indices of the status table. */
  lemma StatusPartition()
    ensures AllowedStatuses !! BlockedStatuses
    ensures AllowedStatuses !! BlockedCnameStatuses
    ensures BlockedStatuses !! BlockedCnameStatuses
    ensures forall i :: i in AllowedStatuses + BlockedStatuses + BlockedCnameStatuses <==> 0 <= i < |QueryStatusNames|
  {
  }

  /**
   * A row that reaches the switch adds its count, under its status label,
   * to the one status map its status set names, and to no other.
   */
  lemma StatusRouting(s: Stats, row: Row)
    requires Classify(row).Counted?
    ensures !Panics(row)
    ensures var t := ApplyRow(s, row); var n := row.count;
      && (row.status in AllowedStatuses ==>
            t.allowedQueries == AddNested(s.allowedQueries, QueryStatusNames[row.status], Upstream(row.status, row.forward), n)
            && t.blockedQueries == s.blockedQueries && t.blockedCnameQueries == s.blockedCnameQueries)
      && (row.status in BlockedStatuses ==>
            t.blockedQueries == Add(s.blockedQueries, QueryStatusNames[row.status], n)
            && t.allowedQueries == s.allowedQueries && t.blockedCnameQueries == s.blockedCnameQueries)
      && (row.status in BlockedCnameStatuses ==>
            t.blockedCnameQueries == Add(s.blockedCnameQueries, QueryStatusNames[row.status], n)
            && t.allowedQueries == s.allowedQueries && t.blockedQueries == s.blockedQueries)
  {
    ApplyRowIsEffect(s, row);
    CountedLabels(row);
    StatusPartition();
  }

  /**
   * A row that reaches the switch with a status in none of the three sets
   * still counts under its type, its reply type and its client, and in no
   * status map.
   */
  lemma UnknownStatusCountsNoBucket(s: Stats, row: Row)
    requires Classify(row).Counted?
    requires row.status !in AllowedStatuses + BlockedStatuses + BlockedCnameStatuses
    ensures !Panics(row)
    ensures ApplyRow(s, row) ==
      CountedStats(s, QueryTypeNames[row.queryType - 1], ReplyTypeNames[row.replyType], row.client, row.count)
  {
    CountedLabels(row);
    ApplyCounted(s, row);
  }

  // ----- One row as independent updates of the six maps -----

  /** `m[k] += n` for a label that may be absent (then nothing happens). */
  function AddOpt(m: map<string, nat>, k: Option<string>, n: nat): map<string, nat>
  {
    if k.Some? then Add(m, k.value, n) else m
  }

  /** `m[s][u] += n` for a label pair that may be absent. */
  function AddNestedOpt(m: map<string, map<string, nat>>, k: Option<(string, string)>, n: nat): map<string, map<string, nat>>
  {
    if k.Some? then AddNested(m, k.value.0, k.value.1, n) else m
  }

  /** The labels one row adds its count under, map by map. */
  datatype Effect = Effect(
    typeKey: Option<string>,
    allowed: Option<(string, string)>,
    blocked: Option<string>,
    blockedCname: Option<string>,
    client: Option<string>,
    replyKey: Option<string>)

  /** The status-map part of an effect. */
  function BucketEffect(e: Effect, b: Bucket): Effect
  {
    e.(allowed := if b.Allowed? then Some((b.status, b.upstream)) else None,
       blocked := if b.Blocked? then Some(b.status) else None,
       blockedCname := if b.BlockedCname? then Some(b.status) else None)
  }

  function EffectOf(row: Row): Effect
    requires !Panics(row)
  {
    match Classify(row)
    case UnknownType => Effect(None, None, None, None, None, None)
    case UnknownReply(t) => Effect(Some(t), None, None, None, None, None)
    case Counted(t, reply, b) => BucketEffect(Effect(Some(t), None, None, None, Some(row.client), Some(reply)), b)
  }

  function ApplyEffect(s: Stats, e: Effect, n: nat): Stats
  {
    Stats(AddOpt(s.queryTypes, e.typeKey, n),
          AddNestedOpt(s.allowedQueries, e.allowed, n),
          AddOpt(s.blockedQueries, e.blocked, n),
          AddOpt(s.blockedCnameQueries, e.blockedCname, n),
          AddOpt(s.clientQueries, e.client, n),
          AddOpt(s.queryReplies, e.replyKey, n))
  }

  /** The switch is the status-map part of the effect. */
  lemma AddToBucketIsEffect(s: Stats, t: string, reply: string, client: string, b: Bucket, n: nat)
    ensures AddToBucket(CountedStats(s, t, reply, client, n), b, n) ==
      ApplyEffect(s, BucketEffect(Effect(Some(t), None, None, None, Some(client), Some(reply)), b), n)
  {
  }

  /** Each row updates every map independently, by its effect. */
  lemma ApplyRowIsEffect(s: Stats, row: Row)
    requires !Panics(row)
    ensures ApplyRow(s, row) == ApplyEffect(s, EffectOf(row), row.count)
  {
    var c := Classify(row);
    if c.Counted? {
      CountedLabels(row);
      ApplyCounted(s, row);
      AddToBucketIsEffect(s, c.typeKey, c.replyKey, row.client, c.bucket, row.count);
    }
  }

  /** Which labels of an effect are present, by how far the row gets. */
  lemma EffectLabels(row: Row)
    requires !Panics(row)
    ensures var e := EffectOf(row);
      && (e.typeKey.Some? <==> Reach(row) >= 1)
      && (e.typeKey.Some? ==> e.typeKey.value == QueryTypeNames[row.queryType - 1])
      && (e.client.Some? <==> Reach(row) >= 2) && (e.replyKey.Some? <==> Reach(row) >= 2)
      && (e.client.Some? ==> e.client.value == row.client)
      && (if e.allowed.Some? then 1 else 0) + (if e.blocked.Some? then 1 else 0) + (if e.blockedCname.Some? then 1 else 0)
         == (if Reach(row) >= 3 then 1 else 0)
  {
  }

  // ----- Sums over the six maps -----

  /**
   * How far a row gets: 0 skipped, 1 counted by type only, 2 also by reply
   * type and client, 3 also in a status map.
   */
  function Reach(row: Row): nat
  {
    match Classify(row)
    case UnknownType => 0
    case UnknownReply(_) => 1
    case ReplyOutOfRange(_) => 1
    case Counted(_, _, bucket) => if bucket.NoBucket? then 2 else 3
  }

  /** The total count of the rows that get at least as far as `depth`. */
  function Total(rows: seq<Row>, depth: nat): nat
  {
    if rows == [] then 0
    else (if Reach(rows[0]) >= depth then rows[0].count else 0) + Total(rows[1..], depth)
  }

  /** The rows that scanned, in order. */
  function ScannedRows(scans: seq<Scan>): seq<Row>
  {
    if scans == [] then []
    else if scans[0].Scanned? then [scans[0].row] + ScannedRows(scans[1..])
    else ScannedRows(scans[1..])
  }

  /** The sum over all three status maps. */
  ghost function StatusTotal(s: Stats): nat
  {
    SumValues(Totals(s.allowedQueries)) + SumValues(s.blockedQueries) + SumValues(s.blockedCnameQueries)
  }

  lemma SumAddOpt(m: map<string, nat>, k: Option<string>, n: nat)
    ensures SumValues(AddOpt(m, k, n)) == SumValues(m) + (if k.Some? then n else 0)
  {
    if k.Some? {
      SumValuesAdd(m, k.value, n);
    }
  }

  lemma SumAddNestedOpt(m: map<string, map<string, nat>>, k: Option<(string, string)>, n: nat)
    ensures SumValues(Totals(AddNestedOpt(m, k, n))) == SumValues(Totals(m)) + (if k.Some? then n else 0)
  {
    if k.Some? {
      SumTotalsAdd(m, k.value.0, k.value.1, n);
    }
  }

  /** One effect raises each sum by `n` for every label it carries. */
  lemma ApplyEffectSums(s: Stats, e: Effect, n: nat)
    ensures var t := ApplyEffect(s, e, n);
      && SumValues(t.queryTypes) == SumValues(s.queryTypes) + (if e.typeKey.Some? then n else 0)
      && SumValues(t.queryReplies) == SumValues(s.queryReplies) + (if e.replyKey.Some? then n else 0)
      && SumValues(t.clientQueries) == SumValues(s.clientQueries) + (if e.client.Some? then n else 0)
      && StatusTotal(t) == StatusTotal(s) + (if e.allowed.Some? then n else 0)
           + (if e.blocked.Some? then n else 0) + (if e.blockedCname.Some? then n else 0)
  {
    SumAddOpt(s.queryTypes, e.typeKey, n);
    SumAddOpt(s.queryReplies, e.replyKey, n);
    SumAddOpt(s.clientQueries, e.client, n);
    SumAddNestedOpt(s.allowedQueries, e.allowed, n);
    SumAddOpt(s.blockedQueries, e.blocked, n);
    SumAddOpt(s.blockedCnameQueries, e.blockedCname, n);
  }

  /** One row raises each sum by its count exactly when it gets far enough to be added there. */
  lemma ApplyRowSums(s: Stats, row: Row)
    requires !Panics(row)
    ensures var t := ApplyRow(s, row); var n := row.count;
      && SumValues(t.queryTypes) == SumValues(s.queryTypes) + (if Reach(row) >= 1 then n else 0)
      && SumValues(t.queryReplies) == SumValues(s.queryReplies) + (if Reach(row) >= 2 then n else 0)
      && SumValues(t.clientQueries) == SumValues(s.clientQueries) + (if Reach(row) >= 2 then n else 0)
      && StatusTotal(t) == StatusTotal(s) + (if Reach(row) >= 3 then n else 0)
  {
    ApplyRowIsEffect(s, row);
    EffectLabels(row);
    ApplyEffectSums(s, EffectOf(row), row.count);
  }

  /** A successful fold raises each sum by the total of the rows that reach it. */
  lemma {:induction false} FoldFromSums(s: Stats, scans: seq<Scan>)
    requires FoldFrom(s, scans).Success?
    ensures var t := FoldFrom(s, scans).stats; var rows := ScannedRows(scans);
      && SumValues(t.queryTypes) == SumValues(s.queryTypes) + Total(rows, 1)
      && SumValues(t.queryReplies) == SumValues(s.queryReplies) + Total(rows, 2)
      && SumValues(t.clientQueries) == SumValues(s.clientQueries) + Total(rows, 2)
      && StatusTotal(t) == StatusTotal(s) + Total(rows, 3)
    decreases |scans|
  {
    if scans != [] {
      var row := scans[0].row;
      ApplyRowSums(s, row);
      FoldFromSums(ApplyRow(s, row), scans[1..]);
      assert ScannedRows(scans) == [row] + ScannedRows(scans[1..]);
      assert ([row] + ScannedRows(scans[1..]))[1..] == ScannedRows(scans[1..]);
    }
  }

  /** Fewer rows get further. */
  lemma {:induction false} TotalAntitone(rows: seq<Row>, d: nat, e: nat)
    requires d <= e
    ensures Total(rows, e) <= Total(rows, d)
  {
    if rows != [] {
      TotalAntitone(rows[1..], d, e);
    }
  }

  /** Rows of a known type with an in-range reply type and a status the table names. */
  predicate WellFormed(row: Row)
  {
    (1 <= row.queryType <= |QueryTypeNames|) ==>
      0 <= row.replyType < |ReplyTypeNames| && 0 <= row.status < |QueryStatusNames|
  }

  /** A well-formed row that is counted at all reaches a status map. */
  lemma WellFormedReach(row: Row)
    requires WellFormed(row)
    ensures Reach(row) == 0 || Reach(row) == 3
  {
    StatusPartition();
    if 1 <= row.queryType <= |QueryTypeNames| {
      assert row.status in AllowedStatuses + BlockedStatuses + BlockedCnameStatuses;
    }
  }

  /** When every row is well formed, every counted row reaches a status map. */
  lemma {:induction false} TotalsAgree(rows: seq<Row>)
    requires forall i :: 0 <= i < |rows| ==> WellFormed(rows[i])
    ensures Total(rows, 1) == Total(rows, 2) == Total(rows, 3)
  {
    if rows != [] {
      WellFormedReach(rows[0]);
      TotalsAgree(rows[1..]);
    }
  }

  /**
   * For a successful poll: the reply-type map and the client map have the
   * same sum, which lies between the sum of the query-type map and the sum
   * of the three status maps.
   */
  lemma AggregateSums(answer: DbAnswer)
    requires Aggregate(answer).Success?
    ensures var st := Aggregate(answer).stats;
      && SumValues(st.queryReplies) == SumValues(st.clientQueries)
      && SumValues(st.queryTypes) >= SumValues(st.clientQueries) >= StatusTotal(st)
  {
    var rows := ScannedRows(answer.scans);
    FoldFromSums(EmptyStats, answer.scans);
    TotalAntitone(rows, 1, 2);
    TotalAntitone(rows, 2, 3);
  }

  /** When every scanned row is well formed, the three sums are equal. */
  lemma AggregateSumsEqual(answer: DbAnswer)
    requires Aggregate(answer).Success?
    requires forall i :: 0 <= i < |answer.scans| && answer.scans[i].Scanned? ==> WellFormed(answer.scans[i].row)
    ensures var st := Aggregate(answer).stats;
      SumValues(st.queryTypes) == SumValues(st.clientQueries) == StatusTotal(st)
  {
    var rows := ScannedRows(answer.scans);
    ScannedRowsWellFormed(answer.scans);
    FoldFromSums(EmptyStats, answer.scans);
    TotalsAgree(rows);
  }

  lemma {:induction false} ScannedRowsWellFormed(scans: seq<Scan>)
    requires forall i :: 0 <= i < |scans| && scans[i].Scanned? ==> WellFormed(scans[i].row)
    ensures forall i :: 0 <= i < |ScannedRows(scans)| ==> WellFormed(ScannedRows(scans)[i])
  {
    if scans != [] {
      assert forall i :: 1 <= i < |scans| ==> scans[1..][i - 1] == scans[i];
      ScannedRowsWellFormed(scans[1..]);
    }
  }

  // ----- All or nothing -----

  /** A scan that yields a row that neither fails to scan nor panics. */
  predicate Clean(scan: Scan)
  {
    scan.Scanned? && !Panics(scan.row)
  }

  /** The fold succeeds exactly when every scan is clean; otherwise no stats come back at all. */
  lemma {:induction false} FoldFromSucceedsIffClean(s: Stats, scans: seq<Scan>)
    ensures FoldFrom(s, scans).Success? <==> forall i :: 0 <= i < |scans| ==> Clean(scans[i])
    decreases |scans|
  {
    if scans != [] && Clean(scans[0]) {
      FoldFromSucceedsIffClean(ApplyRow(s, scans[0].row), scans[1..]);
      assert forall i :: 1 <= i < |scans| ==> scans[i] == scans[1..][i - 1];
    }
  }

  /** A scan error met before any panicking row is what the poll reports, whatever follows it. */
  lemma {:induction false} FirstFailureWins(s: Stats, scans: seq<Scan>, k: nat)
    requires k < |scans| && scans[k].ScanError?
    requires forall i :: 0 <= i < k ==> Clean(scans[i])
    ensures FoldFrom(s, scans) == Failed(ScanRow(scans[k].reason))
    decreases k
  {
    if k > 0 {
      assert forall i :: 0 <= i < k - 1 ==> scans[1..][i] == scans[i + 1];
      FirstFailureWins(ApplyRow(s, scans[0].row), scans[1..], k - 1);
    }
  }

  // ----- Rows that stop early -----

  /** The fold over a clean prefix, continued over the remaining scans, is the fold over all of them. */
  lemma {:induction false} FoldFromSplit(s: Stats, scans: seq<Scan>, k: nat)
    requires k <= |scans|
    requires forall i :: 0 <= i < k ==> Clean(scans[i])
    ensures FoldFrom(s, scans[..k]).Success?
    ensures FoldFrom(s, scans) == FoldFrom(FoldFrom(s, scans[..k]).stats, scans[k..])
    decreases k
  {
    if k == 0 {
      assert scans[..0] == [] && scans[0..] == scans;
    } else {
      assert forall i :: 0 <= i < k - 1 ==> scans[1..][i] == scans[i + 1];
      FoldFromSplit(ApplyRow(s, scans[0].row), scans[1..], k - 1);
      assert scans[..k][0] == scans[0] && scans[..k][1..] == scans[1..][..k - 1];
      assert scans[1..][k - 1..] == scans[k..];
    }
  }

  /**
   * An answer whose rows stop after `k` scans still succeeds, and each sum
   * falls short of the whole answer's by the counts of the rows never read.
   */
  lemma TruncatedAnswerSucceeds(scans: seq<Scan>, k: nat)
    requires Aggregate(Rows(scans)).Success? && k <= |scans|
    ensures Aggregate(Rows(scans[..k])).Success?
    ensures var part := Aggregate(Rows(scans[..k])).stats; var whole := Aggregate(Rows(scans)).stats;
      var unread := ScannedRows(scans[k..]);
      && SumValues(whole.queryTypes) == SumValues(part.queryTypes) + Total(unread, 1)
      && SumValues(whole.clientQueries) == SumValues(part.clientQueries) + Total(unread, 2)
      && StatusTotal(whole) == StatusTotal(part) + Total(unread, 3)
  {
    FoldFromSucceedsIffClean(EmptyStats, scans);
    FoldFromSplit(EmptyStats, scans, k);
    FoldFromSums(FoldFrom(EmptyStats, scans[..k]).stats, scans[k..]);
  }

  // ----- Order independence -----

  lemma AddOptCommutes(m: map<string, nat>, j: Option<string>, k: Option<string>, a: nat, b: nat)
    ensures AddOpt(AddOpt(m, j, a), k, b) == AddOpt(AddOpt(m, k, b), j, a)
  {
    if j.Some? && k.Some? && j != k {
      assert AddOpt(AddOpt(m, j, a), k, b) == m[j.value := Get(m, j.value) + a][k.value := Get(m, k.value) + b];
    }
  }

  lemma AddNestedOptCommutes(m: map<string, map<string, nat>>, j: Option<(string, string)>, k: Option<(string, string)>, a: nat, b: nat)
    ensures AddNestedOpt(AddNestedOpt(m, j, a), k, b) == AddNestedOpt(AddNestedOpt(m, k, b), j, a)
  {
    if j.Some? && k.Some? && j.value.0 == k.value.0 {
      var inner := if j.value.0 in m then m[j.value.0] else map[];
      AddOptCommutes(inner, Some(j.value.1), Some(k.value.1), a, b);
    }
  }

  /** Two effects applied in either order give the same stats. */
  lemma ApplyEffectCommutes(s: Stats, e: Effect, f: Effect, a: nat, b: nat)
    ensures ApplyEffect(ApplyEffect(s, e, a), f, b) == ApplyEffect(ApplyEffect(s, f, b), e, a)
  {
    AddOptCommutes(s.queryTypes, e.typeKey, f.typeKey, a, b);
    AddNestedOptCommutes(s.allowedQueries, e.allowed, f.allowed, a, b);
    AddOptCommutes(s.blockedQueries, e.blocked, f.blocked, a, b);
    AddOptCommutes(s.blockedCnameQueries, e.blockedCname, f.blockedCname, a, b);
    AddOptCommutes(s.clientQueries, e.client, f.client, a, b);
    AddOptCommutes(s.queryReplies, e.replyKey, f.replyKey, a, b);
  }

  /** Two rows applied in either order give the same stats. */
  lemma ApplyRowCommutes(s: Stats, a: Row, b: Row)
    requires !Panics(a) && !Panics(b)
    ensures ApplyRow(ApplyRow(s, a), b) == ApplyRow(ApplyRow(s, b), a)
  {
    ApplyRowIsEffect(s, a);
    ApplyRowIsEffect(s, b);
    ApplyRowIsEffect(ApplyRow(s, a), b);
    ApplyRowIsEffect(ApplyRow(s, b), a);
    ApplyEffectCommutes(s, EffectOf(a), EffectOf(b), a.count, b.count);
  }

  /** A clean scan may be moved to the front of the rows without changing the outcome. */
  lemma {:induction false} FoldFromMoveToFront(s: Stats, a: seq<Scan>, x: Scan, b: seq<Scan>)
    requires Clean(x)
    requires forall i :: 0 <= i < |a| ==> Clean(a[i])
    ensures FoldFrom(s, a + [x] + b) == FoldFrom(ApplyRow(s, x.row), a + b)
    decreases |a|
  {
    if a == [] {
      assert a + [x] + b == [x] + b && a + b == b;
      assert ([x] + b)[1..] == b;
    } else {
      var y := a[0].row;
      assert (a + [x] + b)[0] == a[0] && (a + [x] + b)[1..] == a[1..] + [x] + b;
      assert (a + b)[0] == a[0] && (a + b)[1..] == a[1..] + b;
      assert forall i :: 0 <= i < |a| - 1 ==> a[1..][i] == a[i + 1];
      FoldFromMoveToFront(ApplyRow(s, y), a[1..], x, b);
      ApplyRowCommutes(s, y, x.row);
    }
  }

  /** Taking the element at `j` out of `ys` leaves the multiset of the rest. */
  lemma MultisetSplit<T>(xs: seq<T>, ys: seq<T>, j: nat)
    requires xs != [] && j < |ys| && ys[j] == xs[0]
    requires multiset(xs) == multiset(ys)
    ensures ys == ys[..j] + [xs[0]] + ys[j + 1..]
    ensures multiset(xs[1..]) == multiset(ys[..j] + ys[j + 1..])
  {
    var rest := ys[..j] + ys[j + 1..];
    assert ys == ys[..j] + [xs[0]] + ys[j + 1..];
    assert xs == [xs[0]] + xs[1..];
    assert multiset(ys) == multiset(rest) + multiset([xs[0]]);
    assert multiset(xs) == multiset(xs[1..]) + multiset([xs[0]]);
    assert multiset(xs[1..]) == multiset(xs) - multiset([xs[0]]);
    assert multiset(rest) == multiset(ys) - multiset([xs[0]]);
  }

  /** A permutation of clean scans folds to the same outcome. */
  lemma {:induction false} FoldFromPermutation(s: Stats, xs: seq<Scan>, ys: seq<Scan>)
    requires multiset(xs) == multiset(ys)
    requires forall i :: 0 <= i < |xs| ==> Clean(xs[i])
    ensures FoldFrom(s, xs) == FoldFrom(s, ys)
    decreases |xs|
  {
    if xs == [] {
      assert |ys| == |multiset(ys)| == 0;
    } else {
      var x := xs[0];
      assert x in multiset(ys);
      var j :| 0 <= j < |ys| && ys[j] == x;
      MultisetSplit(xs, ys, j);
      var a, b := ys[..j], ys[j + 1..];
      forall i | 0 <= i < |a| ensures Clean(a[i]) {
        assert a[i] == ys[i] && ys[i] in multiset(xs);
      }
      FoldFromMoveToFront(s, a, x, b);
      assert forall i :: 0 <= i < |xs| - 1 ==> xs[1..][i] == xs[i + 1];
      FoldFromPermutation(ApplyRow(s, x.row), xs[1..], a + b);
    }
  }

  /** A successful poll gives the same stats whatever order the database returned the rows in. */
  lemma AggregateOrderIndependent(xs: seq<Scan>, ys: seq<Scan>)
    requires multiset(xs) == multiset(ys)
    requires Aggregate(Rows(xs)).Success?
    ensures Aggregate(Rows(ys)) == Aggregate(Rows(xs))
  {
    FoldFromSucceedsIffClean(EmptyStats, xs);
    FoldFromPermutation(EmptyStats, xs, ys);
  }

  // ----- A worked batch -----

  /** The first row of the worked batch: forwarded to 1.1.1.1. */
  const ForwardedRow := Row(1, 2, "a", Some("1.1.1.1"), 0, 5)

  /** The second row of the worked batch: blocked by gravity. */
  const GravityRow := Row(1, 1, "a", None, 0, 3)

  const AfterForwarded := Stats(map["A" := 5], map["forwarded" := map["1.1.1.1" := 5]], map[], map[], map["a" := 5], map["unknown" := 5])

  lemma ForwardedStep()
    ensures !Panics(ForwardedRow) && ApplyRow(EmptyStats, ForwardedRow) == AfterForwarded
  {
    assert Classify(ForwardedRow) == Counted("A", "unknown", Allowed("forwarded", "1.1.1.1"));
  }

  lemma GravityStep()
    ensures !Panics(GravityRow)
    ensures ApplyRow(AfterForwarded, GravityRow) ==
      Stats(map["A" := 8], map["forwarded" := map["1.1.1.1" := 5]], map["gravity" := 3], map[], map["a" := 8], map["unknown" := 8])
  {
    assert Classify(GravityRow) == Counted("A", "unknown", Blocked("gravity"));
  }

  /** One clean row folds to its update. */
  lemma FoldOne(s: Stats, a: Row)
    requires !Panics(a)
    ensures FoldFrom(s, [Scanned(a)]) == Success(ApplyRow(s, a))
  {
    assert [Scanned(a)][1..] == [];
  }

  /** Two clean rows fold to the two updates in order. */
  lemma FoldTwo(s: Stats, a: Row, b: Row)
    requires !Panics(a) && !Panics(b)
    ensures FoldFrom(s, [Scanned(a), Scanned(b)]) == Success(ApplyRow(ApplyRow(s, a), b))
  {
    var scans := [Scanned(a), Scanned(b)];
    var s1 := ApplyRow(s, a);
    assert scans[1..] == [Scanned(b)] && scans[1..][1..] == [];
    assert FoldFrom(s, scans) == FoldFrom(s1, [Scanned(b)]);
    assert FoldFrom(s1, [Scanned(b)]) == FoldFrom(ApplyRow(s1, b), []);
  }

  /** Two rows of type A from client "a": one forwarded to 1.1.1.1, one blocked by gravity. */
  lemma TwoRowBatch()
    ensures Aggregate(Rows([Scanned(ForwardedRow), Scanned(GravityRow)])) ==
      Success(Stats(
        map["A" := 8],
        map["forwarded" := map["1.1.1.1" := 5]],
        map["gravity" := 3],
        map[],
        map["a" := 8],
        map["unknown" := 8]))
  {
    ForwardedStep();
    GravityStep();
    FoldTwo(EmptyStats, ForwardedRow, GravityRow);
  }

  // ----- The reply-type guard -----

  /**
   * As written, the guard lets reply type 14 through although the reply
   * table has 14 entries; a single such row makes the whole poll panic.
   */
  lemma ReplyGuardAdmitsFourteen()
    ensures var replyType := 14;
      !(replyType < 0 || replyType > |ReplyTypeNames|) && replyType >= |ReplyTypeNames|
    ensures var row := Row(1, 2, "a", Some("1.1.1.1"), 14, 1);
      Aggregate(Rows([Scanned(row)])) == Panicked(row)
  {
  }

  /** The classifier with the guard the table calls for, `replyType >= len(replyTypes)`. */
  function ClassifyIntended(row: Row): (c: Classification)
    ensures !c.ReplyOutOfRange?
  {
    if row.queryType < 1 || row.queryType > |QueryTypeNames| then UnknownType
    else
      var typeKey := QueryTypeNames[row.queryType - 1];
      if row.replyType < 0 || row.replyType >= |ReplyTypeNames| then UnknownReply(typeKey)
      else Counted(typeKey, ReplyTypeNames[row.replyType], StatusBucket(row.status, row.forward))
  }

  /**
   * The intended guard never indexes past the table; it agrees with the
   * written one wherever the latter does not panic, and where it panics it
   * skips the reply like any other unknown reply type.
   */
  lemma ClassifyIntendedAgrees(row: Row)
    ensures !Panics(row) ==> ClassifyIntended(row) == Classify(row)
    ensures Panics(row) ==> ClassifyIntended(row) == UnknownReply(Classify(row).typeKey)
  {
  }
}
