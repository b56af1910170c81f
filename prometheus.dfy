/**
 * `updateMetrics`: one poll of the database for the window `[since, now)`,
 * whose stats are added, label by label, to four cumulative counter
 * vectors; the poll returns where the next window starts.
 *
 * The clock (`time.Now`) and the database are parameters: `now` is the
 * clock reading and `answer` what the database returned for the window.
 */
module Prometheus {
  import opened Counts
  import opened Pihole
  import PiholeProperties

  /** The four counter vectors' values, each keyed by its label tuple. */
  datatype CounterState = CounterState(
    dnsQueries: map<string, nat>,
    allowedDnsQueries: map<(string, string), nat>,
    blockedDnsQueries: map<(string, string), nat>,
    clientDnsQueries: map<string, nat>)

  /** Every counter vector as `buildMetrics` creates it: no label written yet. */
  const NoCounters := CounterState(map[], map[], map[], map[])

  /** Removing one label makes a map smaller. */
  lemma RemoveShrinks<K, V>(m: map<K, V>, k: K)
    requires k in m
    ensures |m - {k}| < |m|
  {
    assert (m - {k}).Keys == m.Keys - {k};
  }

  /** A status map under the label pairs `(blocked_by, deep_cname)`, with `deep_cname` fixed. */
  ghost function Labelled(m: map<string, nat>, deepCname: string): map<(string, string), nat>
    decreases |m|
  {
    if m == map[] then map[]
    else
      var s := Pick(m.Keys);
      RemoveShrinks(m, s);
      Labelled(m - {s}, deepCname)[(s, deepCname) := m[s]]
  }

  /** The upstream map of one status under the label pairs `(status, forwarded_to)`. */
  ghost function Prefixed(status: string, inner: map<string, nat>): map<(string, string), nat>
    decreases |inner|
  {
    if inner == map[] then map[]
    else
      var u := Pick(inner.Keys);
      RemoveShrinks(inner, u);
      Prefixed(status, inner - {u})[(status, u) := inner[u]]
  }

  /** `AllowedQueries` under the counter's label pairs `(status, forwarded_to)`. */
  ghost function Flatten(m: map<string, map<string, nat>>): map<(string, string), nat>
    decreases |m|
  {
    if m == map[] then map[]
    else
      var s := Pick(m.Keys);
      RemoveShrinks(m, s);
      Flatten(m - {s}) + Prefixed(s, m[s])
  }

  /** The labels and counts of `Labelled`. */
  lemma {:induction false} LabelledGet(m: map<string, nat>, deepCname: string, s: string, d: string)
    ensures (s, d) in Labelled(m, deepCname) <==> d == deepCname && s in m
    ensures Get(Labelled(m, deepCname), (s, d)) == if d == deepCname then Get(m, s) else 0
    decreases |m|
  {
    if m != map[] {
      var k := Pick(m.Keys);
      RemoveShrinks(m, k);
      LabelledGet(m - {k}, deepCname, s, d);
    }
  }

  /** The labels and counts of `Prefixed`. */
  lemma {:induction false} PrefixedGet(status: string, inner: map<string, nat>, s: string, u: string)
    ensures (s, u) in Prefixed(status, inner) <==> s == status && u in inner
    ensures Get(Prefixed(status, inner), (s, u)) == if s == status then Get(inner, u) else 0
    decreases |inner|
  {
    if inner != map[] {
      var k := Pick(inner.Keys);
      RemoveShrinks(inner, k);
      PrefixedGet(status, inner - {k}, s, u);
    }
  }

  /** The labels and counts of `Flatten`. */
  lemma {:induction false} FlattenGet(m: map<string, map<string, nat>>, s: string, u: string)
    ensures (s, u) in Flatten(m) <==> s in m && u in m[s]
    ensures Get(Flatten(m), (s, u)) == if s in m then Get(m[s], u) else 0
    decreases |m|
  {
    if m != map[] {
      var k := Pick(m.Keys);
      RemoveShrinks(m, k);
      FlattenGet(m - {k}, s, u);
      PrefixedGet(k, m[k], s, u);
    }
  }

  /** What the add-only loops of one successful poll leave in the counters. */
  ghost function Applied(cs: CounterState, st: Stats): CounterState
  {
    CounterState(
      AddCounts(cs.dnsQueries, st.queryTypes),
      AddCounts(cs.allowedDnsQueries, Flatten(st.allowedQueries)),
      AddCounts(AddCounts(cs.blockedDnsQueries, Labelled(st.blockedQueries, "false")),
                Labelled(st.blockedCnameQueries, "true")),
      AddCounts(cs.clientDnsQueries, st.clientQueries))
  }

  /** How `updateMetrics` ends: it returns the next window start, or the poll's panic unwinds through it. */
  datatype Poll = Returned(next: int) | Aborted

  /** `updateMetrics` on the counters' values: the new values and how the call ended. */
  ghost function Updated(cs: CounterState, since: int, now: int, answer: DbAnswer): (CounterState, Poll)
  {
    match Aggregate(answer)
    case Success(st) => (Applied(cs, st), Returned(now))
    case Failed(_) => (cs, Returned(since))
    case Panicked(_) => (cs, Aborted)
  }

  // ----- What one poll does to the counters -----

  /**
   * Every query type in the stats raises its counter by exactly its count;
   * the second clause, a corollary of the first (`Get` of an absent label
   * is 0), spells out that other labels keep theirs.
   */
  lemma AppliedQueryTypes(cs: CounterState, st: Stats)
    ensures forall t :: Get(Applied(cs, st).dnsQueries, t) == Get(cs.dnsQueries, t) + Get(st.queryTypes, t)
    ensures forall t :: t !in st.queryTypes ==> Get(Applied(cs, st).dnsQueries, t) == Get(cs.dnsQueries, t)
  {
  }

  /** Every `(status, upstream)` pair in the stats raises its counter by exactly its count. */
  lemma AppliedAllowed(cs: CounterState, st: Stats)
    ensures forall s, u ::
      Get(Applied(cs, st).allowedDnsQueries, (s, u)) ==
      Get(cs.allowedDnsQueries, (s, u)) + (if s in st.allowedQueries then Get(st.allowedQueries[s], u) else 0)
  {
    forall s, u
      ensures Get(Flatten(st.allowedQueries), (s, u)) ==
        (if s in st.allowedQueries then Get(st.allowedQueries[s], u) else 0)
    {
      FlattenGet(st.allowedQueries, s, u);
    }
  }

  /**
   * Plainly blocked statuses are counted under `deep_cname = "false"`,
   * CNAME-blocked ones under `"true"`, and no other `deep_cname` label
   * changes; the two status maps never write the same counter.
   */
  lemma AppliedBlocked(cs: CounterState, st: Stats)
    ensures forall s, d ::
      Get(Applied(cs, st).blockedDnsQueries, (s, d)) == Get(cs.blockedDnsQueries, (s, d)) +
        (if d == "false" then Get(st.blockedQueries, s) else if d == "true" then Get(st.blockedCnameQueries, s) else 0)
    ensures forall p :: !(p in Labelled(st.blockedQueries, "false") && p in Labelled(st.blockedCnameQueries, "true"))
  {
    forall s, d
      ensures Get(Applied(cs, st).blockedDnsQueries, (s, d)) == Get(cs.blockedDnsQueries, (s, d)) +
        (if d == "false" then Get(st.blockedQueries, s) else if d == "true" then Get(st.blockedCnameQueries, s) else 0)
    {
      LabelledGet(st.blockedQueries, "false", s, d);
      LabelledGet(st.blockedCnameQueries, "true", s, d);
    }
    forall p
      ensures !(p in Labelled(st.blockedQueries, "false") && p in Labelled(st.blockedCnameQueries, "true"))
    {
      LabelledGet(st.blockedQueries, "false", p.0, p.1);
      LabelledGet(st.blockedCnameQueries, "true", p.0, p.1);
    }
  }

  /** Every client in the stats raises its counter by exactly its count. */
  lemma AppliedClients(cs: CounterState, st: Stats)
    ensures forall c :: Get(Applied(cs, st).clientDnsQueries, c) == Get(cs.clientDnsQueries, c) + Get(st.clientQueries, c)
  {
  }

  /** The reply-type map of the stats reaches no counter. */
  lemma RepliesNeverApplied(cs: CounterState, st: Stats, replies: map<string, nat>)
    ensures Applied(cs, st.(queryReplies := replies)) == Applied(cs, st)
  {
  }

  /** No counter ever goes down, at any label. */
  predicate NoneDecreased(before: CounterState, after: CounterState)
  {
    && (forall k :: k in before.dnsQueries ==> before.dnsQueries[k] <= Get(after.dnsQueries, k))
    && (forall k :: k in before.allowedDnsQueries ==> before.allowedDnsQueries[k] <= Get(after.allowedDnsQueries, k))
    && (forall k :: k in before.blockedDnsQueries ==> before.blockedDnsQueries[k] <= Get(after.blockedDnsQueries, k))
    && (forall k :: k in before.clientDnsQueries ==> before.clientDnsQueries[k] <= Get(after.clientDnsQueries, k))
  }

  /** Whatever the poll returns, every counter is non-decreasing. */
  lemma UpdatedMonotone(cs: CounterState, since: int, now: int, answer: DbAnswer)
    ensures NoneDecreased(cs, Updated(cs, since, now, answer).0)
  {
  }

  /**
   * A failed or panicking poll changes no counter; only a successful one
   * moves the window start, to the right edge `now` of the window it queried.
   */
  lemma UpdatedCases(cs: CounterState, since: int, now: int, answer: DbAnswer)
    ensures Aggregate(answer).Success? ==> Updated(cs, since, now, answer).1 == Returned(now)
    ensures Aggregate(answer).Failed? ==> Updated(cs, since, now, answer).1 == Returned(since)
    ensures Aggregate(answer).Panicked? <==> Updated(cs, since, now, answer).1 == Aborted
    ensures !Aggregate(answer).Success? ==> Updated(cs, since, now, answer).0 == cs
  {
  }

  // ----- Rows that stop early -----

  /**
   * `rows.Next` also returns false when iteration stops on an error (the
   * 30-second deadline, a lost connection), and `rows.Err` is never read:
   * a poll whose rows stop after `k` scans still returns `now`, so the next
   * window starts after the rows it never read, and the counters gain only
   * the rows before the stop.
   */
  lemma TruncatedPollAdvances(cs: CounterState, since: int, now: int, scans: seq<Scan>, k: nat)
    requires Aggregate(Rows(scans)).Success? && k <= |scans|
    ensures Aggregate(Rows(scans[..k])).Success?
    ensures Updated(cs, since, now, Rows(scans[..k])) == (Applied(cs, Aggregate(Rows(scans[..k])).stats), Returned(now))
    ensures SumValues(Aggregate(Rows(scans)).stats.queryTypes) ==
      SumValues(Aggregate(Rows(scans[..k])).stats.queryTypes) + PiholeProperties.Total(PiholeProperties.ScannedRows(scans[k..]), 1)
  {
    PiholeProperties.TruncatedAnswerSucceeds(scans, k);
  }

  /** A blocked map `m` raises the counter `(status, "false")` by exactly `m`'s count for `status`. */
  lemma BlockedCounterGain(cs: CounterState, st: Stats, status: string)
    ensures Get(Applied(cs, st).blockedDnsQueries, (status, "false")) ==
      Get(cs.blockedDnsQueries, (status, "false")) + Get(st.blockedQueries, status)
  {
    AppliedBlocked(cs, st);
  }

  /**
   * The forwarded row and the gravity-blocked row of one window, with the
   * rows stopping after the first: the poll returns `now`, and the gravity
   * counter never receives the 3 queries it gets when both rows are read.
   */
  lemma TruncatedBatchSkipsGravity(cs: CounterState, since: int, now: int)
    ensures var scans := [Scanned(PiholeProperties.ForwardedRow), Scanned(PiholeProperties.GravityRow)];
      var (after, poll) := Updated(cs, since, now, Rows(scans[..1]));
      && poll == Returned(now)
      && Get(after.blockedDnsQueries, ("gravity", "false")) == Get(cs.blockedDnsQueries, ("gravity", "false"))
      && Get(Updated(cs, since, now, Rows(scans)).0.blockedDnsQueries, ("gravity", "false")) ==
         Get(cs.blockedDnsQueries, ("gravity", "false")) + 3
  {
    var scans := [Scanned(PiholeProperties.ForwardedRow), Scanned(PiholeProperties.GravityRow)];
    var part := PiholeProperties.AfterForwarded;
    PiholeProperties.ForwardedStep();
    PiholeProperties.FoldOne(EmptyStats, PiholeProperties.ForwardedRow);
    assert scans[..1] == [Scanned(PiholeProperties.ForwardedRow)];
    BlockedCounterGain(cs, part, "gravity");
    PiholeProperties.TwoRowBatch();
    var whole := Aggregate(Rows(scans)).stats;
    assert whole.blockedQueries == map["gravity" := 3];
    BlockedCounterGain(cs, whole, "gravity");
  }

  /**
   * `updateMetrics` with the `rows.Err` check after the loop: an iteration
   * error takes the error path, so the counters stay as they were and the
   * window start stays at `since`.
   */
  ghost function UpdatedChecked(cs: CounterState, since: int, now: int, answer: DbAnswer, rowsErr: Option<string>): (CounterState, Poll)
  {
    if rowsErr.Some? && Aggregate(answer).Success? then (cs, Returned(since)) else Updated(cs, since, now, answer)
  }

  /**
   * With the check, rows that stop early are never skipped: such a poll
   * leaves the counters and the window start alone, so the next scrape asks
   * again for the whole window; a poll that moves the window start on has
   * read every row of the window.
   */
  lemma CheckedPollRetries(cs: CounterState, since: int, now: int, scans: seq<Scan>, k: nat, rowsErr: Option<string>)
    requires Aggregate(Rows(scans)).Success? && k <= |scans|
    requires k < |scans| ==> rowsErr.Some?
    ensures k < |scans| ==> UpdatedChecked(cs, since, now, Rows(scans[..k]), rowsErr) == (cs, Returned(since))
    ensures var (after, poll) := UpdatedChecked(cs, since, now, Rows(scans[..k]), rowsErr);
      poll == Returned(now) && now != since ==> after == Updated(cs, since, now, Rows(scans)).0
    ensures rowsErr.None? ==> UpdatedChecked(cs, since, now, Rows(scans[..k]), rowsErr) == Updated(cs, since, now, Rows(scans))
  {
    PiholeProperties.TruncatedAnswerSucceeds(scans, k);
    if k == |scans| {
      assert scans[..k] == scans;
    }
  }

  /** One `CounterVec`: a counter per label value (or tuple), written in place by `Add`. */
  class CounterVec<L(==)> {
    var values: map<L, nat>

    constructor()
      ensures values == map[]
    {
      values := map[];
    }

    /** `WithLabelValues(l).Add(n)`: the counter for `l` grows by `n`, created at 0 on first use. */
    method Add(l: L, n: nat)
      modifies this
      ensures values == Counts.Add(old(values), l, n)
    {
      values := values[l := Get(values, l) + n];
    }
  }

  /** The package-level counter vectors the exporter registers. */
  class Counters {
    const dnsQueries: CounterVec<string>
    const allowedDnsQueries: CounterVec<(string, string)>
    const blockedDnsQueries: CounterVec<(string, string)>
    const clientDnsQueries: CounterVec<string>

    /** The four vectors are distinct objects. */
    ghost predicate Valid()
      reads this
    {
      dnsQueries != clientDnsQueries && allowedDnsQueries != blockedDnsQueries
    }

    function State(): CounterState
      reads this, dnsQueries, allowedDnsQueries, blockedDnsQueries, clientDnsQueries
    {
      CounterState(dnsQueries.values, allowedDnsQueries.values, blockedDnsQueries.values, clientDnsQueries.values)
    }

    constructor()
      ensures Valid() && State() == NoCounters
      ensures fresh(dnsQueries) && fresh(allowedDnsQueries) && fresh(blockedDnsQueries) && fresh(clientDnsQueries)
    {
      dnsQueries := new CounterVec();
      allowedDnsQueries := new CounterVec();
      blockedDnsQueries := new CounterVec();
      clientDnsQueries := new CounterVec();
    }
  }

  /** `for label, num := range m { vec.WithLabelValues(label).Add(num) }` */
  method AddEach(vec: CounterVec<string>, m: map<string, nat>)
    modifies vec
    ensures vec.values == AddCounts(old(vec.values), m)
  {
    var todo := m.Keys;
    ghost var done := {};
    AddCountsEmpty(vec.values);
    while todo != {}
      invariant done + todo == m.Keys && done !! todo
      invariant vec.values == AddCounts(old(vec.values), Restrict(m, done))
      decreases todo
    {
      var k :| k in todo;
      AddCountsStep(old(vec.values), m, done, k);
      vec.Add(k, m[k]);
      done, todo := done + {k}, todo - {k};
    }
    RestrictAll(m);
  }

  /** `for status, num := range m { BlockedDNSQueries.WithLabelValues(status, deepCname).Add(num) }` */
  method AddBlocked(vec: CounterVec<(string, string)>, m: map<string, nat>, deepCname: string)
    modifies vec
    ensures vec.values == AddCounts(old(vec.values), Labelled(m, deepCname))
  {
    var todo := m.Keys;
    ghost var done := {};
    LabelledNone(vec.values, m, deepCname);
    while todo != {}
      invariant done + todo == m.Keys && done !! todo
      invariant vec.values == AddCounts(old(vec.values), Labelled(Restrict(m, done), deepCname))
      decreases todo
    {
      var s :| s in todo;
      BlockedStep(old(vec.values), m, done, s, deepCname);
      vec.Add((s, deepCname), m[s]);
      done, todo := done + {s}, todo - {s};
    }
    RestrictAll(m);
  }

  /**
   * `for status, upstreamMap := range stats.AllowedQueries { for upstream,
   * num := range upstreamMap { AllowedDNSQueries.WithLabelValues(status,
   * upstream).Add(num) } }`
   */
  method AddAllowed(vec: CounterVec<(string, string)>, m: map<string, map<string, nat>>)
    modifies vec
    ensures vec.values == AddCounts(old(vec.values), Flatten(m))
  {
    var statuses := m.Keys;
    ghost var done := {};
    FlattenNone(vec.values, m);
    while statuses != {}
      invariant done + statuses == m.Keys && done !! statuses
      invariant vec.values == AddCounts(old(vec.values), Flatten(Restrict(m, done)))
      decreases statuses
    {
      var s :| s in statuses;
      AddUpstreams(vec, s, m[s]);
      AllowedStatusDone(old(vec.values), m, done, s);
      done, statuses := done + {s}, statuses - {s};
    }
    RestrictAll(m);
  }

  /** The inner loop of `AddAllowed`: every upstream of one status. */
  method AddUpstreams(vec: CounterVec<(string, string)>, status: string, upstreamMap: map<string, nat>)
    modifies vec
    ensures vec.values == AddCounts(old(vec.values), Prefixed(status, upstreamMap))
  {
    var upstreams := upstreamMap.Keys;
    ghost var done := {};
    PrefixedNone(vec.values, status, upstreamMap);
    while upstreams != {}
      invariant done + upstreams == upstreamMap.Keys && done !! upstreams
      invariant vec.values == AddCounts(old(vec.values), Prefixed(status, Restrict(upstreamMap, done)))
      decreases upstreams
    {
      var u :| u in upstreams;
      PrefixedStep(old(vec.values), status, upstreamMap, done, u);
      vec.Add((status, u), upstreamMap[u]);
      done, upstreams := done + {u}, upstreams - {u};
    }
    RestrictAll(upstreamMap);
  }

  /** Nothing handled yet: nothing added. */
  lemma LabelledNone(c: map<(string, string), nat>, m: map<string, nat>, deepCname: string)
    ensures AddCounts(c, Labelled(Restrict(m, {}), deepCname)) == c
  {
    assert Restrict(m, {}) == map[];
    AddCountsEmpty(c);
  }

  /** The loop step of `AddBlocked`: one more status handled adds exactly its labelled entry. */
  lemma BlockedStep(c: map<(string, string), nat>, m: map<string, nat>, done: set<string>, s: string, deepCname: string)
    requires s in m && s !in done
    ensures AddCounts(c, Labelled(Restrict(m, done + {s}), deepCname)) ==
      Add(AddCounts(c, Labelled(Restrict(m, done), deepCname)), (s, deepCname), m[s])
  {
    var before, after := Labelled(Restrict(m, done), deepCname), Labelled(Restrict(m, done + {s}), deepCname);
    RestrictStep(m, done, s);
    forall p
      ensures p in after <==> p in before[(s, deepCname) := m[s]]
      ensures Get(after, p) == Get(before[(s, deepCname) := m[s]], p)
    {
      LabelledGet(Restrict(m, done), deepCname, p.0, p.1);
      LabelledGet(Restrict(m, done + {s}), deepCname, p.0, p.1);
    }
    CountsExt(after, before[(s, deepCname) := m[s]]);
    LabelledGet(Restrict(m, done), deepCname, s, deepCname);
    AddCountsInsert(c, before, (s, deepCname), m[s]);
  }

  /** Nothing handled yet: nothing added. */
  lemma FlattenNone(c: map<(string, string), nat>, m: map<string, map<string, nat>>)
    ensures AddCounts(c, Flatten(Restrict(m, {}))) == c
  {
    assert Restrict(m, {}) == map[];
    AddCountsEmpty(c);
  }

  /** Entering the inner loop of `AddAllowed`: none of the current status's upstreams added yet. */
  lemma PrefixedNone(c: map<(string, string), nat>, status: string, inner: map<string, nat>)
    ensures AddCounts(c, Prefixed(status, Restrict(inner, {}))) == c
  {
    assert Restrict(inner, {}) == map[];
    AddCountsEmpty(c);
  }

  /** The inner loop step of `AddAllowed`: one more upstream adds exactly its label pair. */
  lemma PrefixedStep(c: map<(string, string), nat>, status: string, inner: map<string, nat>, done: set<string>, u: string)
    requires u in inner && u !in done
    ensures AddCounts(c, Prefixed(status, Restrict(inner, done + {u}))) ==
      Add(AddCounts(c, Prefixed(status, Restrict(inner, done))), (status, u), inner[u])
  {
    var before, after := Prefixed(status, Restrict(inner, done)), Prefixed(status, Restrict(inner, done + {u}));
    RestrictStep(inner, done, u);
    forall p
      ensures p in after <==> p in before[(status, u) := inner[u]]
      ensures Get(after, p) == Get(before[(status, u) := inner[u]], p)
    {
      PrefixedGet(status, Restrict(inner, done), p.0, p.1);
      PrefixedGet(status, Restrict(inner, done + {u}), p.0, p.1);
    }
    CountsExt(after, before[(status, u) := inner[u]]);
    PrefixedGet(status, Restrict(inner, done), status, u);
    AddCountsInsert(c, before, (status, u), inner[u]);
  }

  /** Leaving the inner loop of `AddAllowed`: the whole status has been added. */
  lemma AllowedStatusDone(c: map<(string, string), nat>, m: map<string, map<string, nat>>, done: set<string>, s: string)
    requires s in m && s !in done
    ensures AddCounts(AddCounts(c, Flatten(Restrict(m, done))), Prefixed(s, m[s])) ==
      AddCounts(c, Flatten(Restrict(m, done + {s})))
  {
    RestrictStep(m, done, s);
    var f, g := Flatten(Restrict(m, done)), Flatten(Restrict(m, done + {s}));
    var lhs, rhs := AddCounts(AddCounts(c, f), Prefixed(s, m[s])), AddCounts(c, g);
    forall p
      ensures p in lhs <==> p in rhs
      ensures Get(lhs, p) == Get(rhs, p)
    {
      FlattenGet(Restrict(m, done), p.0, p.1);
      FlattenGet(Restrict(m, done + {s}), p.0, p.1);
      PrefixedGet(s, m[s], p.0, p.1);
    }
    CountsExt(lhs, rhs);
  }

  /**
   * `updateMetrics`: poll the window `[since, now)`; on an error return
   * `since` untouched, otherwise add every stats entry to its counter and
   * return `now`. A panic in the poll leaves the counters as they were.
   */
  method UpdateMetrics(counters: Counters, since: int, now: int, answer: DbAnswer) returns (r: Poll)
    requires counters.Valid()
    modifies counters.dnsQueries, counters.allowedDnsQueries, counters.blockedDnsQueries, counters.clientDnsQueries
    ensures (counters.State(), r) == Updated(old(counters.State()), since, now, answer)
  {
    var outcome := QueryPihole(answer);
    if outcome.Panicked? {
      return Aborted;
    }
    if outcome.Failed? {
      return Returned(since);  // the error is logged
    }
    var stats := outcome.stats;
    AddEach(counters.dnsQueries, stats.queryTypes);
    AddAllowed(counters.allowedDnsQueries, stats.allowedQueries);
    AddBlocked(counters.blockedDnsQueries, stats.blockedQueries, "false");
    AddBlocked(counters.blockedDnsQueries, stats.blockedCnameQueries, "true");
    AddEach(counters.clientDnsQueries, stats.clientQueries);
    return Returned(now);
  }
}
