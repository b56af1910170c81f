/**
 * The `/metrics` handler: every scrape polls the window that starts at
 * `lastUpdate`, stores what `updateMetrics` returned as the new
 * `lastUpdate`, and answers 500 when that value did not move; otherwise the
 * Prometheus handler serves the counters.
 *
 * Scrapes are sequential. The clock reading and the database's answer of
 * each scrape are parameters.
 */
module Exporter {
  import opened Counts
  import opened Pihole
  import opened Prometheus

  /** What the scraper gets back. */
  datatype Response =
    | InternalServerError
    | Served(metrics: CounterState)
    | ConnectionAborted

  /** The half-open window `[since, now)` of a poll: `timestamp >= since AND timestamp < now`. */
  datatype Window = Window(since: int, now: int)

  predicate InWindow(t: int, w: Window)
  {
    w.since <= t < w.now
  }

  /** One scrape's inputs: the clock reading taken by `updateMetrics` and the database's answer. */
  datatype ScrapeInput = ScrapeInput(now: int, answer: DbAnswer)

  /** The handler's state: the package-level `lastUpdate` and the counters. */
  datatype ExporterState = ExporterState(lastUpdate: int, counters: CounterState)

  /** At start-up `lastUpdate` is Go's zero value, so the first window begins at the epoch. */
  const Initial := ExporterState(0, NoCounters)

  /** One scrape on the state's values. */
  ghost function Scrape(es: ExporterState, input: ScrapeInput): (ExporterState, Response)
  {
    var (cs, poll) := Updated(es.counters, es.lastUpdate, input.now, input.answer);
    match poll
    case Aborted => (es, ConnectionAborted)
    case Returned(next) =>
      (ExporterState(next, cs), if next == es.lastUpdate then InternalServerError else Served(cs))
  }

  /** The windows of a state's successful polls, oldest first, lead without gap from `start` to `end`. */
  ghost predicate Chain(ws: seq<Window>, start: int, end: int)
    decreases |ws|
  {
    if ws == [] then start == end
    else ws[0].since == start && Chain(ws[1..], ws[0].now, end)
  }

  // ----- One scrape -----

  /**
   * A scrape is served exactly when the poll succeeds at a clock reading
   * other than `lastUpdate`; a failed poll, or a successful one whose `now`
   * equals `lastUpdate`, is answered 500; a panicking poll aborts the
   * connection. `lastUpdate` becomes what `updateMetrics` returned.
   */
  lemma ScrapeResponse(es: ExporterState, input: ScrapeInput)
    ensures var (next, resp) := Scrape(es, input); var outcome := Aggregate(input.answer);
      && (resp.Served? <==> outcome.Success? && input.now != es.lastUpdate)
      && (resp == InternalServerError <==> outcome.Failed? || (outcome.Success? && input.now == es.lastUpdate))
      && (resp == ConnectionAborted <==> outcome.Panicked?)
      && (outcome.Success? ==> next.lastUpdate == input.now && next.counters == Applied(es.counters, outcome.stats))
      && (!outcome.Success? ==> next == es)
  {
  }

  /**
   * A successful poll whose `now` equals `lastUpdate`, the `now` of the
   * last successful poll, queried an empty window, yet is reported as 500
   * while its result has been added to the counters.
   */
  lemma SameSecondIsError(es: ExporterState, input: ScrapeInput)
    requires Aggregate(input.answer).Success? && input.now == es.lastUpdate
    ensures Scrape(es, input).1 == InternalServerError
    ensures Scrape(es, input).0.counters == Applied(es.counters, Aggregate(input.answer).stats)
    ensures forall t :: !InWindow(t, Window(es.lastUpdate, input.now))
  {
  }

  // ----- A sequence of scrapes -----

  /** A state after each of `inputs` in turn, with the windows its successful polls queried. */
  ghost function Run(es: ExporterState, inputs: seq<ScrapeInput>): (ExporterState, seq<Window>)
    decreases |inputs|
  {
    if inputs == [] then (es, [])
    else
      var next := Scrape(es, inputs[0]).0;
      var w := if Aggregate(inputs[0].answer).Success? then [Window(es.lastUpdate, inputs[0].now)] else [];
      var (final, ws) := Run(next, inputs[1..]);
      (final, w + ws)
  }

  /** Consecutive successful scrapes query contiguous windows, from the first `lastUpdate` to the last. */
  lemma {:induction false} RunChains(es: ExporterState, inputs: seq<ScrapeInput>)
    ensures Chain(Run(es, inputs).1, es.lastUpdate, Run(es, inputs).0.lastUpdate)
    decreases |inputs|
  {
    if inputs != [] {
      var next := Scrape(es, inputs[0]).0;
      ScrapeResponse(es, inputs[0]);
      RunChains(next, inputs[1..]);
      var ws := Run(next, inputs[1..]).1;
      if Aggregate(inputs[0].answer).Success? {
        assert ([Window(es.lastUpdate, inputs[0].now)] + ws)[1..] == ws;
      } else {
        assert [] + ws == ws;
      }
    }
  }

  /** No counter decreases over any sequence of scrapes. */
  lemma {:induction false} RunMonotone(es: ExporterState, inputs: seq<ScrapeInput>)
    ensures NoneDecreased(es.counters, Run(es, inputs).0.counters)
    decreases |inputs|
  {
    if inputs != [] {
      var next := Scrape(es, inputs[0]).0;
      UpdatedMonotone(es.counters, es.lastUpdate, inputs[0].now, inputs[0].answer);
      RunMonotone(next, inputs[1..]);
      NoneDecreasedTrans(es.counters, next.counters, Run(next, inputs[1..]).0.counters);
    }
  }

  lemma NoneDecreasedTrans(a: CounterState, b: CounterState, c: CounterState)
    requires NoneDecreased(a, b) && NoneDecreased(b, c)
    ensures NoneDecreased(a, c)
  {
    forall k | k in a.dnsQueries ensures a.dnsQueries[k] <= Get(c.dnsQueries, k) {
      if k in b.dnsQueries { assert b.dnsQueries[k] <= Get(c.dnsQueries, k); }
    }
    forall k | k in a.allowedDnsQueries ensures a.allowedDnsQueries[k] <= Get(c.allowedDnsQueries, k) {
      if k in b.allowedDnsQueries { assert b.allowedDnsQueries[k] <= Get(c.allowedDnsQueries, k); }
    }
    forall k | k in a.blockedDnsQueries ensures a.blockedDnsQueries[k] <= Get(c.blockedDnsQueries, k) {
      if k in b.blockedDnsQueries { assert b.blockedDnsQueries[k] <= Get(c.blockedDnsQueries, k); }
    }
    forall k | k in a.clientDnsQueries ensures a.clientDnsQueries[k] <= Get(c.clientDnsQueries, k) {
      if k in b.clientDnsQueries { assert b.clientDnsQueries[k] <= Get(c.clientDnsQueries, k); }
    }
  }

  // ----- Chains of windows -----

  /** A chain grows by one window at its end. */
  lemma {:induction false} ChainExtend(ws: seq<Window>, start: int, end: int, now: int)
    requires Chain(ws, start, end)
    ensures Chain(ws + [Window(end, now)], start, now)
    decreases |ws|
  {
    if ws == [] {
      assert ([] + [Window(end, now)])[1..] == [];
    } else {
      ChainExtend(ws[1..], ws[0].now, end, now);
      assert (ws + [Window(end, now)])[1..] == ws[1..] + [Window(end, now)];
    }
  }

  /** Every instant from the start of a chain up to its end lies in one of its windows. */
  lemma {:induction false} ChainCovers(ws: seq<Window>, start: int, end: int, t: int)
    requires Chain(ws, start, end) && start <= t < end
    ensures exists i :: 0 <= i < |ws| && InWindow(t, ws[i])
    decreases |ws|
  {
    if !InWindow(t, ws[0]) {
      ChainCovers(ws[1..], ws[0].now, end, t);
      var i :| 0 <= i < |ws[1..]| && InWindow(t, ws[1..][i]);
      assert InWindow(t, ws[i + 1]);
    }
  }

  /** The clock did not run backwards between the polls of the chain. */
  predicate Forward(ws: seq<Window>)
  {
    forall i :: 0 <= i < |ws| ==> ws[i].since <= ws[i].now
  }

  /** In a forward chain every window lies between the chain's two ends. */
  lemma {:induction false} ChainBounds(ws: seq<Window>, start: int, end: int)
    requires Chain(ws, start, end) && Forward(ws)
    ensures start <= end
    ensures forall i :: 0 <= i < |ws| ==> start <= ws[i].since && ws[i].now <= end
    decreases |ws|
  {
    if ws != [] {
      assert Forward(ws[1..]) by {
        forall i | 0 <= i < |ws[1..]| ensures ws[1..][i].since <= ws[1..][i].now {
          assert ws[1..][i] == ws[i + 1];
        }
      }
      ChainBounds(ws[1..], ws[0].now, end);
      forall i | 1 <= i < |ws| ensures start <= ws[i].since && ws[i].now <= end {
        assert ws[i] == ws[1..][i - 1];
      }
    }
  }

  /** The suffix of a chain after its `k`-th window is a chain from that window's right edge. */
  lemma {:induction false} ChainSuffix(ws: seq<Window>, start: int, end: int, k: nat)
    requires Chain(ws, start, end) && k < |ws|
    ensures Chain(ws[k + 1..], ws[k].now, end)
    decreases k
  {
    if k > 0 {
      ChainSuffix(ws[1..], ws[0].now, end, k - 1);
      assert ws[1..][k - 1] == ws[k] && ws[1..][k..] == ws[k + 1..];
    }
  }

  /** When the clock runs forward, no instant is counted by two polls. */
  lemma ChainDisjoint(ws: seq<Window>, start: int, end: int, i: nat, j: nat, t: int)
    requires Chain(ws, start, end) && Forward(ws)
    requires i < j < |ws|
    ensures !(InWindow(t, ws[i]) && InWindow(t, ws[j]))
  {
    ChainSuffix(ws, start, end, i);
    var rest := ws[i + 1..];
    assert Forward(rest) by {
      forall k | 0 <= k < |rest| ensures rest[k].since <= rest[k].now {
        assert rest[k] == ws[i + 1 + k];
      }
    }
    ChainBounds(rest, ws[i].now, end);
    assert rest[j - i - 1] == ws[j];
  }

  /** The handler and the state it closes over. */
  class MetricsHandler {
    var lastUpdate: int
    const counters: Counters
    /** The windows of the successful polls so far, oldest first. */
    ghost var windows: seq<Window>

    ghost predicate Valid()
      reads this, counters
    {
      counters.Valid() && Chain(windows, 0, lastUpdate)
    }

    function State(): ExporterState
      reads this, counters, counters.dnsQueries, counters.allowedDnsQueries, counters.blockedDnsQueries,
        counters.clientDnsQueries
    {
      ExporterState(lastUpdate, counters.State())
    }

    /** `buildMetrics` and the zero `lastUpdate`. */
    constructor()
      ensures Valid() && State() == Initial && windows == []
    {
      lastUpdate := 0;
      counters := new Counters();
      windows := [];
    }

    /** The `/metrics` handler function. */
    method ServeMetrics(now: int, answer: DbAnswer) returns (resp: Response)
      requires Valid()
      modifies this, counters.dnsQueries, counters.allowedDnsQueries, counters.blockedDnsQueries,
        counters.clientDnsQueries
      ensures Valid()
      ensures (State(), resp) == Scrape(old(State()), ScrapeInput(now, answer))
      ensures windows == old(windows) + (if Aggregate(answer).Success? then [Window(old(lastUpdate), now)] else [])
    {
      var previous := lastUpdate;
      var poll := UpdateMetrics(counters, lastUpdate, now, answer);
      if poll.Aborted? {
        return ConnectionAborted;  // the panic unwinds before `lastUpdate` is assigned
      }
      lastUpdate := poll.next;
      if Aggregate(answer).Success? {
        ChainExtend(windows, 0, previous, now);
        windows := windows + [Window(previous, now)];
      }
      if lastUpdate == previous {
        return InternalServerError;
      }
      return Served(counters.State());
    }
  }
}
