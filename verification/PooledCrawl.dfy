/** The crawl and the worker pool together, over one frontier: what a pool at rest has achieved. */
module PooledCrawl {
  import opened Backoff
  import opened FrontierState
  import opened Leases
  import opened Graph
  import opened Crawl
  import opened LeasedCrawl
  import Pool = WakeUp

  /** Both sides see the same frontier. Calls are not tied to workers: a call may outlive its worker's deadline, and
      seeds come from outside. */
  datatype Whole = Whole(w: World, p: Pool.Pool)

  datatype Event = Acted(act: Act) | Signalled(move: Pool.Move)

  ghost predicate Possible(conf: CrawlConfig, x: Whole, clock: int, ev: Event) {
    match ev
    case Acted(a) => Patient(conf, x.w, clock, a)
    case Signalled(m) => !m.Script? && Pool.Enabled(x.p, m)
  }

  /** An act that runs a script is, for the pool, that script with its keyspace events. */
  ghost function After(conf: CrawlConfig, x: Whole, clock: int, ev: Event): Whole
    requires Possible(conf, x, clock, ev)
  {
    match ev
    case Acted(a) =>
      Whole(Do(x.w, a),
            match ScriptOf(x.w, a)
            case None => x.p
            case Some(step) => Pool.Announced(x.p, step))
    case Signalled(m) => Whole(x.w, Pool.Next(x.p, m))
  }

  function WholeClock(x: Whole, clock: int, ev: Event): int {
    if ev.Acted? then ClockAfter(x.w, clock, ev.act) else clock
  }

  ghost predicate WholeRun(conf: CrawlConfig, x: Whole, clock: int, evs: seq<Event>)
    decreases |evs|
  {
    evs == [] ||
    (&& Possible(conf, x, clock, evs[0])
     && WholeRun(conf, After(conf, x, clock, evs[0]), WholeClock(x, clock, evs[0]), evs[1..]))
  }

  ghost function WholeEnd(conf: CrawlConfig, x: Whole, clock: int, evs: seq<Event>): Whole
    requires WholeRun(conf, x, clock, evs)
    decreases |evs|
  {
    if evs == [] then x
    else WholeEnd(conf, After(conf, x, clock, evs[0]), WholeClock(x, clock, evs[0]), evs[1..])
  }

  /** A pool just started after the acts of `past`: the first start, or one after a crash. */
  ghost function Started(conf: CrawlConfig, past: seq<Act>, n: nat): Whole
    requires PatientRun(conf, START, 0, past)
  {
    PatientIsRun(conf, START, 0, past);
    Whole(CrawlEnd(START, past), Pool.StartPool(CrawlEnd(START, past).f, n))
  }

  // ----- the invariant -----

  ghost predicate WholeInv(x: Whole) {
    && x.p.f == x.w.f
    && CrawlInv(x.w) && Exclusive(x.w.f) && Holders(x.w)
    && Pool.Shaped(x.p) && |x.p.phases| > 0 && Pool.Attended(x.p)
  }

  lemma ActKeeps(conf: CrawlConfig, x: Whole, clock: int, a: Act)
    requires WholeInv(x) && Patient(conf, x.w, clock, a)
    ensures WholeInv(After(conf, x, clock, Acted(a)))
  {
    DoKeepsInv(x.w, a);
    PatientKeeps(conf, x.w, clock, a);
    DoFrontier(x.w, a);
    if ScriptOf(x.w, a).Some? {
      PatientIsLeased(conf, x.w, clock, a);
      Pool.ScriptAttended(conf, x.p, clock, ScriptOf(x.w, a).value);
    }
  }

  lemma SignalKeeps(conf: CrawlConfig, x: Whole, clock: int, m: Pool.Move)
    requires WholeInv(x) && Possible(conf, x, clock, Signalled(m))
    ensures WholeInv(After(conf, x, clock, Signalled(m)))
  {
    Pool.SignalAttended(x.p, m);
  }

  lemma {:induction false} WholeKeeps(conf: CrawlConfig, x: Whole, clock: int, evs: seq<Event>)
    requires WholeInv(x) && WholeRun(conf, x, clock, evs)
    ensures WholeInv(WholeEnd(conf, x, clock, evs))
    decreases |evs|
  {
    if evs != [] {
      match evs[0] {
        case Acted(a) => ActKeeps(conf, x, clock, a);
        case Signalled(m) => SignalKeeps(conf, x, clock, m);
      }
      WholeKeeps(conf, After(conf, x, clock, evs[0]), WholeClock(x, clock, evs[0]), evs[1..]);
    }
  }

  lemma StartInv(conf: CrawlConfig, past: seq<Act>, n: nat)
    requires PatientRun(conf, START, 0, past) && n > 0
    ensures WholeInv(Started(conf, past, n)) && Pool.Alert(Started(conf, past, n).p)
  {
    InitExclusive();
    PatientScripts(conf, START, 0, past);
    RunKeepsInv(START, past);
    assert !Pool.Resting(Started(conf, past, n).p.phases[0]);
  }

  // ----- the theorem -----

  /** The crawl is complete: exactly what the seeds reach along pushed links has been tracked, all of it is finished,
      and the links of every page marked Done were pushed, so they are tracked and finished too. */
  ghost predicate Complete(w: World) {
    && (forall u :: u in w.f.info <==> Reach(w.seeds, w.pushed, u))
    && (forall u :: u in w.f.info ==> Terminal(w.f.info[u].status))
    && (forall u :: w.f.Is(u, Done) ==>
          u in w.landed &&
          forall v :: v in w.landed[u].links ==>
            (w.landed[u].from, v) in w.pushed && v in w.f.info && Terminal(w.f.info[v].status))
    && UnprocessedCount(w.f) == 0
  }

  lemma RestComplete(x: Whole)
    requires WholeInv(x) && Pool.AtRest(x.p) && !Pool.Overslept(x.p)
    ensures Complete(x.w)
  {
    assert Pool.Resting(x.p.phases[0]) && !Pool.InFlight(x.p, 0);
    Pool.FinishedIffEmpty(x.w.f);
    forall u
      ensures u in x.w.f.info <==> Reach(x.w.seeds, x.w.pushed, u)
      ensures x.w.f.Is(u, Done) ==>
                u in x.w.landed &&
                forall v :: v in x.w.landed[u].links ==> (x.w.landed[u].from, v) in x.w.pushed && v in x.w.f.info
    {
      InvReachable(x.w, u);
    }
  }

  /** End to end: when every worker of the pool is in its untimed wait and no signal is on its way, then the crawl is
      complete, or some worker overslept. */
  lemma PoolAtRestIsComplete(conf: CrawlConfig, past: seq<Act>, n: nat, clock: int, evs: seq<Event>)
    requires PatientRun(conf, START, 0, past) && n > 0
    requires WholeRun(conf, Started(conf, past, n), clock, evs)
    ensures var y := WholeEnd(conf, Started(conf, past, n), clock, evs);
            Pool.AtRest(y.p) ==> Complete(y.w) || Pool.Overslept(y.p)
  {
    var y := WholeEnd(conf, Started(conf, past, n), clock, evs);
    StartInv(conf, past, n);
    WholeKeeps(conf, Started(conf, past, n), clock, evs);
    if Pool.AtRest(y.p) && !Pool.Overslept(y.p) {
      RestComplete(y);
    }
  }

  /** Whenever a worker reads that work is left, the time it aims at has not yet passed when it computes how long to
      sleep. */
  ghost predicate Ahead(conf: CrawlConfig, x: Whole, clock: int, evs: seq<Event>)
    requires WholeRun(conf, x, clock, evs)
    decreases |evs|
  {
    evs == [] ||
    (&& (evs[0].Signalled? ==> Pool.AimsAhead(x.p, evs[0].move))
     && Ahead(conf, After(conf, x, clock, evs[0]), WholeClock(x, clock, evs[0]), evs[1..]))
  }

  lemma StaysAlert(conf: CrawlConfig, x: Whole, clock: int, ev: Event)
    requires Possible(conf, x, clock, ev) && Pool.Alert(x.p)
    requires ev.Signalled? ==> Pool.AimsAhead(x.p, ev.move)
    ensures Pool.Alert(After(conf, x, clock, ev).p)
  {
    if ev.Signalled? {
      Pool.MoveAlert(x.p, ev.move);
    }
  }

  lemma {:induction false} AheadAlert(conf: CrawlConfig, x: Whole, clock: int, evs: seq<Event>)
    requires WholeRun(conf, x, clock, evs) && Ahead(conf, x, clock, evs) && Pool.Alert(x.p)
    ensures Pool.Alert(WholeEnd(conf, x, clock, evs).p)
    decreases |evs|
  {
    if evs != [] {
      StaysAlert(conf, x, clock, evs[0]);
      AheadAlert(conf, After(conf, x, clock, evs[0]), WholeClock(x, clock, evs[0]), evs[1..]);
    }
  }

  /** And nobody oversleeps while the sleeps come out positive. */
  lemma PoolAtRestIsCompleteWhenAhead(conf: CrawlConfig, past: seq<Act>, n: nat, clock: int, evs: seq<Event>)
    requires PatientRun(conf, START, 0, past) && n > 0
    requires WholeRun(conf, Started(conf, past, n), clock, evs) && Ahead(conf, Started(conf, past, n), clock, evs)
    ensures var y := WholeEnd(conf, Started(conf, past, n), clock, evs);
            Pool.AtRest(y.p) ==> Complete(y.w)
  {
    StartInv(conf, past, n);
    PoolAtRestIsComplete(conf, past, n, clock, evs);
    AheadAlert(conf, Started(conf, past, n), clock, evs);
  }
}
