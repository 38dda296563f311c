/** The scripts a crawl runs form a run of the frontier; and when neither the reaper nor a call that has not heard
    back touches a URL it should have let go, it is a leased one. */
module LeasedCrawl {
  import opened Basics
  import opened Backoff
  import opened FrontierState
  import opened FrontierStore
  import opened FrontierRuns
  import opened Leases
  import opened Progress
  import opened Crawl

  /** The scripts of a crawl, in order. */
  ghost function Scripts(w: World, acts: seq<Act>): seq<Step>
    requires CrawlRun(w, acts)
    decreases |acts|
  {
    if acts == [] then []
    else
      (match ScriptOf(w, acts[0])
       case None => []
       case Some(step) => [step]) + Scripts(Do(w, acts[0]), acts[1..])
  }

  lemma {:induction false} CrawlScans(w: World, seen: set<Url>, acts: seq<Act>)
    requires CrawlRun(w, acts) && w.scanned <= seen + w.f.index
    ensures Run(w.f, Scripts(w, acts)) == CrawlEnd(w, acts).f
    ensures ScannedRun(w.f, seen, Scripts(w, acts))
    decreases |acts|
  {
    if acts != [] {
      var a, w1 := acts[0], Do(w, acts[0]);
      DoFrontier(w, a);
      match ScriptOf(w, a)
      case None =>
        CrawlScans(w1, seen, acts[1..]);
        assert Scripts(w, acts) == Scripts(w1, acts[1..]);
      case Some(step) =>
        assert w1.scanned <= (seen + w.f.index) + w1.f.index;
        CrawlScans(w1, seen + w.f.index, acts[1..]);
        assert Scripts(w, acts)[1..] == Scripts(w1, acts[1..]);
    }
  }

  /** Without any lease, no crawl loses a URL, and no repair branch is ever taken. */
  lemma CrawlLosesNothing(acts: seq<Act>)
    requires CrawlRun(START, acts)
    ensures NothingLost(CrawlEnd(START, acts).f)
    ensures ReplyOf(CrawlEnd(START, acts).f) != Failed
  {
    CrawlScans(START, {}, acts);
    var steps := Scripts(START, acts);
    ScannedIsIssued(INIT, {}, steps);
    RunLosesNothing(INIT, steps);
    RepairsUnreachable(steps);
  }

  lemma {:induction false} ScannedIsIssued(s: State, seen: set<Url>, steps: seq<Step>)
    requires ScannedRun(s, seen, steps)
    ensures IssuedRun(s, steps)
    decreases |steps|
  {
    if steps != [] {
      ScannedIsIssued(Apply(s, steps[0]), seen + s.index, steps[1..]);
    }
  }

  // ----- leases -----

  /** The call has no claim to its URL any more: it has scheduled its retry without hearing back. */
  predicate Lapsed(x: Exec) {
    x.phase.Deferred?
  }

  /** The assumptions under which a crawl is leased. The reaper recovers an expired URL while it is still in the
      index, so it does not send that script twice, and only when no Execute is at work on the URL any more. A call
      completes its URL under the key it was popped by. A call whose retry was scheduled unheard does no more than
      leave: it neither sends that script again nor gives the URL up. One clock orders the scripts. Retries are
      scheduled by the try count the worker carries, which is what the code does. */
  ghost predicate Patient(conf: CrawlConfig, w: World, clock: int, a: Act) {
    && Enabled(w, a)
    && (ScriptOf(w, a).Some? ==> clock <= ScriptOf(w, a).value.at)
    && match a
       case Recover(at, u) =>
         && u in w.f.index && Expired(w.f, u, Milli(at), Milli(conf.threshold))
         && forall e :: e in w.execs && !Lapsed(w.execs[e]) ==> w.execs[e].url != u
       case TakeOn(_, _, _, key) => key == ReplyOf(w.f).url
       case Again(e, at, retryAt, _) =>
         && !Lapsed(w.execs[e])
         && CalcRetryTime(w.execs[e].tries, conf, at).Some?
         && retryAt == Milli(CalcRetryTime(w.execs[e].tries, conf, at).value)
       case Refuse(e, _, _, _) => !Lapsed(w.execs[e])
       case _ => true
  }

  function ClockAfter(w: World, clock: int, a: Act): int {
    if ScriptOf(w, a).Some? then ScriptOf(w, a).value.at else clock
  }

  ghost predicate PatientRun(conf: CrawlConfig, w: World, clock: int, acts: seq<Act>)
    decreases |acts|
  {
    acts == [] ||
    (Patient(conf, w, clock, acts[0]) && PatientRun(conf, Do(w, acts[0]), ClockAfter(w, clock, acts[0]), acts[1..]))
  }

  lemma {:induction false} PatientIsRun(conf: CrawlConfig, w: World, clock: int, acts: seq<Act>)
    requires PatientRun(conf, w, clock, acts)
    ensures CrawlRun(w, acts)
    decreases |acts|
  {
    if acts != [] {
      PatientIsRun(conf, Do(w, acts[0]), ClockAfter(w, clock, acts[0]), acts[1..]);
    }
  }

  /** Every call with a claim is the recorded holder of its URL and knows its try count, or has finished it; and no
      two calls have a claim to the same URL. */
  ghost predicate Holders(w: World) {
    && (forall e :: e in w.execs ==> Holds(w.f, w.execs[e]))
    && (forall e, e' :: e in w.execs && e' in w.execs && Rivals(w.execs[e], w.execs[e']) ==> e == e')
  }

  predicate Rivals(x: Exec, y: Exec) {
    !Lapsed(x) && !Lapsed(y) && x.url == y.url
  }

  predicate Holds(s: State, x: Exec) {
    match x.phase
    case Deferred => true
    case Concluded => x.key == x.url && FinishedBy(s, x.worker, x.url, Done)
    case Refused(status) => x.key == x.url && FinishedBy(s, x.worker, x.url, status)
    case _ => x.key == x.url && Held(s, x.worker, x.url) && s.info[x.url].tries == x.tries
  }

  lemma PatientIsLeased(conf: CrawlConfig, w: World, clock: int, a: Act)
    requires Patient(conf, w, clock, a) && Exclusive(w.f) && Holders(w) && ScriptOf(w, a).Some?
    ensures Leased(conf, w.f, clock, ScriptOf(w, a).value)
  {
    if a.Again? || a.Refuse? || a.Finish? {
      assert Holds(w.f, w.execs[a.e]);
    }
  }

  lemma PopSpares(s: State, w: WorkerId, now: int, x: Exec)
    requires Exclusive(s) && Holds(s, x)
    ensures Holds(PopUrl(s, w, now), x)
  {
    assert Alone(s, x.url);
    CountIn(s.queue, x.url);
    if s.queue != [] {
      assert s.queue[|s.queue| - 1] in s.queue;
    }
  }

  lemma EnqueueSpares(s: State, now: int, due: seq<Url>, x: Exec)
    requires Exclusive(s) && Holds(s, x) && IsDue(s.retry, now, due)
    ensures Holds(EnqueueDue(s, now, due), x)
  {
    assert Alone(s, x.url);
  }

  /** A script that does not complete or recover a URL leaves a claim to it alone. */
  lemma StillHolds(s: State, step: Step, x: Exec)
    requires Exclusive(s) && Issued(s, step) && Holds(s, x)
    requires step.Retried? || step.Marked? || step.Recovered? ==> step.url != x.url || Lapsed(x)
    ensures Holds(Apply(s, step), x)
  {
    if !Lapsed(x) {
      match step
      case Pop(at, w) => PopSpares(s, w, Milli(at), x);
      case Enqueued(at, due) => EnqueueSpares(s, Milli(at), due, x);
      case _ =>
        assert x.url in Apply(s, step).info && Apply(s, step).info[x.url] == s.info[x.url];
    }
  }

  /** Patient acts do not touch what another call has a claim to. */
  lemma OtherUrl(conf: CrawlConfig, w: World, clock: int, a: Act, e: nat)
    requires Patient(conf, w, clock, a) && Holders(w) && e in w.execs && !Lapsed(w.execs[e])
    requires (a.Again? || a.Refuse? || a.Finish?) ==> a.e != e
    requires ScriptOf(w, a).Some?
    ensures var step := ScriptOf(w, a).value;
            step.Retried? || step.Marked? || step.Recovered? ==> step.url != w.execs[e].url
  {
    if a.Again? || a.Refuse? || a.Finish? {
      assert !Lapsed(w.execs[a.e]);
      assert !Rivals(w.execs[a.e], w.execs[e]);
    }
  }

  lemma OthersHold(conf: CrawlConfig, w: World, clock: int, a: Act, e: nat)
    requires Patient(conf, w, clock, a) && Exclusive(w.f) && Holders(w)
    requires e in w.execs && ((a.Again? || a.Refuse? || a.Finish?) ==> a.e != e)
    ensures Holds(FrontierAfter(w, a), w.execs[e])
  {
    if ScriptOf(w, a).Some? {
      PatientIsLeased(conf, w, clock, a);
      if !Lapsed(w.execs[e]) {
        OtherUrl(conf, w, clock, a, e);
      }
      StillHolds(w.f, ScriptOf(w, a).value, w.execs[e]);
    }
  }

  lemma TakerHolds(w: World, a: Act)
    requires Enabled(w, a) && a.TakeOn? && Exclusive(w.f)
    ensures var x := Do(w, a).execs[a.e];
            (a.key == x.url ==> Holds(Do(w, a).f, x)) && w.f.Is(x.url, Queued)
  {
    var u := ReplyOf(w.f).url;
    assert Alone(w.f, u);
    assert u in w.f.queue;
    CountIn(w.f.queue, u);
  }

  /** A call whose last script went unheard has gone to the phase of that script, and nothing else has changed. */
  lemma CloserExec(w: World, a: Act)
    requires Enabled(w, a) && (a.Again? || a.Refuse? || a.Finish?) && a.e in Do(w, a).execs
    ensures var phase := if a.Again? then Deferred else if a.Finish? then Concluded else Refused(a.status);
            Do(w, a).execs[a.e] == w.execs[a.e].(phase := phase)
  {
  }

  lemma CloserScript(w: World, a: Act)
    requires Enabled(w, a) && (a.Refuse? || a.Finish?)
    ensures FrontierAfter(w, a) == MarkUrl(w.f, w.execs[a.e].key, if a.Finish? then Done else a.status)
  {
  }

  lemma MarkFinishes(s: State, x: Exec, status: CrawlStatus)
    requires Holds(s, x) && !Lapsed(x) && Terminal(status)
    ensures x.key == x.url && FinishedBy(MarkUrl(s, x.key, status), x.worker, x.url, status)
  {
  }

  lemma CloserHolds(w: World, a: Act)
    requires Enabled(w, a) && (a.Again? || a.Refuse? || a.Finish?) && a.e in Do(w, a).execs
    requires Holds(w.f, w.execs[a.e]) && !Lapsed(w.execs[a.e])
    ensures Holds(Do(w, a).f, Do(w, a).execs[a.e])
  {
    CloserExec(w, a);
    if !a.Again? {
      DoFrontier(w, a);
      CloserScript(w, a);
      MarkFinishes(w.f, w.execs[a.e], if a.Finish? then Done else a.status);
    }
  }

  lemma PatientExclusive(conf: CrawlConfig, w: World, clock: int, a: Act)
    requires Patient(conf, w, clock, a) && Exclusive(w.f) && Holders(w)
    ensures Exclusive(Do(w, a).f)
  {
    DoFrontier(w, a);
    if ScriptOf(w, a).Some? {
      PatientIsLeased(conf, w, clock, a);
      LeasedIsSafe(conf, w.f, clock, ScriptOf(w, a).value);
      ExclusiveIffSafe(w.f, ScriptOf(w, a).value);
    }
  }

  /** The calls running after an act: those before it, one finished at most, or one just begun. A call never
      changes its worker, URL, key or try count, and closes only by its last script. */
  lemma CallsAfter(w: World, a: Act, e: nat)
    requires Enabled(w, a) && e in Do(w, a).execs
    ensures e in w.execs ==> Same(Do(w, a).execs[e], w.execs[e])
    ensures e in w.execs && !((a.Again? || a.Refuse? || a.Finish?) && a.e == e) ==>
              Stage(Do(w, a).execs[e].phase) == Stage(w.execs[e].phase)
    ensures e in w.execs && Lapsed(w.execs[e]) && !(a.Refuse? && a.e == e) ==> Lapsed(Do(w, a).execs[e])
    ensures e !in w.execs ==> a.TakeOn? && a.e == e
  {
  }

  predicate Same(x: Exec, y: Exec) {
    x.worker == y.worker && x.url == y.url && x.key == y.key && x.tries == y.tries
  }

  /** What a phase means for the claim of a call. */
  function Stage(phase: Crawl.Phase): Crawl.Phase {
    if phase.Deferred? || phase.Concluded? || phase.Refused? then phase else Crawl.Phase.Fetching
  }

  lemma StageHolds(s: State, x: Exec, y: Exec)
    requires Holds(s, x) && Same(x, y) && Stage(x.phase) == Stage(y.phase)
    ensures Holds(s, y)
  {
  }

  lemma EachHolds(conf: CrawlConfig, w: World, clock: int, a: Act, e: nat)
    requires Patient(conf, w, clock, a) && Exclusive(w.f) && Holders(w) && e in Do(w, a).execs
    ensures Holds(Do(w, a).f, Do(w, a).execs[e])
  {
    CallsAfter(w, a, e);
    DoFrontier(w, a);
    if e !in w.execs {
      TakerHolds(w, a);
    } else if (a.Again? || a.Refuse? || a.Finish?) && a.e == e {
      CloserHolds(w, a);
    } else {
      OthersHold(conf, w, clock, a, e);
      StageHolds(Do(w, a).f, w.execs[e], Do(w, a).execs[e]);
    }
  }

  lemma ClaimNotQueued(w: World, e: nat)
    requires Holders(w) && e in w.execs
    ensures !Lapsed(w.execs[e]) ==> !w.f.Is(w.execs[e].url, Queued)
  {
    assert Holds(w.f, w.execs[e]);
  }

  lemma CallsApart(w: World, a: Act, e: nat, e': nat)
    requires Enabled(w, a) && (a.Refuse? ==> !Lapsed(w.execs[a.e])) && Exclusive(w.f) && Holders(w)
    requires e in Do(w, a).execs && e' in Do(w, a).execs && Rivals(Do(w, a).execs[e], Do(w, a).execs[e'])
    ensures e == e'
  {
    CallsAfter(w, a, e);
    CallsAfter(w, a, e');
    if e in w.execs && e' in w.execs {
      assert Rivals(w.execs[e], w.execs[e']);
    } else {
      if e in w.execs { ClaimNotQueued(w, e); }
      if e' in w.execs { ClaimNotQueued(w, e'); }
      TakerHolds(w, a);
    }
  }

  lemma PatientKeeps(conf: CrawlConfig, w: World, clock: int, a: Act)
    requires Patient(conf, w, clock, a) && Exclusive(w.f) && Holders(w)
    ensures Exclusive(Do(w, a).f) && Holders(Do(w, a))
  {
    var r := Do(w, a);
    PatientExclusive(conf, w, clock, a);
    forall e | e in r.execs ensures Holds(r.f, r.execs[e]) {
      EachHolds(conf, w, clock, a, e);
    }
    forall e, e' | e in r.execs && e' in r.execs && Rivals(r.execs[e], r.execs[e']) ensures e == e' {
      CallsApart(w, a, e, e');
    }
  }

  lemma {:induction false} PatientScripts(conf: CrawlConfig, w: World, clock: int, acts: seq<Act>)
    requires PatientRun(conf, w, clock, acts) && Exclusive(w.f) && Holders(w)
    ensures CrawlRun(w, acts)
    ensures LeasedRun(conf, w.f, clock, Scripts(w, acts))
    ensures Exclusive(CrawlEnd(w, acts).f) && Holders(CrawlEnd(w, acts))
    decreases |acts|
  {
    if acts != [] {
      var a, w1 := acts[0], Do(w, acts[0]);
      PatientKeeps(conf, w, clock, a);
      DoFrontier(w, a);
      PatientScripts(conf, w1, ClockAfter(w, clock, a), acts[1..]);
      match ScriptOf(w, a)
      case None =>
        assert Scripts(w, acts) == Scripts(w1, acts[1..]);
      case Some(step) =>
        PatientIsLeased(conf, w, clock, a);
        assert Scripts(w, acts)[1..] == Scripts(w1, acts[1..]);
    }
  }

  /** So a crawl that meets the assumptions of Patient enjoys everything proved of leased runs. In every state each
      URL is in exactly one place, and each call with a claim is the only one on its URL and its recorded holder. */
  lemma PatientCrawl(conf: CrawlConfig, acts: seq<Act>)
    requires PatientRun(conf, START, 0, acts)
    ensures CrawlRun(START, acts)
    ensures var w, steps := CrawlEnd(START, acts), Scripts(START, acts);
            && LeasedRun(conf, INIT, 0, steps) && Run(INIT, steps) == w.f
            && Exclusive(w.f) && Holders(w)
  {
    InitExclusive();
    PatientScripts(conf, START, 0, acts);
    CrawlScans(START, {}, acts);
  }

  /** The number of take-ons so far is bounded by the tracked URLs, the try limit and the recoveries. */
  lemma PatientTakeOns(conf: CrawlConfig, acts: seq<Act>, us: seq<Url>)
    requires PatientRun(conf, START, 0, acts) && conf.tryLim >= 0 && Distinct(us)
    ensures CrawlRun(START, acts)
    ensures (forall u :: u in CrawlEnd(START, acts).f.info ==> u in us) ==>
              var steps := Scripts(START, acts);
              |AllDepartures(INIT, steps)| <= |us| * (conf.tryLim + 1) + Recoveries(steps)
  {
    PatientCrawl(conf, acts);
    var steps := Scripts(START, acts);
    PushesTracked(INIT, steps);
    if forall u :: u in CrawlEnd(START, acts).f.info ==> u in us {
      CrawlTerminates(conf, steps, us);
    }
  }

  lemma {:induction false} TrackedStays(s: State, steps: seq<Step>, u: Url)
    requires u in s.info
    ensures u in Run(s, steps).info
    decreases |steps|
  {
    if steps != [] {
      EntriesStay(s, steps[0], u);
      TrackedStays(Apply(s, steps[0]), steps[1..], u);
    }
  }

  lemma {:induction false} PushesTracked(s: State, steps: seq<Step>)
    ensures forall i :: 0 <= i < |steps| && steps[i].Push? ==> steps[i].url in Run(s, steps).info
    decreases |steps|
  {
    if steps != [] {
      var s1 := Apply(s, steps[0]);
      PushesTracked(s1, steps[1..]);
      if steps[0].Push? {
        TrackedStays(s1, steps[1..], steps[0].url);
      }
      forall i | 0 <= i < |steps| && steps[i].Push? ensures steps[i].url in Run(s, steps).info {
        if i > 0 { assert steps[i] == steps[1..][i - 1]; }
      }
    }
  }

  // ----- a lost reply -----

  /** What the assumptions on calls guard against, exactly: from an exclusive frontier, the last script of a call
      leaves it exclusive if and only if the URL with its key does not wait, in the main list or, unless the script
      is a retry, in the retry set. A call with a claim never meets a waiting URL; one that has lapsed, or has
      another key, may. */
  lemma CompletionExclusiveIff(w: World, a: Act)
    requires Enabled(w, a) && Exclusive(w.f) && (a.Again? || a.Refuse? || a.Finish?)
    ensures var u := w.execs[a.e].key;
            Exclusive(Do(w, a).f) <==> !w.f.Is(u, Queued) && (a.Again? || !w.f.Is(u, Retry))
    ensures !Lapsed(w.execs[a.e]) && Holds(w.f, w.execs[a.e]) ==> Exclusive(Do(w, a).f)
  {
    DoFrontier(w, a);
    ExclusiveIffSafe(w.f, ScriptOf(w, a).value);
  }

  /** RetryURL takes effect but its reply is lost, so the call gives the URL up. */
  function LostReply(u: Url, w: WorkerId): seq<Act> {
    [Seed(0, u), TakeOn(0, 0, w, u), Again(0, 0, 5_000, false), Refuse(0, 1, GiveUp, true)]
  }

  /** A world in which the only call has taken on u as its first try. */
  ghost predicate JustTaken(v: World, u: Url, w: WorkerId) {
    && v.execs == map[0 := Exec(w, u, u, 0, NO_PARENT, Crawl.Phase.Fetching)]
    && v.f.Is(u, Processing) && v.f.info[u].workerId == w && v.f.queue == [] && v.f.retry == map[]
  }

  lemma SeedAndTake(u: Url, w: WorkerId)
    ensures var v := Do(START, Seed(0, u));
            Enabled(v, TakeOn(0, 0, w, u)) && v.execs == map[] && JustTaken(Do(v, TakeOn(0, 0, w, u)), u, w)
  {
    var v := Do(START, Seed(0, u));
    assert v.f == PushUrl(INIT, u, NO_PARENT) && v.f.queue == [u];
    assert ReplyOf(v.f) == Taken(u, 0, NO_PARENT);
  }

  lemma RetryUnheard(v: World, u: Url, w: WorkerId)
    requires JustTaken(v, u, w)
    ensures var r := Do(v, Again(0, 0, 5_000, false));
            && Patient(DEFAULTS, v, 0, Again(0, 0, 5_000, false))
            && r.f.Is(u, Retry) && r.f.queue == [] && r.f.retry == map[u := 5_000]
            && r.execs == map[0 := Exec(w, u, u, 0, NO_PARENT, Deferred)]
  {
    assert CalcRetryTime(0, DEFAULTS, 0) == Some(5_000_000_000) by {
      assert Pow2(0) == 1;
    }
  }

  lemma GivenUpWaiting(v: World, u: Url, w: WorkerId)
    requires v.f.Is(u, Retry) && v.f.queue == [] && v.f.retry == map[u := 5_000]
    requires v.execs == map[0 := Exec(w, u, u, 0, NO_PARENT, Deferred)]
    ensures var a, requeue := Refuse(0, 1, GiveUp, true), Requeue(5_000_000_000, [u]);
            && Enabled(v, a) && var r := Do(v, a);
               && r.f.Is(u, GiveUp) && r.f.retry == map[u := 5_000] && !Exclusive(r.f)
               && Enabled(r, requeue) && Do(r, requeue).f.Is(u, Queued) && u in Do(r, requeue).f.queue
  {
    var r := Do(v, Refuse(0, 1, GiveUp, true));
    assert Alone(r.f, u) ==> false;
    assert IsDue(r.f.retry, 5_000, [u]);
    assert Reverse([u])[0] == u;
  }

  /** No reaper is needed for this failure: after LostReply the URL counts as given up and still waits for its retry,
      and when that falls due it is crawled again. Every act but the last is patient. */
  lemma LostReplyRevives(u: Url, w: WorkerId)
    ensures CrawlRun(START, LostReply(u, w)) && PatientRun(DEFAULTS, START, 0, LostReply(u, w)[..3])
    ensures var v, requeue := CrawlEnd(START, LostReply(u, w)), Requeue(5_000_000_000, [u]);
            && v.f.Is(u, GiveUp) && u in v.f.retry && !Exclusive(v.f)
            && Enabled(v, requeue) && Do(v, requeue).f.Is(u, Queued) && u in Do(v, requeue).f.queue
  {
    var acts := LostReply(u, w);
    var w1 := Do(START, acts[0]);
    SeedAndTake(u, w);
    var w2 := Do(w1, acts[1]);
    RetryUnheard(w2, u, w);
    var w3 := Do(w2, acts[2]);
    GivenUpWaiting(w3, u, w);
    FourActs(START, acts, w1, w2, w3, Do(w3, acts[3]));
  }

  lemma FourActs(w0: World, acts: seq<Act>, w1: World, w2: World, w3: World, w4: World)
    requires |acts| == 4 && Patient(DEFAULTS, w0, 0, acts[0]) && w1 == Do(w0, acts[0])
    requires Patient(DEFAULTS, w1, ClockAfter(w0, 0, acts[0]), acts[1]) && w2 == Do(w1, acts[1])
    requires Patient(DEFAULTS, w2, ClockAfter(w1, ClockAfter(w0, 0, acts[0]), acts[1]), acts[2])
    requires w3 == Do(w2, acts[2]) && Enabled(w3, acts[3]) && w4 == Do(w3, acts[3])
    ensures CrawlRun(w0, acts) && CrawlEnd(w0, acts) == w4 && PatientRun(DEFAULTS, w0, 0, acts[..3])
  {
    assert acts[1..][1..] == acts[2..] && acts[2..][1..] == acts[3..] && acts[3..][1..] == [];
    assert CrawlRun(w3, acts[3..]) && CrawlEnd(w3, acts[3..]) == w4;
    assert CrawlRun(w2, acts[2..]) && CrawlEnd(w2, acts[2..]) == w4;
    assert CrawlRun(w1, acts[1..]) && CrawlEnd(w1, acts[1..]) == w4;
    var p := acts[..3];
    assert p[1..][1..] == p[2..] && p[2..][1..] == [];
    var c1 := ClockAfter(w0, 0, acts[0]);
    var c2 := ClockAfter(w1, c1, acts[1]);
    assert PatientRun(DEFAULTS, w2, c2, p[2..]);
    assert PatientRun(DEFAULTS, w1, c1, p[1..]);
  }
}
