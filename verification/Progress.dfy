/** Leased runs make progress: tries are counted and bounded, retries are spaced out, and the number of
    take-ons has an explicit bound. */
module Progress {
  import opened Basics
  import opened Backoff
  import opened FrontierState
  import opened FrontierStore
  import opened FrontierRuns
  import opened Leases

  // ----- splitting runs -----

  function EndClock(clock: int, steps: seq<Step>): int {
    if steps == [] then clock else steps[|steps| - 1].at
  }

  lemma {:induction false} RunSplit(conf: CrawlConfig, s: State, clock: int, a: seq<Step>, b: seq<Step>)
    ensures Run(s, a + b) == Run(Run(s, a), b)
    ensures LeasedRun(conf, s, clock, a + b) <==>
            LeasedRun(conf, s, clock, a) && LeasedRun(conf, Run(s, a), EndClock(clock, a), b)
    decreases |a|
  {
    if a == [] {
      assert a + b == b;
    } else {
      assert (a + b)[1..] == a[1..] + b;
      RunSplit(conf, Apply(s, a[0]), a[0].at, a[1..], b);
      assert EndClock(a[0].at, a[1..]) == EndClock(clock, a);
    }
  }

  // ----- tries -----

  function TriesOf(s: State, u: Url): int {
    if u in s.info then s.info[u].tries else 0
  }

  function RetriesOf(steps: seq<Step>, u: Url): nat {
    if steps == [] then 0
    else (if steps[0].Retried? && steps[0].url == u then 1 else 0) + RetriesOf(steps[1..], u)
  }

  lemma StepTries(conf: CrawlConfig, s: State, clock: int, step: Step, u: Url)
    requires Exclusive(s) && Leased(conf, s, clock, step)
    ensures TriesOf(Apply(s, step), u) == TriesOf(s, u) + RetriesOf([step], u)
  {
    assert Alone(s, u);
  }

  /** The stored try count is the number of retries the URL has had. */
  lemma {:induction false} TriesCountRetries(conf: CrawlConfig, s: State, clock: int, steps: seq<Step>, u: Url)
    requires Exclusive(s) && LeasedRun(conf, s, clock, steps)
    ensures TriesOf(Run(s, steps), u) == TriesOf(s, u) + RetriesOf(steps, u)
    decreases |steps|
  {
    if steps != [] {
      StepTries(conf, s, clock, steps[0], u);
      LeasedIsSafe(conf, s, clock, steps[0]);
      ExclusiveIffSafe(s, steps[0]);
      TriesCountRetries(conf, Apply(s, steps[0]), steps[0].at, steps[1..], u);
    }
  }

  ghost predicate WithinLimit(conf: CrawlConfig, s: State) {
    forall u :: u in s.info ==> 0 <= s.info[u].tries <= conf.tryLim
  }

  lemma StepWithinLimit(conf: CrawlConfig, s: State, clock: int, step: Step)
    requires Exclusive(s) && Leased(conf, s, clock, step) && WithinLimit(conf, s) && conf.tryLim >= 0
    ensures WithinLimit(conf, Apply(s, step))
  {
    forall u | u in Apply(s, step).info ensures 0 <= Apply(s, step).info[u].tries <= conf.tryLim {
      StepTries(conf, s, clock, step, u);
    }
  }

  // ----- spacing -----

  /** Delays that fit a duration: the hypothesis under which backoff is the intended one. */
  predicate Sane(conf: CrawlConfig) {
    0 <= conf.tryLim <= 62 && conf.tryBase >= 0 && conf.tryBase * Pow2(conf.tryLim) <= INT64_MAX
  }

  lemma ProductGrows(b: nat, p: nat, q: nat)
    requires p <= q
    ensures 0 <= b * p <= b * q
  {
  }

  lemma SaneDelay(conf: CrawlConfig, tries: nat)
    requires Sane(conf) && tries <= conf.tryLim
    ensures Delay(conf.tryBase, tries) == conf.tryBase * Pow2(tries) >= 0
  {
    Pow2Grows(tries, conf.tryLim);
    ProductGrows(conf.tryBase, Pow2(tries), Pow2(conf.tryLim));
    DelayExact(conf.tryBase, tries);
  }

  lemma DefaultsSane()
    ensures Sane(DEFAULTS)
  {
    assert Pow2(5) == 32;
  }

  /** A URL that is waiting to be taken on or being worked on has a retry time in the past. */
  ghost predicate Punctual(s: State, clock: int) {
    forall u :: s.Is(u, Queued) || s.Is(u, Processing) ==> s.info[u].retryAt <= Milli(clock)
  }

  lemma PopPunctual(s: State, w: WorkerId, now: int, t: int, u: Url)
    requires PopUrl(s, w, now).Is(u, Queued) || PopUrl(s, w, now).Is(u, Processing)
    requires Alone(s, u) && (s.Is(u, Queued) || s.Is(u, Processing) ==> s.info[u].retryAt <= t)
    ensures PopUrl(s, w, now).info[u].retryAt <= t
  {
    CountIn(s.queue, u);
  }

  lemma EnqueuePunctual(s: State, now: int, due: seq<Url>, t: int, u: Url)
    requires Alone(s, u) && IsDue(s.retry, now, due) && t <= now
    requires EnqueueDue(s, now, due).Is(u, Queued) || EnqueueDue(s, now, due).Is(u, Processing)
    requires s.Is(u, Queued) || s.Is(u, Processing) ==> s.info[u].retryAt <= t
    ensures EnqueueDue(s, now, due).info[u].retryAt <= now
  {
  }

  /** The other scripts leave the retry time of a URL that is, or comes to be, waiting or at work. */
  lemma OthersPunctual(conf: CrawlConfig, s: State, clock: int, step: Step, u: Url)
    requires Leased(conf, s, clock, step) && Alone(s, u) && !step.Pop? && !step.Enqueued?
    requires Apply(s, step).Is(u, Queued) || Apply(s, step).Is(u, Processing)
    ensures u in s.info ==> s.Is(u, Queued) || s.Is(u, Processing)
    ensures Apply(s, step).info[u].retryAt == if u in s.info then s.info[u].retryAt else -1
  {
    match step
    case Push(_, v, _) =>
    case Retried(_, _, v, _) =>
    case Marked(_, _, v, _) =>
    case Recovered(_, v) =>
  }

  lemma StepPunctualAt(conf: CrawlConfig, s: State, clock: int, step: Step, u: Url)
    requires Exclusive(s) && Leased(conf, s, clock, step) && Punctual(s, clock) && clock >= 0
    requires Apply(s, step).Is(u, Queued) || Apply(s, step).Is(u, Processing)
    ensures Apply(s, step).info[u].retryAt <= Milli(step.at)
  {
    assert Alone(s, u);
    assert Milli(clock) <= Milli(step.at) && Milli(step.at) >= 0;
    assert s.Is(u, Queued) || s.Is(u, Processing) ==> s.info[u].retryAt <= Milli(clock);
    if step.Pop? {
      PopPunctual(s, step.worker, Milli(step.at), Milli(clock), u);
    } else if step.Enqueued? {
      EnqueuePunctual(s, Milli(step.at), step.due, Milli(clock), u);
    } else {
      OthersPunctual(conf, s, clock, step, u);
    }
  }

  lemma StepPunctual(conf: CrawlConfig, s: State, clock: int, step: Step)
    requires Exclusive(s) && Leased(conf, s, clock, step) && Punctual(s, clock) && clock >= 0
    ensures Punctual(Apply(s, step), step.at)
  {
    var r := Apply(s, step);
    forall u | r.Is(u, Queued) || r.Is(u, Processing) ensures r.info[u].retryAt <= Milli(step.at) {
      StepPunctualAt(conf, s, clock, step, u);
    }
  }

  /** The retry time of a URL never moves back. */
  lemma StepRetryAtGrows(conf: CrawlConfig, s: State, clock: int, step: Step, u: Url)
    requires Exclusive(s) && Leased(conf, s, clock, step) && Punctual(s, clock)
    requires Sane(conf) && WithinLimit(conf, s) && u in s.info
    ensures u in Apply(s, step).info && s.info[u].retryAt <= Apply(s, step).info[u].retryAt
  {
    if step.Retried? && step.url == u {
      SaneDelay(conf, s.info[u].tries);
    }
  }

  ghost predicate Timely(conf: CrawlConfig, s: State, clock: int) {
    Exclusive(s) && WithinLimit(conf, s) && Punctual(s, clock) && clock >= 0
  }

  lemma StepTimely(conf: CrawlConfig, s: State, clock: int, step: Step)
    requires Timely(conf, s, clock) && Leased(conf, s, clock, step) && conf.tryLim >= 0
    ensures Timely(conf, Apply(s, step), step.at)
  {
    LeasedIsSafe(conf, s, clock, step);
    ExclusiveIffSafe(s, step);
    StepWithinLimit(conf, s, clock, step);
    StepPunctual(conf, s, clock, step);
  }

  lemma {:induction false} RunTimely(conf: CrawlConfig, s: State, clock: int, steps: seq<Step>)
    requires Timely(conf, s, clock) && LeasedRun(conf, s, clock, steps) && conf.tryLim >= 0
    ensures Timely(conf, Run(s, steps), EndClock(clock, steps))
    decreases |steps|
  {
    if steps != [] {
      StepTimely(conf, s, clock, steps[0]);
      RunTimely(conf, Apply(s, steps[0]), steps[0].at, steps[1..]);
      assert EndClock(steps[0].at, steps[1..]) == EndClock(clock, steps);
    }
  }

  lemma {:induction false} RetryAtGrows(conf: CrawlConfig, s: State, clock: int, steps: seq<Step>, u: Url)
    requires Timely(conf, s, clock) && LeasedRun(conf, s, clock, steps) && Sane(conf) && u in s.info
    ensures u in Run(s, steps).info && s.info[u].retryAt <= Run(s, steps).info[u].retryAt
    decreases |steps|
  {
    if steps != [] {
      StepTimely(conf, s, clock, steps[0]);
      StepRetryAtGrows(conf, s, clock, steps[0], u);
      RetryAtGrows(conf, Apply(s, steps[0]), steps[0].at, steps[1..], u);
    }
  }

  /** Tries never exceed the limit, in any leased run from the empty frontier. */
  lemma TryLimitHolds(conf: CrawlConfig, steps: seq<Step>, u: Url)
    requires LeasedRun(conf, INIT, 0, steps) && conf.tryLim >= 0
    ensures TriesOf(Run(INIT, steps), u) == RetriesOf(steps, u) <= conf.tryLim
  {
    InitExclusive();
    TriesCountRetries(conf, INIT, 0, steps, u);
    RunTimely(conf, INIT, 0, steps);
  }

  /** A leased run around two of its steps. */
  lemma RunAround(conf: CrawlConfig, before: seq<Step>, a: Step, between: seq<Step>, b: Step)
    requires LeasedRun(conf, INIT, 0, before + [a] + between + [b])
    ensures var s0 := Run(INIT, before); var s1 := Apply(s0, a); var s2 := Run(s1, between);
            && LeasedRun(conf, INIT, 0, before) && Leased(conf, s0, EndClock(0, before), a)
            && LeasedRun(conf, s1, a.at, between) && Run(INIT, before + [a] + between) == s2
            && Leased(conf, s2, EndClock(a.at, between), b)
  {
    RunSplit(conf, INIT, 0, before + [a] + between, [b]);
    RunSplit(conf, INIT, 0, before + [a], between);
    RunSplit(conf, INIT, 0, before, [a]);
    assert [a][1..] == [] && Run(Run(INIT, before), [a]) == Apply(Run(INIT, before), a);
    assert EndClock(0, before + [a]) == a.at;
    assert EndClock(a.at, between) == EndClock(0, before + [a] + between);
  }

  lemma RetryScheduled(conf: CrawlConfig, s: State, clock: int, retried: Step)
    requires Sane(conf) && Timely(conf, s, clock) && Leased(conf, s, clock, retried) && retried.Retried?
    ensures retried.url in s.info && s.info[retried.url].tries >= 0 && retried.url in Apply(s, retried).info
    ensures Apply(s, retried).info[retried.url].retryAt ==
            Milli(retried.at + conf.tryBase * Pow2(s.info[retried.url].tries))
  {
    SaneDelay(conf, s.info[retried.url].tries);
  }

  lemma OldestPunctual(s: State, clock: int, u: Url)
    requires Exclusive(s) && Punctual(s, clock) && Oldest(s) == Some(u)
    ensures u in s.info && s.info[u].retryAt <= Milli(clock)
  {
    assert Alone(s, u);
    CountIn(s.queue, u);
  }

  /** Between the retry of a URL that has had k tries and its next take-on, whenever that is, at least
      base * 2^k passes, to the millisecond. */
  lemma RetrySpacing(conf: CrawlConfig, before: seq<Step>, retried: Step, between: seq<Step>, pop: Step)
    requires Sane(conf) && retried.Retried? && pop.Pop?
    requires LeasedRun(conf, INIT, 0, before + [retried] + between + [pop])
    requires Oldest(Run(INIT, before + [retried] + between)) == Some(retried.url)
    ensures Milli(pop.at) >= Milli(retried.at + conf.tryBase * Pow2(RetriesOf(before, retried.url)))
  {
    var u := retried.url;
    var s0 := Run(INIT, before);
    var s1 := Apply(s0, retried);
    var s2 := Run(s1, between);
    InitExclusive();
    RunAround(conf, before, retried, between, pop);
    RunTimely(conf, INIT, 0, before);
    TriesCountRetries(conf, INIT, 0, before, u);
    RetryScheduled(conf, s0, EndClock(0, before), retried);
    StepTimely(conf, s0, EndClock(0, before), retried);
    RunTimely(conf, s1, retried.at, between);
    RetryAtGrows(conf, s1, retried.at, between, u);
    OldestPunctual(s2, EndClock(retried.at, between), u);
    assert Milli(EndClock(retried.at, between)) <= Milli(pop.at);
  }

  /** With the configured limit and base, no exception: a URL that has had k retries waits at least 5 * 2^k
      seconds for its next take-on, and k is at most four. */
  lemma DefaultSpacing(before: seq<Step>, retried: Step, between: seq<Step>, pop: Step)
    requires retried.Retried? && pop.Pop?
    requires LeasedRun(DEFAULTS, INIT, 0, before + [retried] + between + [pop])
    requires Oldest(Run(INIT, before + [retried] + between)) == Some(retried.url)
    ensures var k := RetriesOf(before, retried.url);
            k <= 4 && Milli(pop.at) >= Milli(retried.at) + 5_000 * Pow2(k)
  {
    var k := RetriesOf(before, retried.url);
    DefaultsSane();
    RetrySpacing(DEFAULTS, before, retried, between, pop);
    RunSplit(DEFAULTS, INIT, 0, before + [retried] + between, [pop]);
    RunSplit(DEFAULTS, INIT, 0, before + [retried], between);
    RetriesSnoc(before, retried);
    TryLimitHolds(DEFAULTS, before + [retried], retried.url);
    WholeSeconds(retried.at, Pow2(k));
  }

  lemma {:induction false} RetriesSnoc(steps: seq<Step>, retried: Step)
    requires retried.Retried?
    ensures RetriesOf(steps + [retried], retried.url) == RetriesOf(steps, retried.url) + 1
  {
    if steps == [] {
      assert steps + [retried] == [retried] && [retried][1..] == [];
    } else {
      assert (steps + [retried])[1..] == steps[1..] + [retried];
      RetriesSnoc(steps[1..], retried);
    }
  }

  lemma WholeSeconds(t: int, p: nat)
    ensures Milli(t + DEFAULTS.tryBase * p) == Milli(t) + 5_000 * p
  {
  }

  // ----- termination -----

  /** How many script calls can still change u. */
  function StepRank(s: State, u: Url, lim: int): int {
    if u !in s.info then 3 * lim + 4
    else
      var left := 3 * (lim - s.info[u].tries);
      match s.info[u].status
      case Retry => left + 4
      case Queued => left + 3
      case Processing => left + 2
      case Done => 1
      case _ => 0
  }

  /** How often u can still be taken on. */
  function TakeRank(s: State, u: Url, lim: int): int {
    if u !in s.info then lim + 1
    else
      var left := lim - s.info[u].tries;
      match s.info[u].status
      case Retry => left + 1
      case Queued => left + 1
      case Processing => left
      case _ => 0
  }

  ghost function StepRanks(s: State, lim: int): Url -> int { u => StepRank(s, u, lim) }

  ghost function TakeRanks(s: State, lim: int): Url -> int { u => TakeRank(s, u, lim) }

  /** The life cycle of a URL: untracked, Queued, Processing, and from there finished or, with one try more,
      Retry and Queued again; Done may still turn into GiveUp; the reaper alone leads from Processing straight
      back to Queued. */
  predicate LivesOn(s: State, r: State, u: Url, recovered: bool) {
    if u !in s.info then u in r.info ==> r.Is(u, Queued) && r.info[u].tries == 0
    else
      && u in r.info
      && (|| (r.info[u].status == s.info[u].status && r.info[u].tries == s.info[u].tries)
          || (s.Is(u, Queued) && r.Is(u, Processing) && r.info[u].tries == s.info[u].tries)
          || (s.Is(u, Processing) && Terminal(r.info[u].status))
          || (s.Is(u, Done) && r.Is(u, GiveUp))
          || (s.Is(u, Processing) && r.Is(u, Retry) && r.info[u].tries == s.info[u].tries + 1)
          || (s.Is(u, Retry) && r.Is(u, Queued) && r.info[u].tries == s.info[u].tries)
          || (recovered && s.Is(u, Processing) && r.Is(u, Queued) && r.info[u].tries == s.info[u].tries))
  }

  lemma LifeCycle(conf: CrawlConfig, s: State, clock: int, step: Step, u: Url)
    requires Exclusive(s) && Leased(conf, s, clock, step)
    ensures LivesOn(s, Apply(s, step), u, step.Recovered?)
  {
    assert Alone(s, u);
    CountIn(s.queue, u);
  }

  lemma RanksFall(conf: CrawlConfig, s: State, clock: int, step: Step, u: Url)
    requires Exclusive(s) && WithinLimit(conf, s) && Leased(conf, s, clock, step) && !step.Recovered?
    requires conf.tryLim >= 0
    ensures StepRank(Apply(s, step), u, conf.tryLim) <= StepRank(s, u, conf.tryLim)
    ensures TakeRank(Apply(s, step), u, conf.tryLim) <= TakeRank(s, u, conf.tryLim)
  {
    LifeCycle(conf, s, clock, step, u);
    StepWithinLimit(conf, s, clock, step);
    LivingRanks(s, Apply(s, step), u, conf.tryLim);
  }

  lemma LivingRanks(s: State, r: State, u: Url, lim: int)
    requires LivesOn(s, r, u, false) && lim >= 0
    requires u in s.info ==> 0 <= s.info[u].tries <= lim
    requires u in r.info ==> 0 <= r.info[u].tries <= lim
    ensures StepRank(r, u, lim) <= StepRank(s, u, lim) && TakeRank(r, u, lim) <= TakeRank(s, u, lim)
  {
  }

  lemma RecoveryCostsOne(conf: CrawlConfig, s: State, clock: int, step: Step, u: Url)
    requires Exclusive(s) && Leased(conf, s, clock, step) && step.Recovered?
    ensures var bump := if u == step.url then 1 else 0;
            && StepRank(Apply(s, step), u, conf.tryLim) == StepRank(s, u, conf.tryLim) + bump
            && TakeRank(Apply(s, step), u, conf.tryLim) == TakeRank(s, u, conf.tryLim) + bump
  {
    assert Alone(s, u);
  }

  /** Nothing has changed that a script could notice: a missing list is an empty one. */
  ghost predicate Alike(s: State, r: State) {
    && s.info == r.info && s.queue == r.queue && s.index == r.index && s.retry == r.retry
    && forall w :: s.ListOf(w) == r.ListOf(w)
  }

  lemma {:induction false} RemoveAbsent(xs: seq<Url>, x: Url)
    requires multiset(xs)[x] == 0
    ensures RemoveFirst(xs, x) == xs
  {
    if xs != [] {
      assert xs == [xs[0]] + xs[1..];
      RemoveAbsent(xs[1..], x);
    }
  }

  /** Marking a finished URL once more with the same status changes nothing. */
  lemma MarkedAgain(s: State, w: WorkerId, u: Url, status: CrawlStatus)
    requires Exclusive(s) && FinishedBy(s, w, u, status)
    ensures Alike(s, MarkUrl(s, u, status))
  {
    assert Alone(s, u);
    assert multiset(s.ListOf(w))[u] == if Held(s, w, u) then 1 else 0;
    RemoveAbsent(s.ListOf(w), u);
    assert s.info[u := s.info[u].(status := status)] == s.info;
  }

  /** A URL whose rank falls when the step changes anything that can be noticed. */
  lemma EffectiveFalls(conf: CrawlConfig, s: State, clock: int, step: Step) returns (u: Url)
    requires Exclusive(s) && WithinLimit(conf, s) && Leased(conf, s, clock, step) && !step.Recovered?
    requires conf.tryLim >= 0 && !Alike(s, Apply(s, step))
    ensures step.Push? ==> u == step.url
    ensures !step.Push? ==> u in s.info
    ensures StepRank(Apply(s, step), u, conf.tryLim) < StepRank(s, u, conf.tryLim)
    ensures step.Pop? ==> TakeRank(Apply(s, step), u, conf.tryLim) < TakeRank(s, u, conf.tryLim)
  {
    match step
    case Pop(_, _) =>
      u := s.queue[|s.queue| - 1];
      assert Alone(s, u);
      CountIn(s.queue, u);
    case Enqueued(at, due) =>
      if due == [] {
        NothingDue(s, Milli(at));
        assert false;
      }
      u := due[0];
      assert u in due;
      assert Alone(s, u);
    case Push(_, v, _) => u := v;
    case Retried(_, _, v, _) => u := v;
    case Marked(_, w, v, status) =>
      u := v;
      if FinishedBy(s, w, v, status) {
        MarkedAgain(s, w, v, status);
        assert false;
      }
    case Recovered(_, v) => u := v;
  }

  function Recoveries(steps: seq<Step>): nat {
    if steps == [] then 0 else (if steps[0].Recovered? then 1 else 0) + Recoveries(steps[1..])
  }

  ghost function Effective(s: State, steps: seq<Step>): nat
    decreases |steps|
  {
    if steps == [] then 0
    else
      var r := Apply(s, steps[0]);
      (if !steps[0].Recovered? && !Alike(s, r) then 1 else 0) + Effective(r, steps[1..])
  }

  ghost predicate Within(us: seq<Url>, steps: seq<Step>) {
    forall i :: 0 <= i < |steps| && steps[i].Push? ==> steps[i].url in us
  }

  lemma RecoveryPotential(conf: CrawlConfig, s: State, clock: int, step: Step, us: seq<Url>)
    requires Exclusive(s) && Leased(conf, s, clock, step) && step.Recovered?
    requires Distinct(us) && (forall u :: u in s.info ==> u in us)
    ensures var r, lim := Apply(s, step), conf.tryLim;
            && Sum(us, StepRanks(r, lim)) == Sum(us, StepRanks(s, lim)) + 1
            && Sum(us, TakeRanks(r, lim)) == Sum(us, TakeRanks(s, lim)) + 1
  {
    var r, lim := Apply(s, step), conf.tryLim;
    assert Alone(s, step.url);
    forall u ensures StepRanks(r, lim)(u) == StepRanks(s, lim)(u) + (if u == step.url then 1 else 0)
             ensures TakeRanks(r, lim)(u) == TakeRanks(s, lim)(u) + (if u == step.url then 1 else 0)
    {
      RecoveryCostsOne(conf, s, clock, step, u);
    }
    SumDiffersAt(us, StepRanks(s, lim), StepRanks(r, lim), step.url);
    SumDiffersAt(us, TakeRanks(s, lim), TakeRanks(r, lim), step.url);
  }

  lemma ForwardPotential(conf: CrawlConfig, s: State, clock: int, step: Step, us: seq<Url>)
    requires Exclusive(s) && WithinLimit(conf, s) && Leased(conf, s, clock, step) && conf.tryLim >= 0
    requires !step.Recovered? && (forall u :: u in s.info ==> u in us) && (step.Push? ==> step.url in us)
    ensures var r, lim := Apply(s, step), conf.tryLim;
            && Sum(us, StepRanks(r, lim)) + (if Alike(s, r) then 0 else 1) <= Sum(us, StepRanks(s, lim))
            && Sum(us, TakeRanks(r, lim)) + (if step.Pop? && !Alike(s, r) then 1 else 0) <= Sum(us, TakeRanks(s, lim))
  {
    var r, lim := Apply(s, step), conf.tryLim;
    forall u ensures StepRanks(r, lim)(u) <= StepRanks(s, lim)(u) && TakeRanks(r, lim)(u) <= TakeRanks(s, lim)(u) {
      RanksFall(conf, s, clock, step, u);
    }
    if !Alike(s, r) {
      var u := EffectiveFalls(conf, s, clock, step);
      assert u in us && StepRanks(r, lim)(u) < StepRanks(s, lim)(u);
      assert step.Pop? ==> TakeRanks(r, lim)(u) < TakeRanks(s, lim)(u);
    }
    SumBounded(us, StepRanks(r, lim), StepRanks(s, lim));
    SumBounded(us, TakeRanks(r, lim), TakeRanks(s, lim));
  }

  lemma DeparturesAre(s: State, step: Step)
    ensures |Departures(s, step)| == if step.Pop? && !Alike(s, Apply(s, step)) then 1 else 0
  {
    if step.Pop? && s.queue != [] {
      assert |PopUrl(s, step.worker, Milli(step.at)).queue| == |s.queue| - 1;
    }
  }

  lemma StepPotential(conf: CrawlConfig, s: State, clock: int, step: Step, us: seq<Url>)
    requires Exclusive(s) && WithinLimit(conf, s) && Leased(conf, s, clock, step) && conf.tryLim >= 0
    requires Distinct(us) && (forall u :: u in s.info ==> u in us) && (step.Push? ==> step.url in us)
    ensures var r, lim := Apply(s, step), conf.tryLim;
            && Effective(s, [step]) + Sum(us, StepRanks(r, lim)) <= Sum(us, StepRanks(s, lim)) + Recoveries([step])
            && |Departures(s, step)| + Sum(us, TakeRanks(r, lim)) <= Sum(us, TakeRanks(s, lim)) + Recoveries([step])
  {
    assert [step][1..] == [];
    DeparturesAre(s, step);
    if step.Recovered? {
      RecoveryPotential(conf, s, clock, step, us);
    } else {
      ForwardPotential(conf, s, clock, step, us);
    }
  }

  lemma {:induction false} RunPotential(conf: CrawlConfig, s: State, clock: int, steps: seq<Step>, us: seq<Url>)
    requires Exclusive(s) && WithinLimit(conf, s) && LeasedRun(conf, s, clock, steps) && conf.tryLim >= 0
    requires Distinct(us) && (forall u :: u in s.info ==> u in us) && Within(us, steps)
    ensures var r, lim := Run(s, steps), conf.tryLim;
            && Effective(s, steps) + Sum(us, StepRanks(r, lim)) <= Sum(us, StepRanks(s, lim)) + Recoveries(steps)
            && |AllDepartures(s, steps)| + Sum(us, TakeRanks(r, lim)) <= Sum(us, TakeRanks(s, lim)) + Recoveries(steps)
    decreases |steps|
  {
    if steps != [] {
      var step, s1 := steps[0], Apply(s, steps[0]);
      StepPotential(conf, s, clock, step, us);
      LeasedIsSafe(conf, s, clock, step);
      ExclusiveIffSafe(s, step);
      StepWithinLimit(conf, s, clock, step);
      forall u | u in s1.info ensures u in us { StepTracks(conf, s, clock, step, u); }
      RunPotential(conf, s1, step.at, steps[1..], us);
      assert [step][1..] == [];
    }
  }

  lemma StepTracks(conf: CrawlConfig, s: State, clock: int, step: Step, u: Url)
    requires Exclusive(s) && Leased(conf, s, clock, step) && u in Apply(s, step).info
    ensures u in s.info || (step.Push? && u == step.url)
  {
    assert Alone(s, u);
  }

  lemma RanksStay(s: State, us: seq<Url>, lim: int)
    requires WithinLimit(CrawlConfig(lim, 0, 0), s) && lim >= 0
    ensures Sum(us, StepRanks(s, lim)) >= 0 && Sum(us, TakeRanks(s, lim)) >= 0
  {
    var zero := (u: Url) => 0;
    SumConstant(us, zero, 0);
    forall u ensures zero(u) <= StepRanks(s, lim)(u) && zero(u) <= TakeRanks(s, lim)(u) {}
    SumBounded(us, zero, StepRanks(s, lim));
    SumBounded(us, zero, TakeRanks(s, lim));
  }

  lemma InitialRanks(us: seq<Url>, lim: int)
    ensures Sum(us, StepRanks(INIT, lim)) == |us| * (3 * lim + 4)
    ensures Sum(us, TakeRanks(INIT, lim)) == |us| * (lim + 1)
  {
    SumConstant(us, StepRanks(INIT, lim), 3 * lim + 4);
    SumConstant(us, TakeRanks(INIT, lim), lim + 1);
  }

  lemma FinalRanks(conf: CrawlConfig, steps: seq<Step>, us: seq<Url>)
    requires LeasedRun(conf, INIT, 0, steps) && conf.tryLim >= 0
    ensures Sum(us, StepRanks(Run(INIT, steps), conf.tryLim)) >= 0
    ensures Sum(us, TakeRanks(Run(INIT, steps), conf.tryLim)) >= 0
  {
    InitExclusive();
    RunTimely(conf, INIT, 0, steps);
    RanksStay(Run(INIT, steps), us, conf.tryLim);
  }

  /** A crawl over n URLs with try limit L performs at most n * (L + 1) take-ons and n * (3L + 4) effective
      script calls, plus one of each for every recovery. */
  lemma CrawlTerminates(conf: CrawlConfig, steps: seq<Step>, us: seq<Url>)
    requires LeasedRun(conf, INIT, 0, steps) && conf.tryLim >= 0 && Distinct(us) && Within(us, steps)
    ensures |AllDepartures(INIT, steps)| <= |us| * (conf.tryLim + 1) + Recoveries(steps)
    ensures Effective(INIT, steps) <= |us| * (3 * conf.tryLim + 4) + Recoveries(steps)
  {
    InitExclusive();
    RunPotential(conf, INIT, 0, steps, us);
    InitialRanks(us, conf.tryLim);
    FinalRanks(conf, steps, us);
  }
}
