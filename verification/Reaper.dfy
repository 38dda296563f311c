/** One pass of the health check over the processing index, and the timing of the reaper. */
module Reaper {
  import opened Basics
  import opened Backoff
  import opened FrontierState
  import opened FrontierStore
  import opened FrontierRuns
  import opened Leases
  import opened Progress

  predicate Late(s: State, look: Look, threshold: int) {
    Expired(s, look.url, look.at, threshold)
  }

  /** The URLs that are too old when looked at, in scan order and as often as that happens. */
  function Overdue(s: State, scan: seq<Look>, threshold: int): seq<Url> {
    if scan == [] then []
    else (if Late(s, scan[0], threshold) then [scan[0].url] else []) + Overdue(s, scan[1..], threshold)
  }

  ghost predicate Tracked(s: State, scan: seq<Look>) {
    forall k :: k in scan ==> k.url in s.info
  }

  lemma {:induction false} OverdueIn(s: State, scan: seq<Look>, threshold: int, u: Url)
    ensures u in Overdue(s, scan, threshold) <==> exists k :: k in scan && k.url == u && Late(s, k, threshold)
  {
    if scan != [] {
      OverdueIn(s, scan[1..], threshold, u);
      assert forall k :: k in scan <==> k == scan[0] || k in scan[1..];
    }
  }

  /** Recovering does not renew the lease, so it does not change what is overdue. */
  lemma {:induction false} OverdueSame(s: State, r: State, scan: seq<Look>, threshold: int)
    requires Tracked(s, scan) && Tracked(r, scan)
    requires forall k :: k in scan ==> r.info[k.url].takeOnAt == s.info[k.url].takeOnAt
    ensures Overdue(r, scan, threshold) == Overdue(s, scan, threshold)
  {
    if scan != [] {
      OverdueSame(s, r, scan[1..], threshold);
    }
  }

  lemma FirstKeeps(s: State, scan: seq<Look>, threshold: int)
    requires Tracked(s, scan) && scan != []
    ensures var r := CheckUrl(s, scan[0], threshold);
            && Tracked(r, scan[1..]) && r.info.Keys == s.info.Keys
            && Overdue(r, scan[1..], threshold) == Overdue(s, scan[1..], threshold)
  {
    assert scan[0] in scan;
    forall k | k in scan[1..] ensures k in scan {}
    OverdueSame(s, CheckUrl(s, scan[0], threshold), scan[1..], threshold);
  }

  lemma OverdueStep(s: State, scan: seq<Look>, threshold: int)
    requires scan != []
    ensures var rest := Overdue(s, scan[1..], threshold);
            Overdue(s, scan, threshold) == if Late(s, scan[0], threshold) then [scan[0].url] + rest else rest
  {
  }

  lemma {:induction false} CheckedQueue(s: State, scan: seq<Look>, threshold: int)
    requires Tracked(s, scan)
    ensures Checked(s, scan, threshold).queue == Reverse(Overdue(s, scan, threshold)) + s.queue
    decreases |scan|
  {
    if scan != [] {
      var rest := Overdue(s, scan[1..], threshold);
      FirstKeeps(s, scan, threshold);
      CheckedQueue(CheckUrl(s, scan[0], threshold), scan[1..], threshold);
      OverdueStep(s, scan, threshold);
      if Late(s, scan[0], threshold) {
        ReverseCons(scan[0].url, rest, s.queue);
      }
    }
  }

  lemma {:induction false} CheckedEntries(s: State, scan: seq<Look>, threshold: int, u: Url)
    requires Tracked(s, scan)
    ensures var r, due := Checked(s, scan, threshold), Overdue(s, scan, threshold);
            && (u in r.info <==> u in s.info)
            && (u in s.info ==> r.info[u] == if u in due then s.info[u].(status := Queued) else s.info[u])
            && (u in r.index <==> u in s.index && u !in due)
            && r.retry == s.retry
    decreases |scan|
  {
    if scan != [] {
      FirstKeeps(s, scan, threshold);
      CheckedEntries(CheckUrl(s, scan[0], threshold), scan[1..], threshold, u);
    }
  }

  lemma DistinctCons(x: Url, xs: seq<Url>)
    ensures Distinct([x] + xs) <==> x !in xs && Distinct(xs)
  {
    if Distinct([x] + xs) {
      forall i, j | 0 <= i < j < |xs| ensures xs[i] != xs[j] {
        assert ([x] + xs)[i + 1] != ([x] + xs)[j + 1];
      }
      forall i | 0 <= i < |xs| ensures xs[i] != x {
        assert ([x] + xs)[0] != ([x] + xs)[i + 1];
      }
    }
  }

  lemma {:induction false} CheckedExclusive(s: State, scan: seq<Look>, threshold: int)
    requires Tracked(s, scan) && Exclusive(s)
    requires Distinct(Overdue(s, scan, threshold))
    requires forall u :: u in Overdue(s, scan, threshold) ==> u in s.index
    ensures Exclusive(Checked(s, scan, threshold))
    decreases |scan|
  {
    if scan != [] {
      var u, rest := scan[0].url, Overdue(s, scan[1..], threshold);
      FirstKeeps(s, scan, threshold);
      if Late(s, scan[0], threshold) {
        assert Overdue(s, scan, threshold) == [u] + rest;
        DistinctCons(u, rest);
        assert u in [u] + rest && Alone(s, u);
        ExclusiveIffSafe(s, Recovered(0, u));
      } else {
        assert Overdue(s, scan, threshold) == rest;
      }
      CheckedExclusive(CheckUrl(s, scan[0], threshold), scan[1..], threshold);
    }
  }

  /** No URL is looked at twice and found too old both times. */
  ghost predicate LateOnce(s: State, scan: seq<Look>, threshold: int) {
    forall i, j :: 0 <= i < j < |scan| && scan[i].url == scan[j].url ==>
      !Late(s, scan[i], threshold) || !Late(s, scan[j], threshold)
  }

  /** SSCAN may return an element more than once, and recovery does not look at the status. From an exclusive
      frontier a pass leaves it exclusive if and only if it finds no URL too old twice. The clock is read afresh
      at each look: a URL that was young at its first and is too old at its second look does no harm. */
  lemma PassExclusiveIff(s: State, scan: seq<Look>, threshold: int)
    requires Exclusive(s) && forall k :: k in scan ==> k.url in s.index
    ensures Exclusive(Checked(s, scan, threshold)) <==> LateOnce(s, scan, threshold)
  {
    var r, due := Checked(s, scan, threshold), Overdue(s, scan, threshold);
    forall k | k in scan ensures k.url in s.info { assert Alone(s, k.url); }
    forall u | u in due ensures u in s.index { OverdueIn(s, scan, threshold, u); }
    OverdueDistinct(s, scan, threshold);
    if Distinct(due) {
      CheckedExclusive(s, scan, threshold);
    } else if Exclusive(r) {
      CheckedQueue(s, scan, threshold);
      ExclusiveQueueDistinct(r, due, s.queue);
      assert false;
    }
  }

  lemma ExclusiveQueueDistinct(r: State, due: seq<Url>, queue: seq<Url>)
    requires Exclusive(r) && r.queue == Reverse(due) + queue
    ensures Distinct(due)
  {
    ReverseElems(due);
    forall u ensures multiset(due)[u] <= 1 {
      assert Alone(r, u);
      assert multiset(r.queue)[u] == multiset(Reverse(due))[u] + multiset(queue)[u];
    }
    SingletonsDistinct(due);
  }

  lemma {:induction false} OverdueDistinct(s: State, scan: seq<Look>, threshold: int)
    ensures Distinct(Overdue(s, scan, threshold)) <==> LateOnce(s, scan, threshold)
  {
    if scan != [] {
      var u, rest := scan[0].url, Overdue(s, scan[1..], threshold);
      OverdueDistinct(s, scan[1..], threshold);
      OverdueIn(s, scan[1..], threshold, u);
      LateOnceCons(s, scan, threshold);
      if Late(s, scan[0], threshold) {
        DistinctCons(u, rest);
      } else {
        assert Overdue(s, scan, threshold) == rest;
      }
    }
  }

  lemma LateOnceCons(s: State, scan: seq<Look>, threshold: int)
    requires scan != []
    ensures LateOnce(s, scan, threshold) <==>
              && LateOnce(s, scan[1..], threshold)
              && (Late(s, scan[0], threshold) ==>
                    !exists k :: k in scan[1..] && k.url == scan[0].url && Late(s, k, threshold))
  {
    var t := scan[1..];
    assert forall i :: 0 <= i < |t| ==> t[i] == scan[i + 1];
    if LateOnce(s, scan, threshold) {
      forall i, j | 0 <= i < j < |t| && t[i].url == t[j].url
        ensures !Late(s, t[i], threshold) || !Late(s, t[j], threshold)
      {
        assert scan[i + 1].url == scan[j + 1].url;
      }
      forall i | 0 <= i < |t| && t[i].url == scan[0].url && Late(s, scan[0], threshold)
        ensures !Late(s, t[i], threshold)
      {
        assert scan[0].url == scan[i + 1].url;
      }
    } else {
      var i, j :| 0 <= i < j < |scan| && scan[i].url == scan[j].url && Late(s, scan[i], threshold) &&
                  Late(s, scan[j], threshold);
      assert scan[j] == t[j - 1];
      if i > 0 {
        assert t[i - 1].url == t[j - 1].url;
      }
    }
  }

  /** A scan of the index without repetitions. */
  ghost predicate LooksOnce(s: State, scan: seq<Look>) {
    && (forall k :: k in scan ==> k.url in s.index)
    && (forall i, j :: 0 <= i < j < |scan| ==> scan[i].url != scan[j].url)
  }

  /** An undisturbed pass that looks at every indexed URL once requeues exactly the overdue ones, oldest scan
      position first, and touches no other entry. */
  lemma PassRequeuesOverdue(s: State, scan: seq<Look>, threshold: int, look: Look)
    requires Exclusive(s) && LooksOnce(s, scan)
    requires look in scan || look.url !in s.index
    ensures var r, u := Checked(s, scan, threshold), look.url;
            && Exclusive(r)
            && (if u in s.index && Late(s, look, threshold)
                then r.Is(u, Queued) && u in r.queue && u !in r.index
                else (u in r.info <==> u in s.info) && (u in s.info ==> r.info[u] == s.info[u])
                     && (u in r.index <==> u in s.index) && (u in r.queue <==> u in s.queue))
            && r.queue == Reverse(Overdue(s, scan, threshold)) + s.queue
  {
    var r, due, u := Checked(s, scan, threshold), Overdue(s, scan, threshold), look.url;
    PassExclusiveIff(s, scan, threshold);
    forall k | k in scan ensures k.url in s.info { assert Alone(s, k.url); }
    CheckedEntries(s, scan, threshold, u);
    CheckedQueue(s, scan, threshold);
    OverdueIn(s, scan, threshold, u);
    assert forall k :: k in scan && k.url == u ==> k == look;
    InReverse(due, u);
    assert u in r.queue <==> u in Reverse(due) || u in s.queue;
    assert Alone(s, u);
  }

  /** Rounding down to milliseconds loses at most as much on the whole as on the parts. */
  lemma MilliAdds(a: int, b: int)
    ensures Milli(a) + Milli(b) <= Milli(a + b)
    ensures b % 1_000_000 == 0 ==> Milli(a) + Milli(b) == Milli(a + b)
  {
  }

  /** Ticks come one threshold apart. One of them comes between one and two thresholds after t, and it finds overdue
      whatever was taken on at t. */
  lemma OverdueWithinTwoThresholds(first: int, theta: int, t: int) returns (k: nat)
    requires theta > 0 && first <= t
    ensures t + theta <= first + k * theta < t + 2 * theta
    ensures forall s: State, u :: u in s.info && s.info[u].takeOnAt == Milli(t) ==>
              Expired(s, u, Milli(first + k * theta), Milli(theta))
  {
    var tick := first;
    k := 0;
    while tick < t + theta
      invariant tick == first + k * theta
      invariant tick < t + 2 * theta
      decreases t + theta - tick
    {
      assert (k + 1) * theta == k * theta + theta;
      tick := tick + theta;
      k := k + 1;
    }
    OverdueFrom(t, theta, tick);
  }

  lemma OverdueFrom(t: int, theta: int, tick: int)
    requires tick >= t + theta
    ensures Milli(tick) - Milli(t) >= Milli(theta)
  {
    MilliAdds(t, theta);
    assert Milli(tick) >= Milli(t + theta);
  }

  /** No step completes or recovers u. */
  ghost predicate Untouched(steps: seq<Step>, u: Url) {
    forall i :: 0 <= i < |steps| && (steps[i].Retried? || steps[i].Marked? || steps[i].Recovered?) ==>
      steps[i].url != u
  }

  lemma StepLeavesHeld(conf: CrawlConfig, s: State, clock: int, step: Step, u: Url)
    requires Exclusive(s) && Leased(conf, s, clock, step) && s.Is(u, Processing) && Untouched([step], u)
    ensures Apply(s, step).Is(u, Processing) && Apply(s, step).info[u] == s.info[u]
  {
    assert Alone(s, u);
    CountIn(s.queue, u);
    assert [step][0] == step;
    if step.Pop? && s.queue != [] {
      assert s.queue[|s.queue| - 1] in s.queue;
    }
  }

  /** A held URL that nobody completes or recovers keeps its entry, take-on time included. */
  lemma {:induction false} LeftAlone(conf: CrawlConfig, s: State, clock: int, steps: seq<Step>, u: Url)
    requires Exclusive(s) && LeasedRun(conf, s, clock, steps) && s.Is(u, Processing) && Untouched(steps, u)
    ensures Run(s, steps).Is(u, Processing) && Run(s, steps).info[u] == s.info[u]
    decreases |steps|
  {
    if steps != [] {
      assert Untouched([steps[0]], u);
      assert forall i :: 0 <= i < |steps[1..]| ==> steps[1..][i] == steps[i + 1];
      StepLeavesHeld(conf, s, clock, steps[0], u);
      LeasedIsSafe(conf, s, clock, steps[0]);
      ExclusiveIffSafe(s, steps[0]);
      LeftAlone(conf, Apply(s, steps[0]), steps[0].at, steps[1..], u);
    }
  }

  lemma TakenOn(s: State, pop: Step, u: Url)
    requires Exclusive(s) && pop.Pop? && Oldest(s) == Some(u)
    ensures Apply(s, pop).Is(u, Processing) && Apply(s, pop).info[u].takeOnAt == Milli(pop.at)
  {
    assert Alone(s, u);
    assert u in s.queue;
    CountIn(s.queue, u);
  }

  /** In a leased run, a URL taken on and then left alone still carries the time of that take-on. */
  lemma StillTakenOn(conf: CrawlConfig, before: seq<Step>, pop: Step, after: seq<Step>, u: Url)
    requires pop.Pop? && LeasedRun(conf, INIT, 0, before + [pop] + after)
    requires Oldest(Run(INIT, before)) == Some(u) && Untouched(after, u)
    ensures var s := Run(INIT, before + [pop] + after);
            Exclusive(s) && s.Is(u, Processing) && s.info[u].takeOnAt == Milli(pop.at)
  {
    var s0 := Run(INIT, before);
    InitExclusive();
    RunSplit(conf, INIT, 0, before + [pop], after);
    RunSplit(conf, INIT, 0, before, [pop]);
    assert [pop][1..] == [] && Run(s0, [pop]) == Apply(s0, pop) && EndClock(0, before + [pop]) == pop.at;
    LeasedRunExclusive(conf, INIT, 0, before);
    LeasedRunExclusive(conf, INIT, 0, before + [pop]);
    LeasedRunExclusive(conf, INIT, 0, before + [pop] + after);
    TakenOn(s0, pop, u);
    LeftAlone(conf, Apply(s0, pop), pop.at, after, u);
  }

  /** A worker takes u on and is never heard of again. Let a tick come a threshold later or more, as one does before
      two thresholds are over. Whatever else goes on in the leased frontier until then, the pass of that tick, over
      the index as it is by then, puts u back. */
  lemma AbandonedIsRequeued(
    conf: CrawlConfig, before: seq<Step>, pop: Step, after: seq<Step>, tick: int, u: Url, scan: seq<Look>, look: Look)
    requires pop.Pop? && tick >= pop.at + conf.threshold
    requires LeasedRun(conf, INIT, 0, before + [pop] + after)
    requires Oldest(Run(INIT, before)) == Some(u) && Untouched(after, u)
    requires LooksOnce(Run(INIT, before + [pop] + after), scan)
    requires look in scan && look.url == u && look.at >= Milli(tick)
    ensures Checked(Run(INIT, before + [pop] + after), scan, Milli(conf.threshold)).Is(u, Queued)
  {
    StillTakenOn(conf, before, pop, after, u);
    OverdueFrom(pop.at, conf.threshold, tick);
    PassRequeuesOverdue(Run(INIT, before + [pop] + after), scan, Milli(conf.threshold), look);
  }

  /** How long an Execute call may take. */
  const EXECUTE_TIMEOUT := 15_000_000_000

  /** No URL is recovered in haste: in a leased run, when the reaper puts back a URL that was taken on by `pop`,
      a whole threshold has gone by, counted in milliseconds. */
  lemma NotRecoveredEarly(
    conf: CrawlConfig, before: seq<Step>, pop: Step, between: seq<Step>, recovered: Step, started: int)
    requires pop.Pop? && recovered.Recovered? && started <= pop.at
    requires LeasedRun(conf, INIT, 0, before + [pop] + between + [recovered])
    requires Oldest(Run(INIT, before)) == Some(recovered.url) && Untouched(between, recovered.url)
    ensures Milli(recovered.at) >= Milli(started) + Milli(conf.threshold)
    ensures conf.threshold % 1_000_000 == 0 ==> Milli(recovered.at) >= Milli(started + conf.threshold)
  {
    RunSplit(conf, INIT, 0, before + [pop] + between, [recovered]);
    StillTakenOn(conf, before, pop, between, recovered.url);
    assert Leased(conf, Run(INIT, before + [pop] + between), EndClock(0, before + [pop] + between), recovered);
    assert Milli(started) <= Milli(pop.at);
    MilliAdds(started, conf.threshold);
  }

  /** With the configured threshold, the Execute that started before that take-on has run into its deadline. */
  lemma RecoveredAfterDeadline(
    before: seq<Step>, pop: Step, between: seq<Step>, recovered: Step, started: int)
    requires pop.Pop? && recovered.Recovered? && started <= pop.at
    requires LeasedRun(DEFAULTS, INIT, 0, before + [pop] + between + [recovered])
    requires Oldest(Run(INIT, before)) == Some(recovered.url) && Untouched(between, recovered.url)
    ensures Milli(recovered.at) >= Milli(started + EXECUTE_TIMEOUT)
  {
    NotRecoveredEarly(DEFAULTS, before, pop, between, recovered, started);
  }

  /** With the configured threshold a URL is overdue exactly fifteen seconds after it was taken on, in milliseconds. */
  lemma DefaultExpiry(s: State, u: Url, at: int)
    requires u in s.info
    ensures Expired(s, u, Milli(at), Milli(DEFAULTS.threshold)) <==>
              Milli(at) >= s.info[u].takeOnAt + EXECUTE_TIMEOUT / 1_000_000
  {
  }
}
