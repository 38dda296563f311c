/** Exclusive placement: every tracked URL lies in exactly the place its status names. The scripts keep
    this only under conditions they do not check themselves; here are the exact ones, and the leased
    regime that meets them. */
module Leases {
  import opened Basics
  import opened Backoff
  import opened FrontierState
  import opened FrontierStore
  import opened FrontierRuns

  ghost predicate Alone(s: State, u: Url) {
    && multiset(s.queue)[u] == (if s.Is(u, Queued) then 1 else 0)
    && (u in s.index <==> s.Is(u, Processing))
    && (u in s.retry <==> s.Is(u, Retry))
    && (s.Is(u, Retry) ==> s.retry[u] == s.info[u].retryAt)
    && !s.Is(u, Unknown)
    && forall w :: multiset(s.ListOf(w))[u] == if Held(s, w, u) then 1 else 0
  }

  ghost predicate Exclusive(s: State) {
    forall u :: Alone(s, u)
  }

  /** Worker w is the recorded holder of u. */
  predicate Held(s: State, w: WorkerId, u: Url) {
    s.Is(u, Processing) && s.info[u].workerId == w
  }

  /** Worker w has finished u with this status. */
  predicate FinishedBy(s: State, w: WorkerId, u: Url, status: CrawlStatus) {
    Terminal(status) && s.Is(u, status) && s.info[u].workerId == w
  }

  // ----- each script, pointwise -----

  lemma CountCons(x: Url, xs: seq<Url>, u: Url)
    ensures multiset([x] + xs)[u] == multiset(xs)[u] + if u == x then 1 else 0
  {
  }

  lemma PushAlone(s: State, v: Url, parent: Url, u: Url)
    requires Alone(s, u)
    ensures Alone(PushUrl(s, v, parent), u)
  {
    var r := PushUrl(s, v, parent);
    CountCons(v, s.queue, u);
    forall w ensures multiset(r.ListOf(w))[u] == if Held(r, w, u) then 1 else 0 {
      assert r.ListOf(w) == s.ListOf(w) && Held(r, w, u) == Held(s, w, u);
    }
  }

  lemma CountSnoc(xs: seq<Url>, u: Url)
    requires xs != []
    ensures var n := |xs| - 1;
            multiset(xs)[u] == multiset(xs[..n])[u] + if u == xs[n] then 1 else 0
  {
    assert xs == xs[..|xs| - 1] + [xs[|xs| - 1]];
  }

  /** After a pop the popped URL is held by the popping worker; everything else is held as before. */
  lemma PopHeld(s: State, w: WorkerId, now: int, u: Url, w': WorkerId)
    requires Alone(s, u) && s.queue != []
    ensures var last := s.queue[|s.queue| - 1];
            Held(PopUrl(s, w, now), w', u) <==> if u == last then w' == w else Held(s, w', u)
  {
    CountSnoc(s.queue, u);
  }

  lemma PopLists(s: State, w: WorkerId, now: int, w': WorkerId)
    requires s.queue != []
    ensures PopUrl(s, w, now).ListOf(w') ==
            if w' == w then [s.queue[|s.queue| - 1]] + s.ListOf(w) else s.ListOf(w')
  {
  }

  lemma QueuedNotHeld(s: State, u: Url, w: WorkerId)
    requires Alone(s, u) && s.queue != [] && u == s.queue[|s.queue| - 1]
    ensures multiset(s.ListOf(w))[u] == 0
  {
    CountSnoc(s.queue, u);
    assert !Held(s, w, u);
  }

  lemma PopList(s: State, w: WorkerId, now: int, u: Url, w': WorkerId)
    requires Alone(s, u) && s.queue != []
    ensures var r := PopUrl(s, w, now); multiset(r.ListOf(w'))[u] == if Held(r, w', u) then 1 else 0
  {
    var last := s.queue[|s.queue| - 1];
    PopHeld(s, w, now, u, w');
    PopLists(s, w, now, w');
    CountCons(last, s.ListOf(w), u);
    if u == last {
      QueuedNotHeld(s, u, w');
    }
  }

  lemma PopAlone(s: State, w: WorkerId, now: int, u: Url)
    requires Alone(s, u)
    ensures Alone(PopUrl(s, w, now), u)
  {
    if s.queue != [] {
      CountSnoc(s.queue, u);
      var r := PopUrl(s, w, now);
      forall w' ensures multiset(r.ListOf(w'))[u] == if Held(r, w', u) then 1 else 0 {
        PopList(s, w, now, u, w');
      }
    }
  }

  lemma ReleasedCounts(s: State, r: State, v: Url, u: Url)
    requires v in s.info && v in r.info && Alone(s, u)
    requires var w := s.info[v].workerId;
             r.working == Released(s, v) || r.working == s.working[w := RemoveAll(s.ListOf(w), v)]
    requires !r.Is(v, Processing)
    requires u != v ==> (u in r.info <==> u in s.info) && (u in s.info ==> r.info[u] == s.info[u])
    ensures forall w :: multiset(r.ListOf(w))[u] == if Held(r, w, u) then 1 else 0
  {
    forall w ensures multiset(r.ListOf(w))[u] == if Held(r, w, u) then 1 else 0 {
      assert multiset(s.ListOf(w))[u] == if Held(s, w, u) then 1 else 0;
    }
  }

  lemma RetryAlone(s: State, v: Url, retryAt: int, u: Url)
    requires Alone(s, u) && !s.Is(v, Queued)
    ensures Alone(RetryUrl(s, v, retryAt), u)
  {
    if v in s.info {
      ReleasedCounts(s, RetryUrl(s, v, retryAt), v, u);
    }
  }

  lemma MarkAlone(s: State, v: Url, status: CrawlStatus, u: Url)
    requires Alone(s, u) && !s.Is(v, Queued) && !s.Is(v, Retry) && Terminal(status)
    ensures Alone(MarkUrl(s, v, status), u)
  {
    if v in s.info {
      ReleasedCounts(s, MarkUrl(s, v, status), v, u);
    }
  }

  lemma RecoverAlone(s: State, v: Url, u: Url)
    requires Alone(s, u) && !s.Is(v, Queued) && !s.Is(v, Retry)
    ensures Alone(RecoverUrl(s, v), u)
  {
    CountCons(v, s.queue, u);
    var r := RecoverUrl(s, v);
    if v in s.info {
      ReleasedCounts(s, r, v, u);
    } else {
      forall w ensures multiset(r.ListOf(w))[u] == if Held(r, w, u) then 1 else 0 {
        assert r.ListOf(w) == s.ListOf(w) && Held(r, w, u) == Held(s, w, u);
      }
    }
  }

  lemma EnqueueAlone(s: State, now: int, due: seq<Url>, u: Url)
    requires Alone(s, u) && IsDue(s.retry, now, due)
    ensures Alone(EnqueueDue(s, now, due), u)
  {
    var r := EnqueueDue(s, now, due);
    ReverseElems(due);
    DistinctCounts(due, u);
    assert multiset(r.queue)[u] == multiset(Reverse(due))[u] + multiset(s.queue)[u];
    forall w ensures multiset(r.ListOf(w))[u] == if Held(r, w, u) then 1 else 0 {
      assert r.ListOf(w) == s.ListOf(w) && Held(r, w, u) == Held(s, w, u);
    }
  }

  // ----- the exact conditions -----

  /** The guard each script would need: a completion must not meet a URL that waits in the main list,
      nor, unless it is a retry, one that waits in the retry set. */
  predicate Safe(s: State, step: Step) {
    match step
    case Retried(_, _, u, _) => !s.Is(u, Queued)
    case Marked(_, _, u, _) => !s.Is(u, Queued) && !s.Is(u, Retry)
    case Recovered(_, u) => !s.Is(u, Queued) && !s.Is(u, Retry)
    case _ => true
  }

  lemma SafeStepAlone(s: State, step: Step, u: Url)
    requires Alone(s, u) && Issued(s, step) && Safe(s, step)
    ensures Alone(Apply(s, step), u)
  {
    match step
    case Push(_, v, parent) => PushAlone(s, v, parent, u);
    case Pop(at, w) => PopAlone(s, w, Milli(at), u);
    case Retried(_, _, v, retryAt) => RetryAlone(s, v, retryAt, u);
    case Marked(_, _, v, status) => MarkAlone(s, v, status, u);
    case Recovered(_, v) => RecoverAlone(s, v, u);
    case Enqueued(at, due) => EnqueueAlone(s, Milli(at), due, u);
  }

  lemma UnsafeStepBreaks(s: State, step: Step)
    requires Exclusive(s) && Issued(s, step) && !Safe(s, step)
    ensures !Alone(Apply(s, step), step.url)
  {
    var u := step.url;
    assert Alone(s, u);
    if step.Recovered? {
      CountCons(u, s.queue, u);
    }
  }

  /** A script called on an exclusive frontier leaves it exclusive if and only if the call is safe. */
  lemma ExclusiveIffSafe(s: State, step: Step)
    requires Exclusive(s) && Issued(s, step)
    ensures Exclusive(Apply(s, step)) <==> Safe(s, step)
  {
    if Safe(s, step) {
      forall u ensures Alone(Apply(s, step), u) {
        SafeStepAlone(s, step, u);
      }
    } else {
      UnsafeStepBreaks(s, step);
    }
  }

  /** The failure is reachable: a worker that outlives its lease schedules a retry for a URL the reaper
      has already put back, which then waits both in the main list and in the retry set. */
  lemma LateWorkerBreaksExclusivity(u: Url, w: WorkerId)
    ensures var steps := [Push(0, u, NO_PARENT), Pop(1, w), Recovered(2, u), Retried(3, w, u, 9)];
            var s := Run(INIT, steps);
            ScannedRun(INIT, {}, steps) && !Exclusive(s) && u in s.queue && u in s.retry
  {
    var steps := [Push(0, u, NO_PARENT), Pop(1, w), Recovered(2, u), Retried(3, w, u, 9)];
    var s1 := Apply(INIT, steps[0]);
    var s2 := Apply(s1, steps[1]);
    var s3 := Apply(s2, steps[2]);
    var s4 := Apply(s3, steps[3]);
    assert s1.queue == [u];
    assert s2.index == {u} && s2.queue == [];
    assert s3.queue == [u] && s3.Is(u, Queued);
    assert steps[1..][1..] == steps[2..] && steps[2..][1..] == steps[3..] && steps[3..][1..] == [];
    assert ScannedRun(s3, {} + s2.index, steps[3..]);
    assert ScannedRun(s2, {} + s1.index, steps[2..]);
    assert ScannedRun(s1, {} + INIT.index, steps[1..]) by {
      var none: set<Url> := {};
      assert none + s1.index == none && none + INIT.index == none;
    }
    assert Run(s3, steps[3..]) == s4;
    assert Run(s2, steps[2..]) == s4;
    assert Run(s1, steps[1..]) == s4;
    assert Alone(s4, u) ==> false;
  }

  // ----- the leased regime -----

  /** A completion comes from the recorded holder, who may also mark again what it has finished without hearing
      back, or give it up; a retry is scheduled as CalcRetryTime says, the reaper checks age and recovers in one
      step, and the clock never runs backwards. */
  ghost predicate Leased(conf: CrawlConfig, s: State, clock: int, step: Step) {
    && Issued(s, step)
    && clock <= step.at
    && match step
       case Retried(at, w, u, retryAt) =>
         && Held(s, w, u)
         && CalcRetryTime(s.info[u].tries, conf, at).Some?
         && retryAt == Milli(CalcRetryTime(s.info[u].tries, conf, at).value)
       case Marked(_, w, u, status) =>
         Held(s, w, u) || FinishedBy(s, w, u, status) || (status.GiveUp? && FinishedBy(s, w, u, Done))
       case Recovered(at, u) => u in s.index && Expired(s, u, Milli(at), Milli(conf.threshold))
       case _ => true
  }

  ghost predicate LeasedRun(conf: CrawlConfig, s: State, clock: int, steps: seq<Step>)
    decreases |steps|
  {
    steps == [] ||
    (Leased(conf, s, clock, steps[0]) && LeasedRun(conf, Apply(s, steps[0]), steps[0].at, steps[1..]))
  }

  lemma LeasedIsSafe(conf: CrawlConfig, s: State, clock: int, step: Step)
    requires Exclusive(s) && Leased(conf, s, clock, step)
    ensures Safe(s, step)
  {
    if step.Recovered? {
      assert Alone(s, step.url);
    }
  }

  lemma InitExclusive()
    ensures Exclusive(INIT)
  {
  }

  /** Leased runs keep every URL in exactly one place. */
  lemma {:induction false} LeasedRunExclusive(conf: CrawlConfig, s: State, clock: int, steps: seq<Step>)
    requires Exclusive(s) && LeasedRun(conf, s, clock, steps)
    ensures Exclusive(Run(s, steps))
    decreases |steps|
  {
    if steps != [] {
      LeasedIsSafe(conf, s, clock, steps[0]);
      ExclusiveIffSafe(s, steps[0]);
      LeasedRunExclusive(conf, Apply(s, steps[0]), steps[0].at, steps[1..]);
    }
  }

  // ----- consequences of exclusivity -----

  lemma CountIn(xs: seq<Url>, u: Url)
    ensures u in xs <==> multiset(xs)[u] > 0
  {
    assert u in xs <==> u in multiset(xs);
  }

  lemma ExclusiveKeeps(s: State)
    requires Exclusive(s)
    ensures NothingLost(s)
  {
    forall u ensures Kept(s, u) {
      assert Alone(s, u);
      CountIn(s.queue, u);
      if s.Is(u, Processing) {
        CountIn(s.ListOf(s.info[u].workerId), u);
      }
    }
  }

  lemma SingletonsDistinct(xs: seq<Url>)
    requires forall u :: multiset(xs)[u] <= 1
    ensures Distinct(xs)
  {
    forall i, j | 0 <= i < j < |xs| ensures xs[i] != xs[j] {
      assert xs == xs[..i] + [xs[i]] + xs[i + 1..j] + [xs[j]] + xs[j + 1..];
      assert multiset(xs)[xs[i]] >= multiset([xs[i]])[xs[i]] + multiset([xs[j]])[xs[i]];
    }
  }

  /** Every tracked URL lies where its status says; the main list has no duplicates, the index is the union of
      the worker lists, a URL held by one worker is held by no other, and finished URLs lie nowhere. */
  lemma ExclusivePlaces(s: State)
    requires Exclusive(s)
    ensures NothingLost(s)
    ensures Distinct(s.queue)
    ensures forall u :: u in s.index <==> exists w :: u in s.ListOf(w)
    ensures forall u, w, w' :: u in s.ListOf(w) && u in s.ListOf(w') ==> w == w'
    ensures forall u :: u in s.info && Terminal(s.info[u].status) ==>
              u !in s.queue && u !in s.index && u !in s.retry && forall w :: u !in s.ListOf(w)
  {
    ExclusiveKeeps(s);
    forall u ensures multiset(s.queue)[u] <= 1 { assert Alone(s, u); }
    SingletonsDistinct(s.queue);
    forall u, w ensures u in s.ListOf(w) <==> Held(s, w, u) {
      assert Alone(s, u);
      CountIn(s.ListOf(w), u);
    }
    forall u ensures u in s.index <==> exists w :: u in s.ListOf(w) {
      assert Alone(s, u);
      if u in s.index {
        assert u in s.ListOf(s.info[u].workerId);
      }
    }
    forall u | u in s.info && Terminal(s.info[u].status)
      ensures u !in s.queue && u !in s.index && u !in s.retry && forall w :: u !in s.ListOf(w)
    {
      assert Alone(s, u);
      CountIn(s.queue, u);
    }
  }

  lemma OpenIsPlaces(s: State)
    requires Exclusive(s)
    ensures OpenUrls(s) == Elems(s.queue) + s.retry.Keys + s.index
    ensures Elems(s.queue) !! s.retry.Keys && Elems(s.queue) + s.retry.Keys !! s.index
  {
    forall u ensures u in OpenUrls(s) <==> u in Elems(s.queue) + s.retry.Keys + s.index {
      assert Alone(s, u);
      CountIn(s.queue, u);
    }
    forall u ensures !(u in Elems(s.queue) && u in s.retry.Keys) {
      assert Alone(s, u);
      CountIn(s.queue, u);
    }
    forall u ensures !(u in Elems(s.queue) + s.retry.Keys && u in s.index) {
      assert Alone(s, u);
      CountIn(s.queue, u);
    }
  }

  /** In leased runs the count a worker reads is exactly the number of unfinished URLs. */
  lemma CountExact(s: State)
    requires Exclusive(s)
    ensures UnprocessedCount(s) == |OpenUrls(s)|
  {
    ExclusivePlaces(s);
    OpenIsPlaces(s);
    UnionCard(Elems(s.queue), s.retry.Keys);
    UnionCard(Elems(s.queue) + s.retry.Keys, s.index);
    ElemsCard(s.queue);
  }

  lemma LeasedCountExact(conf: CrawlConfig, steps: seq<Step>)
    requires LeasedRun(conf, INIT, 0, steps)
    ensures UnprocessedCount(Run(INIT, steps)) == |OpenUrls(Run(INIT, steps))|
  {
    InitExclusive();
    LeasedRunExclusive(conf, INIT, 0, steps);
    CountExact(Run(INIT, steps));
  }
}
