/** What holds of every run of the scripts, in any interleaving and with late or repeated callers. */
module FrontierRuns {
  import opened Basics
  import opened FrontierState
  import opened FrontierStore

  // ----- nothing is lost -----

  /** The place an entry's status names holds the URL. */
  predicate Kept(s: State, u: Url) {
    u in s.info ==>
      match s.info[u].status
      case Queued => u in s.queue
      case Processing => u in s.index && u in s.ListOf(s.info[u].workerId)
      case Retry => u in s.retry && s.retry[u] == s.info[u].retryAt
      case Unknown => false
      case _ => true
  }

  ghost predicate NothingLost(s: State) {
    forall u :: Kept(s, u)
  }

  lemma LongerQueueKeeps(xs: seq<Url>, ys: seq<Url>, u: Url)
    ensures u in xs + ys <==> u in xs || u in ys
  {
  }

  lemma InReverse(xs: seq<Url>, u: Url)
    ensures u in Reverse(xs) <==> u in xs
  {
    ReverseElems(xs);
    assert u in Reverse(xs) <==> u in multiset(Reverse(xs));
    assert u in xs <==> u in multiset(xs);
  }

  lemma InRemoved(xs: seq<Url>, x: Url, u: Url)
    requires u != x
    ensures u in xs ==> u in RemoveFirst(xs, x) && u in RemoveAll(xs, x)
  {
    if u in xs {
      assert u in multiset(xs);
      assert u in multiset(RemoveFirst(xs, x));
      assert u in multiset(RemoveAll(xs, x));
    }
  }

  lemma PopKeeps(s: State, w: WorkerId, now: int, u: Url)
    requires Kept(s, u)
    ensures Kept(PopUrl(s, w, now), u)
  {
    if s.queue != [] {
      var last := s.queue[|s.queue| - 1];
      assert s.queue == s.queue[..|s.queue| - 1] + [last];
      if u == last {
        assert ([u] + s.ListOf(w))[0] == u;
      } else if s.Is(u, Processing) {
        LongerQueueKeeps([last], s.ListOf(w), u);
      }
    }
  }

  lemma RetryKeeps(s: State, v: Url, retryAt: int, u: Url)
    requires Kept(s, u)
    ensures Kept(RetryUrl(s, v, retryAt), u)
  {
    if u != v && v in s.info {
      InRemoved(s.ListOf(s.info[v].workerId), v, u);
    }
  }

  lemma MarkKeeps(s: State, v: Url, status: CrawlStatus, u: Url)
    requires Kept(s, u) && Terminal(status)
    ensures Kept(MarkUrl(s, v, status), u)
  {
    if u != v && v in s.info {
      InRemoved(s.ListOf(s.info[v].workerId), v, u);
    }
  }

  lemma RecoverKeeps(s: State, v: Url, u: Url)
    requires Kept(s, u)
    ensures Kept(RecoverUrl(s, v), u)
  {
    LongerQueueKeeps([v], s.queue, u);
    if u != v && v in s.info {
      InRemoved(s.ListOf(s.info[v].workerId), v, u);
    }
  }

  lemma EnqueueKeeps(s: State, now: int, due: seq<Url>, u: Url)
    requires Kept(s, u) && IsDue(s.retry, now, due)
    ensures Kept(EnqueueDue(s, now, due), u)
  {
    InReverse(due, u);
    LongerQueueKeeps(Reverse(due), s.queue, u);
  }

  lemma StepKeeps(s: State, step: Step, u: Url)
    requires Issued(s, step) && Kept(s, u)
    ensures Kept(Apply(s, step), u)
  {
    match step
    case Push(_, v, _) => LongerQueueKeeps([v], s.queue, u);
    case Pop(at, w) => PopKeeps(s, w, Milli(at), u);
    case Retried(_, _, v, retryAt) => RetryKeeps(s, v, retryAt, u);
    case Marked(_, _, v, status) => MarkKeeps(s, v, status, u);
    case Recovered(_, v) => RecoverKeeps(s, v, u);
    case Enqueued(at, due) => EnqueueKeeps(s, Milli(at), due, u);
  }

  /** No script, whoever calls it and when, loses track of a URL. */
  lemma {:induction false} RunLosesNothing(s: State, steps: seq<Step>)
    requires NothingLost(s) && IssuedRun(s, steps)
    ensures NothingLost(Run(s, steps))
    decreases |steps|
  {
    if steps != [] {
      forall u ensures Kept(Apply(s, steps[0]), u) {
        StepKeeps(s, steps[0], u);
      }
      RunLosesNothing(Apply(s, steps[0]), steps[1..]);
    }
  }

  /** Marking a URL takes it out of the index and its worker's list and puts it nowhere. So the confinement to terminal
      statuses is exactly what is needed: with any other status the frontier loses nothing only if the place that
      the new status names happens to hold the URL already. */
  lemma MarkLosesNothingIff(s: State, v: Url, status: CrawlStatus)
    requires NothingLost(s)
    ensures NothingLost(MarkUrl(s, v, status)) <==>
              || v !in s.info
              || Terminal(status)
              || (status == Queued && v in s.queue)
              || (status == Retry && v in s.retry && s.retry[v] == s.info[v].retryAt)
  {
    var r := MarkUrl(s, v, status);
    forall u | u != v ensures Kept(r, u) {
      assert Kept(s, u);
      if v in s.info {
        InRemoved(s.ListOf(s.info[v].workerId), v, u);
      }
    }
    assert NothingLost(r) <==> Kept(r, v);
    assert Kept(s, v);
  }

  // ----- nothing dangles -----

  /** Every URL in any structure has an entry, and every entry has a parent. */
  ghost predicate Closed(s: State) {
    && (forall u :: u in s.info ==> s.info[u].parent.Some?)
    && (forall u :: u in s.queue || u in s.index || u in s.retry ==> u in s.info)
    && (forall w, u :: u in s.ListOf(w) ==> u in s.info)
  }

  /** The reaper recovers only what it has read from the index, however long ago. */
  ghost predicate ScannedRun(s: State, seen: set<Url>, steps: seq<Step>)
    decreases |steps|
  {
    steps == [] ||
    (&& Issued(s, steps[0])
     && (steps[0].Recovered? ==> steps[0].url in seen + s.index)
     && ScannedRun(Apply(s, steps[0]), seen + s.index, steps[1..]))
  }

  lemma SubList(xs: seq<Url>, x: Url)
    ensures forall u :: u in RemoveFirst(xs, x) ==> u in xs
    ensures forall u :: u in RemoveAll(xs, x) ==> u in xs
  {
    forall u ensures (u in RemoveFirst(xs, x) ==> u in xs) && (u in RemoveAll(xs, x) ==> u in xs) {
      assert u in RemoveFirst(xs, x) ==> u in multiset(RemoveFirst(xs, x));
      assert u in RemoveAll(xs, x) ==> u in multiset(RemoveAll(xs, x));
      assert u in multiset(xs) ==> u in xs;
    }
  }

  lemma PopCloses(s: State, w: WorkerId, now: int)
    requires Closed(s)
    ensures Closed(PopUrl(s, w, now))
  {
    if s.queue != [] {
      var last, r := s.queue[|s.queue| - 1], PopUrl(s, w, now);
      assert last in s.queue && last in s.info;
      assert forall u :: u in [last] + s.ListOf(w) <==> u == last || u in s.ListOf(w);
      forall w', u | u in r.ListOf(w') ensures u in r.info {
        if w' != w { assert u in s.ListOf(w'); }
      }
    }
  }

  lemma EnqueueCloses(s: State, now: int, due: seq<Url>)
    requires Closed(s) && IsDue(s.retry, now, due)
    ensures Closed(EnqueueDue(s, now, due))
  {
    var r := EnqueueDue(s, now, due);
    forall u | u in r.queue ensures u in r.info {
      InReverse(due, u);
    }
    forall w, u | u in r.ListOf(w) ensures u in r.info {
      assert u in s.ListOf(w);
    }
  }

  lemma PushCloses(s: State, v: Url, parent: Url)
    requires Closed(s)
    ensures Closed(PushUrl(s, v, parent))
  {
    forall w, u | u in PushUrl(s, v, parent).ListOf(w) ensures u in s.info {
      assert u in s.ListOf(w);
    }
  }

  lemma RetryCloses(s: State, v: Url, retryAt: int)
    requires Closed(s)
    ensures Closed(RetryUrl(s, v, retryAt))
  {
    if v in s.info { SubList(s.ListOf(s.info[v].workerId), v); }
    forall w, u | u in RetryUrl(s, v, retryAt).ListOf(w) ensures u in s.info {
      assert u in s.ListOf(w);
    }
  }

  lemma MarkCloses(s: State, v: Url, status: CrawlStatus)
    requires Closed(s)
    ensures Closed(MarkUrl(s, v, status))
  {
    if v in s.info { SubList(s.ListOf(s.info[v].workerId), v); }
    forall w, u | u in MarkUrl(s, v, status).ListOf(w) ensures u in s.info {
      assert u in s.ListOf(w);
    }
  }

  lemma RecoverCloses(s: State, v: Url)
    requires Closed(s) && v in s.info
    ensures Closed(RecoverUrl(s, v))
  {
    SubList(s.ListOf(s.info[v].workerId), v);
    forall w, u | u in RecoverUrl(s, v).ListOf(w) ensures u in s.info {
      assert u in s.ListOf(w);
    }
  }

  lemma StepCloses(s: State, step: Step)
    requires Issued(s, step) && Closed(s)
    requires step.Recovered? ==> step.url in s.info
    ensures Closed(Apply(s, step))
  {
    match step
    case Push(_, v, parent) => PushCloses(s, v, parent);
    case Pop(at, w) => PopCloses(s, w, Milli(at));
    case Retried(_, _, v, retryAt) => RetryCloses(s, v, retryAt);
    case Marked(_, _, v, status) => MarkCloses(s, v, status);
    case Recovered(_, v) => RecoverCloses(s, v);
    case Enqueued(at, due) => EnqueueCloses(s, Milli(at), due);
  }

  /** No script removes an entry or changes its parent. */
  lemma EntriesStay(s: State, step: Step, u: Url)
    requires u in s.info
    ensures u in Apply(s, step).info && Apply(s, step).info[u].parent == s.info[u].parent
  {
  }

  lemma {:induction false} RunCloses(s: State, seen: set<Url>, steps: seq<Step>)
    requires ScannedRun(s, seen, steps) && Closed(s) && seen <= s.info.Keys
    ensures Closed(Run(s, steps))
    decreases |steps|
  {
    if steps != [] {
      StepCloses(s, steps[0]);
      forall u | u in s.info ensures u in Apply(s, steps[0]).info {
        EntriesStay(s, steps[0], u);
      }
      RunCloses(Apply(s, steps[0]), seen + s.index, steps[1..]);
    }
  }

  /** Without a reset the repair branches are dead code: a pop never meets a missing entry and always
      answers with three values, and nothing due or scanned lacks an entry. */
  lemma RepairsUnreachable(steps: seq<Step>)
    requires ScannedRun(INIT, {}, steps)
    ensures var s := Run(INIT, steps);
            && Closed(s)
            && ReplyOf(s) != Failed
            && (ReplyOf(s) == QueueEmpty <==> s.queue == [])
            && (forall u :: u in s.retry || u in s.index ==> u in s.info && s.info[u].parent.Some?)
  {
    RunCloses(INIT, {}, steps);
    var s := Run(INIT, steps);
    if s.queue != [] {
      assert s.queue[|s.queue| - 1] in s.queue;
    }
  }

  /** What the repair branches would write: the reaper starts a URL without an entry afresh, the enqueue script takes
      it for one that has failed once; neither knows its parent. */
  lemma RepairEntries(s: State, u: Url, now: int, due: seq<Url>)
    requires u !in s.info
    ensures RecoverUrl(s, u).info[u] == Info(Queued, NOBODY, 0, -1, -1, None) && RecoverUrl(s, u).queue == [u] + s.queue
    ensures u in due ==> EnqueueDue(s, now, due).info[u] == Info(Queued, NOBODY, 1, -1, -1, None)
    ensures u in RecoverUrl(s, u).queue && u !in RecoverUrl(s, u).index
  {
    assert RecoverUrl(s, u).queue[0] == u;
  }

  /** Completing a URL takes one occurrence of it from the list of its recorded worker, recovering it takes all; nothing
      else leaves any list. */
  lemma ListRemovals(s: State, u: Url, retryAt: int, status: CrawlStatus, w: WorkerId, v: Url)
    requires u in s.info
    ensures var n := multiset(s.ListOf(w))[v]; var own := v == u && w == s.info[u].workerId && n > 0;
            && multiset(RetryUrl(s, u, retryAt).ListOf(w))[v] == (if own then n - 1 else n)
            && multiset(MarkUrl(s, u, status).ListOf(w))[v] == (if own then n - 1 else n)
            && multiset(RecoverUrl(s, u).ListOf(w))[v] == (if own then 0 else n)
  {
    var holder := s.info[u].workerId;
    assert u in s.ListOf(holder) <==> u in multiset(s.ListOf(holder));
  }

  // ----- first in, first out -----

  function Arrivals(s: State, step: Step): seq<Url> {
    match step
    case Push(_, u, _) => if u in s.info then [] else [u]
    case Recovered(_, u) => [u]
    case Enqueued(_, due) => due
    case _ => []
  }

  function Departures(s: State, step: Step): seq<Url> {
    if step.Pop? && s.queue != [] then [s.queue[|s.queue| - 1]] else []
  }

  ghost function AllArrivals(s: State, steps: seq<Step>): seq<Url>
    decreases |steps|
  {
    if steps == [] then [] else Arrivals(s, steps[0]) + AllArrivals(Apply(s, steps[0]), steps[1..])
  }

  ghost function AllDepartures(s: State, steps: seq<Step>): seq<Url>
    decreases |steps|
  {
    if steps == [] then [] else Departures(s, steps[0]) + AllDepartures(Apply(s, steps[0]), steps[1..])
  }

  lemma ConsFifo(u: Url, q: seq<Url>)
    ensures Reverse([u] + q) == Reverse(q) + [u]
  {
    assert ([u] + q)[1..] == q;
  }

  lemma DueFifo(due: seq<Url>, q: seq<Url>)
    ensures Reverse(Reverse(due) + q) == Reverse(q) + due
  {
    ReverseConcat(Reverse(due), q);
    ReverseTwice(due);
  }

  lemma SnocFifo(u: Url, q: seq<Url>)
    ensures Reverse(q + [u]) == [u] + Reverse(q)
  {
    ReverseConcat(q, [u]);
  }

  lemma LastOf(q: seq<Url>)
    requires q != []
    ensures q == q[..|q| - 1] + [q[|q| - 1]]
  {
  }

  lemma StepFifo(s: State, step: Step)
    ensures Reverse(s.queue) + Arrivals(s, step) == Departures(s, step) + Reverse(Apply(s, step).queue)
  {
    match step
    case Push(_, u, _) => ConsFifo(u, s.queue);
    case Recovered(_, u) => ConsFifo(u, s.queue);
    case Enqueued(_, due) => DueFifo(due, s.queue);
    case Pop(_, _) =>
      if s.queue != [] {
        LastOf(s.queue);
        SnocFifo(s.queue[|s.queue| - 1], s.queue[..|s.queue| - 1]);
      }
    case _ =>
  }

  /** Over any sequence of script calls, the URLs waiting at the start followed by everything pushed
      (by discovery, recovery or retry) is what was popped followed by what still waits. */
  lemma {:induction false} RunFifo(s: State, steps: seq<Step>)
    ensures Reverse(s.queue) + AllArrivals(s, steps) == AllDepartures(s, steps) + Reverse(Run(s, steps).queue)
    decreases |steps|
  {
    if steps != [] {
      var s1 := Apply(s, steps[0]);
      StepFifo(s, steps[0]);
      RunFifo(s1, steps[1..]);
      Chain(Reverse(s.queue), Arrivals(s, steps[0]), AllArrivals(s1, steps[1..]), Reverse(s1.queue),
            Departures(s, steps[0]), AllDepartures(s1, steps[1..]), Reverse(Run(s, steps).queue));
    }
  }

  lemma Chain<T>(q0: seq<T>, in1: seq<T>, in2: seq<T>, q1: seq<T>, out1: seq<T>, out2: seq<T>, q2: seq<T>)
    requires q0 + in1 == out1 + q1 && q1 + in2 == out2 + q2
    ensures q0 + (in1 + in2) == (out1 + out2) + q2
  {
    calc {
      q0 + (in1 + in2);
      (q0 + in1) + in2;
      out1 + (q1 + in2);
      (out1 + out2) + q2;
    }
  }

  lemma {:induction false} ReverseAt<T>(xs: seq<T>, i: nat)
    requires i < |xs|
    ensures |Reverse(xs)| == |xs| && Reverse(xs)[|xs| - 1 - i] == xs[i]
  {
    ReverseElems(xs[1..]);
    if i > 0 {
      ReverseAt(xs[1..], i - 1);
    }
  }

  /** A URL with d others ahead of it is the (d+1)-st to be taken on, whatever is pushed meanwhile. */
  lemma TakenInTurn(s: State, steps: seq<Step>, i: nat)
    requires i < |s.queue| && |AllDepartures(s, steps)| > |s.queue| - 1 - i
    ensures AllDepartures(s, steps)[|s.queue| - 1 - i] == s.queue[i]
  {
    var d := |s.queue| - 1 - i;
    RunFifo(s, steps);
    ReverseAt(s.queue, i);
    assert (Reverse(s.queue) + AllArrivals(s, steps))[d] == s.queue[i];
    assert (AllDepartures(s, steps) + Reverse(Run(s, steps).queue))[d] == AllDepartures(s, steps)[d];
  }

  /** Retries that fall due together are taken on by rising retry time: in the main list, where the right end is next,
      the one with the smaller time is further right. */
  lemma DueByRetryTime(s: State, now: int, due: seq<Url>, i: nat, j: nat)
    requires IsDue(s.retry, now, due) && i < j < |due|
    ensures var q := EnqueueDue(s, now, due).queue;
            && |q| == |due| + |s.queue| && q[|due| - 1 - i] == due[i] && q[|due| - 1 - j] == due[j]
            && s.retry[due[i]] <= s.retry[due[j]]
            && (forall k :: 0 <= k < |s.queue| ==> q[|due| + k] == s.queue[k])
  {
    ReverseElems(due);
    ReverseAt(due, i);
    ReverseAt(due, j);
  }

  // ----- the metadata never undercounts -----

  function OpenUrls(s: State): set<Url> {
    set u | u in s.info && s.Open(u)
  }

  lemma UnionCard<T>(a: set<T>, b: set<T>)
    ensures |a + b| <= |a| + |b|
    ensures a !! b ==> |a + b| == |a| + |b|
  {
    assert a + b == a + (b - a);
    assert |a + (b - a)| == |a| + |b - a|;
    assert (b - a) + (b * a) == b;
    assert |b - a| + |b * a| == |b|;
    if a !! b { assert b - a == b; }
  }

  lemma SubsetCard<T>(a: set<T>, b: set<T>)
    requires a <= b
    ensures |a| <= |b|
  {
    assert b == a + (b - a);
    assert |b| == |a| + |b - a|;
  }

  /** The count a worker reads is at least the number of unfinished URLs; so when it reads zero, every
      URL ever tracked is finished. */
  lemma CountCoversOpen(s: State)
    requires NothingLost(s)
    ensures |OpenUrls(s)| <= UnprocessedCount(s)
    ensures UnprocessedCount(s) == 0 ==> forall u :: u in s.info ==> Terminal(s.info[u].status)
  {
    var places := Elems(s.queue) + s.retry.Keys + s.index;
    forall u | u in OpenUrls(s) ensures u in places {
      assert Kept(s, u);
    }
    SubsetCard(OpenUrls(s), places);
    UnionCard(Elems(s.queue), s.retry.Keys);
    UnionCard(Elems(s.queue) + s.retry.Keys, s.index);
    ElemsCard(s.queue);
    if UnprocessedCount(s) == 0 {
      forall u | u in s.info ensures Terminal(s.info[u].status) {
        assert Kept(s, u);
      }
    }
  }
}
