/** How sleeping workers learn of new URLs: an lpush event passes through Subscribe's one-slot channel, the
    fan-out loop and one slot per worker, and every hop drops what does not fit. */
module WakeUp {
  import opened Basics
  import opened Backoff
  import opened FrontierState
  import opened FrontierStore
  import opened FrontierRuns
  import opened Leases

  /** Keyspace events of the main list: lpush, or something else (the rpop of a take-on). */
  datatype Payload = LPushed | Other

  datatype Fan = Idle | Sending(next: nat)

  /** A worker: inside Execute; told that the queue is empty; holding a command to wait (`work` records
      whether the metadata it read said there was unprocessed work); or blocked in its select. */
  datatype Phase =
    | Busy
    | SawEmpty
    | Decided(sleepFor: int, work: bool)
    | Blocked(timed: bool, work: bool)

  datatype Pool = Pool(
    f: State, events: seq<Payload>, token: bool, fan: Fan, slots: seq<bool>, phases: seq<Phase>)

  datatype Move =
    | Script(step: Step)
    | FindEmpty(i: nat)
    | ReadMetadata(i: nat, earliest: Option<int>, now: int, jitter: int, later: int)
    | StartWait(i: nat)
    | Timeout(i: nat)
    | TimerFires(i: nat)
    | Notified(i: nat)
    | Deliver
    | FanReceive
    | FanSend
    | FanDone

  /** A pool that has just been started on a frontier, which may have a past of its own. */
  function StartPool(s: State, n: nat): Pool {
    Pool(s, [], false, Idle, seq(n, _ => false), seq(n, _ => Busy))
  }

  function Events(s: State, step: Step): seq<Payload> {
    seq(|Arrivals(s, step)|, _ => LPushed) + seq(|Departures(s, step)|, _ => Other)
  }

  /** The second value of the metadata script. */
  ghost predicate IsEarliest(retry: map<Url, int>, earliest: Option<int>) {
    && (earliest.None? <==> retry == map[])
    && (earliest.Some? ==>
          && (exists u :: u in retry && retry[u] == earliest.value)
          && forall u :: u in retry ==> earliest.value <= retry[u])
  }

  /** ParseCmd.SleepFor for an empty queue: nothing when all is processed; otherwise the time from `later`
      until the earliest retry or, without one, until a jitter after `now`. It may come out negative. */
  function SleepFor(count: nat, earliest: Option<int>, now: int, jitter: int, later: int): int {
    if count == 0 then 0
    else (match earliest
          case Some(ms) => ms * 1_000_000
          case None => now + jitter) - later
  }

  /** rand.N(100 * time.Millisecond): from 0 up to, not including, this. */
  const MAX_JITTER := 100_000_000

  /** With work left and a retry waiting, a sleep that starts at `later` ends when that retry is due, so the enqueue
      script finds it, and not a nanosecond earlier: at every earlier millisecond the script finds nothing. */
  lemma SleepReachesRetry(
    retry: map<Url, int>, m: int, count: nat, now: int, jitter: int, later: int, ms: int, due: seq<Url>)
    requires count > 0 && IsEarliest(retry, Some(m))
    ensures var t := later + SleepFor(count, Some(m), now, jitter, later);
            && Milli(t) == m && Milli(t - 1) < m
            && (IsDue(retry, Milli(t), due) ==> due != [])
            && (ms < Milli(t) && IsDue(retry, ms, due) ==> due == [])
  {
    var u :| u in retry && retry[u] == m;
    if IsDue(retry, m, due) {
      assert u in due;
    }
    SomeElem(due);
  }

  /** With work left and no retry waiting, the worker wakes within the jitter after `now`, and not before it. */
  lemma SleepWithinJitter(count: nat, now: int, jitter: int, later: int)
    requires count > 0 && 0 <= jitter < MAX_JITTER
    ensures now <= later + SleepFor(count, None, now, jitter, later) < now + 100_000_000
  {
  }

  ghost predicate Enabled(p: Pool, m: Move) {
    match m
    case Script(step) => Issued(p.f, step)
    case FindEmpty(i) => i < |p.phases| && p.phases[i].Busy? && p.f.queue == []
    case ReadMetadata(i, earliest, _, _, _) =>
      i < |p.phases| && p.phases[i].SawEmpty? && IsEarliest(p.f.retry, earliest)
    case StartWait(i) => i < |p.phases| && p.phases[i].Decided?
    case Timeout(i) => i < |p.phases| && !p.phases[i].Blocked?
    case TimerFires(i) => i < |p.phases| && p.phases[i].Blocked? && p.phases[i].timed
    case Notified(i) => i < |p.phases| && i < |p.slots| && p.phases[i].Blocked? && p.slots[i]
    case Deliver => p.events != []
    case FanReceive => p.fan.Idle? && p.token
    case FanSend => p.fan.Sending? && p.fan.next < |p.slots|
    case FanDone => p.fan.Sending? && p.fan.next >= |p.slots|
  }

  /** A script runs, and Redis publishes its keyspace events. */
  function Announced(p: Pool, step: Step): Pool {
    p.(f := Apply(p.f, step), events := p.events + Events(p.f, step))
  }

  ghost function Next(p: Pool, m: Move): Pool
    requires Enabled(p, m)
  {
    match m
    case Script(step) => Announced(p, step)
    case FindEmpty(i) => p.(phases := p.phases[i := SawEmpty])
    case ReadMetadata(i, earliest, now, jitter, later) =>
      var count := UnprocessedCount(p.f);
      p.(phases := p.phases[i := Decided(SleepFor(count, earliest, now, jitter, later), count > 0)])
    case StartWait(i) => p.(phases := p.phases[i := Blocked(p.phases[i].sleepFor > 0, p.phases[i].work)])
    case Timeout(i) => p.(phases := p.phases[i := Busy])
    case TimerFires(i) => p.(phases := p.phases[i := Busy])
    case Notified(i) => p.(phases := p.phases[i := Busy], slots := p.slots[i := false])
    case Deliver => p.(events := p.events[1..], token := p.token || p.events[0].LPushed?)
    case FanReceive => p.(token := false, fan := Sending(0))
    case FanSend => p.(slots := p.slots[p.fan.next := true], fan := Sending(p.fan.next + 1))
    case FanDone => p.(fan := Idle)
  }

  ghost predicate PoolRun(p: Pool, moves: seq<Move>)
    decreases |moves|
  {
    moves == [] || (Enabled(p, moves[0]) && PoolRun(Next(p, moves[0]), moves[1..]))
  }

  ghost function PoolEnd(p: Pool, moves: seq<Move>): Pool
    requires PoolRun(p, moves)
    decreases |moves|
  {
    if moves == [] then p else PoolEnd(Next(p, moves[0]), moves[1..])
  }

  // ----- no lost wake-up -----

  /** A wake-up for worker i is on its way. */
  ghost predicate InFlight(p: Pool, i: nat) {
    || LPushed in p.events
    || p.token
    || (p.fan.Sending? && p.fan.next <= i)
    || (i < |p.slots| && p.slots[i])
  }

  ghost predicate Shaped(p: Pool) {
    |p.slots| == |p.phases|
  }

  ghost predicate NoLostWakeUp(p: Pool) {
    forall i :: 0 <= i < |p.phases| && !p.phases[i].Busy? && p.f.queue != [] ==> InFlight(p, i)
  }

  /** What is on its way stays on its way until the worker itself takes it. */
  lemma InFlightStays(p: Pool, m: Move, i: nat)
    requires Enabled(p, m) && Shaped(p) && i < |p.phases| && InFlight(p, i)
    ensures InFlight(Next(p, m), i) || Next(p, m).phases[i].Busy?
  {
    if m.Deliver? {
      assert p.events == [p.events[0]] + p.events[1..];
    }
  }

  lemma ScriptAnnounces(p: Pool, step: Step)
    requires Issued(p.f, step) && p.f.queue == [] && Apply(p.f, step).queue != []
    ensures LPushed in Next(p, Script(step)).events
  {
    assert Arrivals(p.f, step) != [] by {
      if step.Enqueued? && step.due == [] {
        NothingDue(p.f, Milli(step.at));
      }
    }
    assert Events(p.f, step)[0] == LPushed;
    assert Events(p.f, step)[0] in Events(p.f, step);
  }

  lemma StepWakes(p: Pool, m: Move)
    requires Enabled(p, m) && Shaped(p) && NoLostWakeUp(p)
    ensures Shaped(Next(p, m)) && NoLostWakeUp(Next(p, m))
  {
    var r := Next(p, m);
    forall i | 0 <= i < |r.phases| && !r.phases[i].Busy? && r.f.queue != [] ensures InFlight(r, i) {
      if m.Script? && p.f.queue == [] {
        ScriptAnnounces(p, m.step);
      } else {
        assert !p.phases[i].Busy?;
        InFlightStays(p, m, i);
      }
    }
  }

  lemma {:induction false} RunWakes(p: Pool, moves: seq<Move>)
    requires PoolRun(p, moves) && Shaped(p) && NoLostWakeUp(p)
    ensures Shaped(PoolEnd(p, moves)) && NoLostWakeUp(PoolEnd(p, moves))
    decreases |moves|
  {
    if moves != [] {
      StepWakes(p, moves[0]);
      RunWakes(Next(p, moves[0]), moves[1..]);
    }
  }

  /** Nothing is on its way to anybody. */
  ghost predicate Quiet(p: Pool) {
    LPushed !in p.events && !p.token && p.fan.Idle? && forall i :: 0 <= i < |p.slots| ==> !p.slots[i]
  }

  /** Whatever the frontier held at the start and however the scripts interleave, late callers included: as soon as
      no signal is on its way, a worker that waits, or is about to, waits for an empty queue. */
  lemma WaitingMeansEmpty(s: State, n: nat, moves: seq<Move>, i: nat)
    requires PoolRun(StartPool(s, n), moves) && Quiet(PoolEnd(StartPool(s, n), moves))
    requires i < |PoolEnd(StartPool(s, n), moves).phases| && !PoolEnd(StartPool(s, n), moves).phases[i].Busy?
    ensures PoolEnd(StartPool(s, n), moves).f.queue == []
  {
    RunWakes(StartPool(s, n), moves);
    assert InFlight(PoolEnd(StartPool(s, n), moves), i) ==> false;
  }

  /** Every worker is in its untimed wait and nothing is on its way: without a push nothing happens again. */
  ghost predicate AtRest(p: Pool) {
    Quiet(p) && forall i :: 0 <= i < |p.phases| ==> p.phases[i].Blocked? && !p.phases[i].timed
  }

  // ----- an idle pool has finished -----

  ghost predicate AllFinished(s: State) {
    forall u :: u in s.info ==> Terminal(s.info[u].status)
  }

  /** About to wait, or waiting, after reading that nothing is unprocessed. */
  predicate Resting(ph: Phase) {
    (ph.Decided? || ph.Blocked?) && !ph.work
  }

  ghost predicate Attended(p: Pool) {
    || (exists i :: 0 <= i < |p.phases| && !Resting(p.phases[i]))
    || AllFinished(p.f)
    || (forall i :: 0 <= i < |p.phases| ==> InFlight(p, i))
  }

  ghost predicate LeasedMoves(conf: CrawlConfig, p: Pool, clock: int, moves: seq<Move>)
    decreases |moves|
  {
    moves == [] ||
    (&& Enabled(p, moves[0])
     && (moves[0].Script? ==> Leased(conf, p.f, clock, moves[0].step))
     && LeasedMoves(conf, Next(p, moves[0]), if moves[0].Script? then moves[0].step.at else clock, moves[1..]))
  }

  lemma {:induction false} LeasedMovesRun(conf: CrawlConfig, p: Pool, clock: int, moves: seq<Move>)
    requires LeasedMoves(conf, p, clock, moves)
    ensures PoolRun(p, moves)
    decreases |moves|
  {
    if moves != [] {
      LeasedMovesRun(conf, Next(p, moves[0]), if moves[0].Script? then moves[0].step.at else clock, moves[1..]);
    }
  }

  /** Everything is finished exactly when nothing lies anywhere. */
  lemma FinishedIffEmpty(s: State)
    requires Exclusive(s)
    ensures AllFinished(s) <==> UnprocessedCount(s) == 0
    ensures AllFinished(s) ==> s.queue == [] && s.index == {} && s.retry.Keys == {}
  {
    CountExact(s);
    assert AllFinished(s) <==> OpenUrls(s) == {} by {
      assert forall u :: u in s.info ==> (u in OpenUrls(s) <==> !Terminal(s.info[u].status));
    }
    assert OpenUrls(s) == {} <==> |OpenUrls(s)| == 0;
    assert |s.retry| == |s.retry.Keys|;
  }

  /** When everything is finished, only a push starts anything new, and it is announced. */
  lemma FinishedUntilPush(conf: CrawlConfig, p: Pool, clock: int, step: Step)
    requires Exclusive(p.f) && AllFinished(p.f) && Leased(conf, p.f, clock, step)
    ensures AllFinished(Apply(p.f, step)) || LPushed in Next(p, Script(step)).events
  {
    FinishedIffEmpty(p.f);
    match step
    case Push(_, u, _) =>
      if u !in p.f.info {
        assert Events(p.f, step)[0] == LPushed;
        assert Events(p.f, step)[0] in Events(p.f, step);
      }
    case Enqueued(at, due) =>
      assert forall u :: u in due ==> u in p.f.retry.Keys;
      SomeElem(due);
      NothingDue(p.f, Milli(at));
    case _ =>
  }

  lemma ScriptAttended(conf: CrawlConfig, p: Pool, clock: int, step: Step)
    requires Exclusive(p.f) && Leased(conf, p.f, clock, step) && Shaped(p) && Attended(p)
    ensures Attended(Next(p, Script(step)))
  {
    var r := Next(p, Script(step));
    if i :| 0 <= i < |p.phases| && !Resting(p.phases[i]) {
      assert !Resting(r.phases[i]);
    } else if AllFinished(p.f) {
      FinishedUntilPush(conf, p, clock, step);
    } else {
      forall i | 0 <= i < |r.phases| ensures InFlight(r, i) {
        assert InFlight(p, i);
      }
    }
  }

  lemma SignalAttended(p: Pool, m: Move)
    requires Enabled(p, m) && Shaped(p) && Attended(p) && Exclusive(p.f) && !m.Script?
    ensures Attended(Next(p, m))
  {
    var r := Next(p, m);
    if m.FindEmpty? || m.Timeout? || m.TimerFires? || m.Notified? {
      assert !Resting(r.phases[m.i]);
    } else if m.ReadMetadata? {
      if UnprocessedCount(p.f) == 0 {
        FinishedIffEmpty(p.f);
      } else {
        assert !Resting(r.phases[m.i]);
      }
    } else if i :| 0 <= i < |p.phases| && !Resting(p.phases[i]) {
      assert !Resting(r.phases[i]);
    } else if !AllFinished(p.f) {
      forall i | 0 <= i < |r.phases| ensures InFlight(r, i) {
        assert InFlight(p, i) && Resting(p.phases[i]);
        InFlightStays(p, m, i);
      }
    }
  }

  lemma {:induction false} RunAttended(conf: CrawlConfig, p: Pool, clock: int, moves: seq<Move>)
    requires LeasedMoves(conf, p, clock, moves) && Exclusive(p.f) && Shaped(p) && Attended(p)
    ensures PoolRun(p, moves)
    ensures Shaped(PoolEnd(p, moves)) && Exclusive(PoolEnd(p, moves).f) && Attended(PoolEnd(p, moves))
    decreases |moves|
  {
    if moves != [] {
      var m := moves[0];
      if m.Script? {
        LeasedIsSafe(conf, p.f, clock, m.step);
        ExclusiveIffSafe(p.f, m.step);
        ScriptAttended(conf, p, clock, m.step);
      } else {
        SignalAttended(p, m);
      }
      RunAttended(conf, Next(p, m), if m.Script? then m.step.at else clock, moves[1..]);
    }
  }

  /** Some worker waits without a timer although the metadata it read said there was work left: its sleep
      came out as zero or less. */
  ghost predicate Overslept(p: Pool) {
    exists i :: 0 <= i < |p.phases| && p.phases[i] == Blocked(false, true)
  }

  /** If every worker is in its untimed wait and no signal is on its way, then either the crawl is over,
      every tracked URL having a terminal status, or some worker overslept. The frontier may hold the work of an
      earlier pool, abandoned URLs included. */
  lemma IdleMeansFinished(conf: CrawlConfig, s: State, n: nat, clock: int, moves: seq<Move>)
    requires n > 0 && Exclusive(s) && LeasedMoves(conf, StartPool(s, n), clock, moves)
    ensures PoolRun(StartPool(s, n), moves)
    ensures var p := PoolEnd(StartPool(s, n), moves);
            AtRest(p) ==> (AllFinished(p.f) && UnprocessedCount(p.f) == 0) || Overslept(p)
  {
    var q := StartPool(s, n);
    LeasedMovesRun(conf, q, clock, moves);
    assert !Resting(q.phases[0]);
    RunAttended(conf, q, clock, moves);
    var p := PoolEnd(q, moves);
    PhasesKept(q, moves);
    if AtRest(p) && !Overslept(p) {
      assert Resting(p.phases[0]);
      assert !InFlight(p, 0);
      FinishedIffEmpty(p.f);
    }
  }

  lemma {:induction false} PhasesKept(p: Pool, moves: seq<Move>)
    requires PoolRun(p, moves)
    ensures |PoolEnd(p, moves).phases| == |p.phases|
    decreases |moves|
  {
    if moves != [] {
      PhasesKept(Next(p, moves[0]), moves[1..]);
    }
  }

  /** When a worker reads that work is left, the time it aims at has not passed by the time it computes how long to
      sleep. */
  ghost predicate AimsAhead(p: Pool, m: Move) {
    m.ReadMetadata? && UnprocessedCount(p.f) > 0 ==>
      SleepFor(UnprocessedCount(p.f), m.earliest, m.now, m.jitter, m.later) > 0
  }

  /** The condition on a run under which nobody oversleeps. */
  ghost predicate SleepsAhead(p: Pool, moves: seq<Move>)
    decreases |moves|
  {
    moves == [] ||
    (Enabled(p, moves[0]) && AimsAhead(p, moves[0]) && SleepsAhead(Next(p, moves[0]), moves[1..]))
  }

  ghost predicate Alert(p: Pool) {
    forall i :: 0 <= i < |p.phases| ==>
      && (p.phases[i].Decided? && p.phases[i].work ==> p.phases[i].sleepFor > 0)
      && p.phases[i] != Blocked(false, true)
  }

  lemma MoveAlert(p: Pool, m: Move)
    requires Enabled(p, m) && AimsAhead(p, m) && Alert(p)
    ensures Alert(Next(p, m))
  {
  }

  lemma {:induction false} SleepsAheadAlert(p: Pool, moves: seq<Move>)
    requires SleepsAhead(p, moves) && Alert(p)
    ensures PoolRun(p, moves) && Alert(PoolEnd(p, moves))
    decreases |moves|
  {
    if moves != [] {
      MoveAlert(p, moves[0]);
      SleepsAheadAlert(Next(p, moves[0]), moves[1..]);
    }
  }

  lemma IdleMeansFinishedWhenAhead(conf: CrawlConfig, s: State, n: nat, clock: int, moves: seq<Move>)
    requires n > 0 && Exclusive(s)
    requires LeasedMoves(conf, StartPool(s, n), clock, moves) && SleepsAhead(StartPool(s, n), moves)
    ensures PoolRun(StartPool(s, n), moves)
    ensures var p := PoolEnd(StartPool(s, n), moves);
            AtRest(p) ==> AllFinished(p.f) && UnprocessedCount(p.f) == 0
  {
    IdleMeansFinished(conf, s, n, clock, moves);
    SleepsAheadAlert(StartPool(s, n), moves);
  }

  /** The last worker to decide, exactly: the pool it leaves behind can only be at rest with everything
      finished if and only if the metadata counted nothing or the sleep came out positive. */
  lemma RestSoundIffAhead(p: Pool, i: nat, earliest: Option<int>, now: int, jitter: int, later: int)
    requires Exclusive(p.f) && Shaped(p) && Quiet(p) && i < |p.phases| && p.phases[i].SawEmpty?
    requires IsEarliest(p.f.retry, earliest)
    requires forall k :: 0 <= k < |p.phases| && k != i ==> p.phases[k].Blocked? && !p.phases[k].timed
    ensures var decided := Next(p, ReadMetadata(i, earliest, now, jitter, later));
            var r := Next(decided, StartWait(i));
            (AtRest(r) ==> AllFinished(r.f)) <==>
            UnprocessedCount(p.f) == 0 || SleepFor(UnprocessedCount(p.f), earliest, now, jitter, later) > 0
  {
    FinishedIffEmpty(p.f);
    var r := Next(Next(p, ReadMetadata(i, earliest, now, jitter, later)), StartWait(i));
    assert r.phases[i].Blocked?;
    assert forall k :: 0 <= k < |p.phases| && k != i ==> r.phases[k] == p.phases[k];
  }

  /** A worker that reads the metadata goes on to a timed wait exactly when something is counted and the time it aims
      at, the earliest retry or else the jitter after `now`, still lies ahead. */
  lemma TimedIffAhead(p: Pool, i: nat, earliest: Option<int>, now: int, jitter: int, later: int)
    requires Enabled(p, ReadMetadata(i, earliest, now, jitter, later))
    ensures var r := Next(Next(p, ReadMetadata(i, earliest, now, jitter, later)), StartWait(i));
            r.phases[i].Blocked? &&
            (r.phases[i].timed <==>
               && (p.f.queue != [] || p.f.retry != map[] || p.f.index != {})
               && later < if earliest.Some? then earliest.value * 1_000_000 else now + jitter)
  {
    CountedIff(p.f);
  }

  lemma CountedIff(s: State)
    ensures UnprocessedCount(s) > 0 <==> s.queue != [] || s.retry != map[] || s.index != {}
  {
    assert |s.retry| == |s.retry.Keys|;
  }

  // ----- wake-ups come from pushes -----

  function LPushes(events: seq<Payload>): nat {
    if events == [] then 0 else (if events[0].LPushed? then 1 else 0) + LPushes(events[1..])
  }

  lemma {:induction false} LPushesConcat(a: seq<Payload>, b: seq<Payload>)
    ensures LPushes(a + b) == LPushes(a) + LPushes(b)
  {
    if a == [] {
      assert a + b == b;
    } else {
      assert (a + b)[1..] == a[1..] + b;
      LPushesConcat(a[1..], b);
    }
  }

  lemma {:induction false} LPushesAll(n: nat, payload: Payload)
    ensures LPushes(seq(n, _ => payload)) == if payload.LPushed? then n else 0
  {
    if n > 0 {
      assert seq(n, _ => payload)[1..] == seq(n - 1, _ => payload);
      LPushesAll(n - 1, payload);
    }
  }

  /** How many more times worker i can be woken by what has been announced. */
  function Credit(p: Pool, i: nat): nat {
    LPushes(p.events) + (if p.token then 1 else 0) + (if p.fan.Sending? && p.fan.next <= i then 1 else 0) +
    (if i < |p.slots| && p.slots[i] then 1 else 0)
  }

  function PushedBy(p: Pool, m: Move): nat {
    if m.Script? then |Arrivals(p.f, m.step)| else 0
  }

  lemma MoveCredit(p: Pool, m: Move, i: nat)
    requires Enabled(p, m)
    ensures (if m == Notified(i) then 1 else 0) + Credit(Next(p, m), i) <= Credit(p, i) + PushedBy(p, m)
  {
    if m.Script? {
      LPushesConcat(p.events, Events(p.f, m.step));
      LPushesConcat(seq(|Arrivals(p.f, m.step)|, _ => LPushed), seq(|Departures(p.f, m.step)|, _ => Other));
      LPushesAll(|Arrivals(p.f, m.step)|, LPushed);
      LPushesAll(|Departures(p.f, m.step)|, Other);
    }
  }

  ghost function AllPushed(p: Pool, moves: seq<Move>): nat
    requires PoolRun(p, moves)
    decreases |moves|
  {
    if moves == [] then 0 else PushedBy(p, moves[0]) + AllPushed(Next(p, moves[0]), moves[1..])
  }

  function Wakes(moves: seq<Move>, i: nat): nat {
    if moves == [] then 0 else (if moves[0] == Notified(i) then 1 else 0) + Wakes(moves[1..], i)
  }

  lemma {:induction false} RunCredit(p: Pool, moves: seq<Move>, i: nat)
    requires PoolRun(p, moves)
    ensures Wakes(moves, i) + Credit(PoolEnd(p, moves), i) <= Credit(p, i) + AllPushed(p, moves)
    decreases |moves|
  {
    if moves != [] {
      MoveCredit(p, moves[0], i);
      RunCredit(Next(p, moves[0]), moves[1..], i);
    }
  }

  /** Nobody is woken by anything but a push: from the start of a pool, a worker is woken at most as often as URLs
      have joined the main list, and without a push no signal is ever on its way. */
  lemma WakeUpsArePushes(s: State, n: nat, moves: seq<Move>, i: nat)
    requires PoolRun(StartPool(s, n), moves) && i < n
    ensures Wakes(moves, i) <= AllPushed(StartPool(s, n), moves)
    ensures AllPushed(StartPool(s, n), moves) == 0 ==> !InFlight(PoolEnd(StartPool(s, n), moves), i)
  {
    RunCredit(StartPool(s, n), moves, i);
    NoLPushes(PoolEnd(StartPool(s, n), moves).events);
  }

  lemma {:induction false} NoLPushes(events: seq<Payload>)
    ensures LPushed in events <==> LPushes(events) > 0
  {
    if events != [] {
      NoLPushes(events[1..]);
      assert events == [events[0]] + events[1..];
    }
  }

  // ----- oversleeping does happen -----

  /** Moves that lead from p to q in the leased regime with the default configuration, all scripts at time 0. */
  ghost predicate Leads(p: Pool, moves: seq<Move>, q: Pool)
    decreases |moves|
  {
    if moves == [] then p == q else Possible(p, moves[0]) && Leads(Next(p, moves[0]), moves[1..], q)
  }

  ghost predicate Possible(p: Pool, m: Move) {
    Enabled(p, m) && (m.Script? ==> m.step.at == 0 && Leased(DEFAULTS, p.f, 0, m.step))
  }

  lemma {:induction false} LeadsRun(p: Pool, moves: seq<Move>, q: Pool)
    requires Leads(p, moves, q)
    ensures LeasedMoves(DEFAULTS, p, 0, moves) && PoolRun(p, moves) && PoolEnd(p, moves) == q
    decreases |moves|
  {
    if moves != [] {
      LeadsRun(Next(p, moves[0]), moves[1..], q);
    }
  }

  lemma LeadsOne(p: Pool, m: Move, q: Pool)
    requires Possible(p, m) && Next(p, m) == q
    ensures Leads(p, [m], q)
  {
    assert [m][1..] == [];
  }

  lemma {:induction false} LeadsOn(p: Pool, a: seq<Move>, q: Pool, b: seq<Move>, r: Pool)
    requires Leads(p, a, q) && Leads(q, b, r)
    ensures Leads(p, a + b, r)
    decreases |a|
  {
    if a == [] {
      assert a + b == b;
    } else {
      assert (a + b)[1..] == a[1..] + b;
      LeadsOn(Next(p, a[0]), a[1..], q, b, r);
    }
  }

  lemma LeadsThen(p: Pool, moves: seq<Move>, q: Pool, m: Move, r: Pool)
    requires Leads(p, moves, q) && Possible(q, m) && Next(q, m) == r
    ensures Leads(p, moves + [m], r)
  {
    LeadsOne(q, m, r);
    LeadsOn(p, moves, q, [m], r);
  }

  /** The enqueue script that starts every take-on, when no retry is due. */
  const NO_RETRY_DUE := Script(Enqueued(0, []))

  lemma EnqueueNothing(p: Pool)
    requires forall u :: u in p.f.retry ==> p.f.retry[u] > 0
    ensures Possible(p, NO_RETRY_DUE) && Next(p, NO_RETRY_DUE) == p
  {
    NothingDue(p.f, 0);
    assert Events(p.f, NO_RETRY_DUE.step) == [];
    assert p.events + [] == p.events;
  }

  ghost function Retrying(u: Url, w: WorkerId): State {
    RetryUrl(PopUrl(PushUrl(INIT, u, NO_PARENT), w, 0), u, 5_000)
  }

  /** Only a retry is left, at five seconds. */
  ghost predicate OneRetry(f: State) {
    && f.queue == [] && (forall v :: v in f.retry ==> f.retry[v] > 0)
    && IsEarliest(f.retry, Some(5_000)) && UnprocessedCount(f) > 0
  }

  lemma RetryingFacts(u: Url, w: WorkerId)
    ensures OneRetry(Retrying(u, w)) && Retrying(u, w).Is(u, Retry)
  {
    var s := PushUrl(INIT, u, NO_PARENT);
    var t := PopUrl(s, w, 0);
    assert s.queue == [u] && t.queue == [] && u in t.info;
    assert Retrying(u, w).retry == map[u := 5_000];
    assert u in Retrying(u, w).retry;
  }

  /** A pool of n workers, all of them busy, with k slots filled. */
  function Filling(f: State, events: seq<Payload>, token: bool, fan: Fan, n: nat, k: nat): Pool {
    Pool(f, events, token, fan, seq(n, i => i < k), seq(n, _ => Busy))
  }

  lemma PushMoves(p: Pool, u: Url)
    requires p.f == INIT && p.events == []
    ensures var m := Script(Push(0, u, NO_PARENT));
            Possible(p, m) && Next(p, m) == p.(f := PushUrl(INIT, u, NO_PARENT), events := [LPushed])
  {
    assert Events(INIT, Push(0, u, NO_PARENT)) == [LPushed];
  }

  lemma PopMoves(p: Pool, u: Url, w: WorkerId)
    requires p.f == PushUrl(INIT, u, NO_PARENT) && p.events == [LPushed]
    ensures var m := Script(Pop(0, w));
            Possible(p, m) && Next(p, m) == p.(f := PopUrl(p.f, w, 0), events := [LPushed, Other])
  {
    assert p.f.queue == [u];
    assert Events(p.f, Pop(0, w)) == [Other];
  }

  lemma RetryMoves(p: Pool, u: Url, w: WorkerId)
    requires p.f == PopUrl(PushUrl(INIT, u, NO_PARENT), w, 0)
    ensures var m := Script(Retried(0, w, u, 5_000));
            Possible(p, m) && Next(p, m) == p.(f := Retrying(u, w))
  {
    assert PushUrl(INIT, u, NO_PARENT).queue == [u];
    assert CalcRetryTime(0, DEFAULTS, 0) == Some(5_000_000_000) by {
      assert Pow2(0) == 1;
    }
    assert Events(p.f, Retried(0, w, u, 5_000)) == [] && p.events + [] == p.events;
  }

  /** A seed is pushed, taken on, and its retry scheduled in five seconds. */
  lemma SchedulesRetry(p: Pool, u: Url, w: WorkerId) returns (moves: seq<Move>)
    requires p.f == INIT && p.events == []
    ensures Leads(p, moves, p.(f := Retrying(u, w), events := [LPushed, Other]))
  {
    var s := PushUrl(INIT, u, NO_PARENT);
    var p1 := p.(f := s, events := [LPushed]);
    var p2 := p.(f := PopUrl(s, w, 0), events := [LPushed, Other]);
    PushMoves(p, u);
    LeadsOne(p, Script(Push(0, u, NO_PARENT)), p1);
    EnqueueNothing(p1);
    LeadsThen(p, [Script(Push(0, u, NO_PARENT))], p1, NO_RETRY_DUE, p1);
    moves := [Script(Push(0, u, NO_PARENT))] + [NO_RETRY_DUE];
    PopMoves(p1, u, w);
    LeadsThen(p, moves, p1, Script(Pop(0, w)), p2);
    moves := moves + [Script(Pop(0, w))];
    RetryMoves(p2, u, w);
    LeadsThen(p, moves, p2, Script(Retried(0, w, u, 5_000)), p2.(f := Retrying(u, w)));
    moves := moves + [Script(Retried(0, w, u, 5_000))];
  }

  /** The announcement is delivered, and the fan-out loop fills the first k slots. */
  lemma {:induction false} Fills(f: State, n: nat, k: nat) returns (moves: seq<Move>)
    requires k <= n
    ensures Leads(Filling(f, [LPushed, Other], false, Idle, n, 0), moves, Filling(f, [], false, Sending(k), n, k))
    decreases k
  {
    var p := Filling(f, [LPushed, Other], false, Idle, n, 0);
    if k == 0 {
      var p1, p2 := Filling(f, [Other], true, Idle, n, 0), Filling(f, [], true, Idle, n, 0);
      LeadsOne(p, Deliver, p1);
      LeadsThen(p, [Deliver], p1, Deliver, p2);
      LeadsThen(p, [Deliver] + [Deliver], p2, FanReceive, Filling(f, [], false, Sending(0), n, 0));
      moves := [Deliver] + [Deliver] + [FanReceive];
    } else {
      moves := Fills(f, n, k - 1);
      var before, after := Filling(f, [], false, Sending(k - 1), n, k - 1), Filling(f, [], false, Sending(k), n, k);
      assert before.slots[k - 1 := true] == after.slots;
      LeadsThen(p, moves, before, FanSend, after);
      moves := moves + [FanSend];
    }
  }

  /** The workers below i sleep without a timer, worker i is as given, and those above it have yet to look. */
  function Row(f: State, n: nat, i: nat, slot: bool, ph: Phase): Pool {
    Pool(f, [], false, Idle,
         seq(n, k => if k < i then false else if k == i then slot else true),
         seq(n, k => if k < i then Blocked(false, true) else if k == i then ph else Busy))
  }

  lemma RowMoves(f: State, n: nat, i: nat, slot: bool, ph: Phase, slot': bool, ph': Phase)
    requires i < n
    ensures var p, q := Row(f, n, i, slot, ph), Row(f, n, i, slot', ph');
            p.slots[i := slot'] == q.slots && p.phases[i := ph'] == q.phases && p.slots[i] == slot && p.phases[i] == ph
  {
  }

  /** Worker i finds the queue empty and reads the retry time, but works out how long to sleep only when that time
      has come: so it waits for a push. */
  lemma SleepsTooLate(f: State, n: nat, i: nat, slot: bool) returns (moves: seq<Move>)
    requires i < n && OneRetry(f)
    ensures Leads(Row(f, n, i, slot, Busy), moves, Row(f, n, i, slot, Blocked(false, true)))
  {
    var late := ReadMetadata(i, Some(5_000), 0, 0, 5_000_000_000);
    var p, e := Row(f, n, i, slot, Busy), Row(f, n, i, slot, SawEmpty);
    var d, q := Row(f, n, i, slot, Decided(0, true)), Row(f, n, i, slot, Blocked(false, true));
    EnqueueNothing(p);
    LeadsOne(p, NO_RETRY_DUE, p);
    RowMoves(f, n, i, slot, Busy, slot, SawEmpty);
    LeadsThen(p, [NO_RETRY_DUE], p, FindEmpty(i), e);
    RowMoves(f, n, i, slot, SawEmpty, slot, Decided(0, true));
    LeadsThen(p, [NO_RETRY_DUE] + [FindEmpty(i)], e, late, d);
    RowMoves(f, n, i, slot, Decided(0, true), slot, Blocked(false, true));
    moves := [NO_RETRY_DUE] + [FindEmpty(i)] + [late];
    LeadsThen(p, moves, d, StartWait(i), q);
    moves := moves + [StartWait(i)];
  }

  lemma RowNext(f: State, n: nat, i: nat)
    requires i < n
    ensures Row(f, n, i, false, Blocked(false, true)) == Row(f, n, i + 1, true, Busy)
  {
  }

  lemma RowNotified(f: State, n: nat, i: nat)
    requires i < n
    ensures Possible(Row(f, n, i, true, Blocked(false, true)), Notified(i))
    ensures Next(Row(f, n, i, true, Blocked(false, true)), Notified(i)) == Row(f, n, i, false, Busy)
  {
    RowMoves(f, n, i, true, Blocked(false, true), false, Busy);
  }

  /** It goes to sleep, is woken by the announcement, finds nothing new, and goes to sleep again. */
  lemma Settles(f: State, n: nat, i: nat) returns (moves: seq<Move>)
    requires i < n && OneRetry(f)
    ensures Leads(Row(f, n, i, true, Busy), moves, Row(f, n, i + 1, true, Busy))
  {
    var p, a := Row(f, n, i, true, Busy), Row(f, n, i, true, Blocked(false, true));
    moves := SleepsTooLate(f, n, i, true);
    RowNotified(f, n, i);
    LeadsThen(p, moves, a, Notified(i), Row(f, n, i, false, Busy));
    moves := moves + [Notified(i)];
    var again := SleepsTooLate(f, n, i, false);
    LeadsOn(p, moves, Row(f, n, i, false, Busy), again, Row(f, n, i, false, Blocked(false, true)));
    RowNext(f, n, i);
    moves := moves + again;
  }

  lemma SettleNext(f: State, n: nat, k: nat, p: Pool, most: seq<Move>) returns (moves: seq<Move>)
    requires k < n && OneRetry(f) && Leads(p, most, Row(f, n, k, true, Busy))
    ensures Leads(p, moves, Row(f, n, k + 1, true, Busy))
  {
    var last := Settles(f, n, k);
    LeadsOn(p, most, Row(f, n, k, true, Busy), last, Row(f, n, k + 1, true, Busy));
    moves := most + last;
  }

  lemma {:induction false} SettleAll(f: State, n: nat, k: nat) returns (moves: seq<Move>)
    requires k <= n && OneRetry(f)
    ensures Leads(Row(f, n, 0, true, Busy), moves, Row(f, n, k, true, Busy))
    decreases k
  {
    moves := [];
    if k > 0 {
      var most := SettleAll(f, n, k - 1);
      moves := SettleNext(f, n, k - 1, Row(f, n, 0, true, Busy), most);
    }
  }

  lemma Filled(f: State, n: nat)
    ensures Possible(Filling(f, [], false, Sending(n), n, n), FanDone)
    ensures Next(Filling(f, [], false, Sending(n), n, n), FanDone) == Row(f, n, 0, true, Busy)
  {
    assert Filling(f, [], false, Sending(n), n, n).slots == Row(f, n, 0, true, Busy).slots;
    assert Filling(f, [], false, Sending(n), n, n).phases == Row(f, n, 0, true, Busy).phases;
  }

  /** From the announcement of a seed whose retry is scheduled to a pool in which every worker sleeps. */
  lemma AllSettle(f: State, n: nat) returns (moves: seq<Move>)
    requires OneRetry(f)
    ensures Leads(Filling(f, [LPushed, Other], false, Idle, n, 0), moves, Row(f, n, n, true, Busy))
  {
    var p, filled := Filling(f, [LPushed, Other], false, Idle, n, 0), Filling(f, [], false, Sending(n), n, n);
    moves := Fills(f, n, n);
    Filled(f, n);
    LeadsThen(p, moves, filled, FanDone, Row(f, n, 0, true, Busy));
    moves := moves + [FanDone];
    var settle := SettleAll(f, n, n);
    LeadsOn(p, moves, Row(f, n, 0, true, Busy), settle, Row(f, n, n, true, Busy));
    moves := moves + settle;
  }

  lemma RowRests(f: State, n: nat)
    ensures var p := Row(f, n, n, true, Busy);
            && AtRest(p) && |p.phases| == n && (forall i :: 0 <= i < n ==> p.phases[i] == Blocked(false, true))
  {
  }

  /** So the exception in IdleMeansFinished is real: with the default configuration and any number of workers, a
      leased run ends with the pool at rest and a URL still waiting for its retry. */
  lemma IdleWithWorkLeft(u: Url, w: WorkerId, n: nat) returns (moves: seq<Move>)
    ensures LeasedMoves(DEFAULTS, StartPool(INIT, n), 0, moves) && PoolRun(StartPool(INIT, n), moves)
    ensures var p := PoolEnd(StartPool(INIT, n), moves);
            && AtRest(p) && |p.phases| == n && (forall i :: 0 <= i < n ==> p.phases[i] == Blocked(false, true))
            && p.f.Is(u, Retry)
  {
    var p, f := StartPool(INIT, n), Retrying(u, w);
    RetryingFacts(u, w);
    moves := SchedulesRetry(p, u, w);
    var announced := Filling(f, [LPushed, Other], false, Idle, n, 0);
    assert p.(f := f, events := [LPushed, Other]) == announced by {
      assert p.slots == announced.slots;
    }
    var rest := AllSettle(f, n);
    LeadsOn(p, moves, announced, rest, Row(f, n, n, true, Busy));
    moves := moves + rest;
    LeadsRun(p, moves, Row(f, n, n, true, Busy));
    RowRests(f, n);
  }
}
