/** The worker pool's channels and workers, updated in place: each method is one or more moves of WakeUp. */
module WorkerPool {
  import opened Basics
  import opened FrontierStore
  import opened WakeUp

  lemma {:induction false} MovesThen(p: Pool, moves: seq<Move>, m: Move)
    requires PoolRun(p, moves) && Enabled(PoolEnd(p, moves), m)
    ensures PoolRun(p, moves + [m]) && PoolEnd(p, moves + [m]) == Next(PoolEnd(p, moves), m)
    decreases |moves|
  {
    if moves == [] {
      assert moves + [m] == [m] && [m][1..] == [];
    } else {
      assert (moves + [m])[1..] == moves[1..] + [m];
      MovesThen(Next(p, moves[0]), moves[1..], m);
    }
  }

  /** The moves of one undisturbed round of the fan-out loop. */
  lemma {:induction false} SendsRun(p: Pool, n: nat) returns (moves: seq<Move>)
    requires p.fan.Idle? && p.token && n <= |p.slots|
    ensures PoolRun(p, moves)
    ensures PoolEnd(p, moves) ==
            p.(token := false, fan := Sending(n), slots := seq(n, _ => true) + p.slots[n..])
    decreases n
  {
    if n == 0 {
      moves := [FanReceive];
      assert moves[1..] == [];
      assert seq(0, _ => true) + p.slots[0..] == p.slots;
    } else {
      moves := SendsRun(p, n - 1);
      var before := PoolEnd(p, moves);
      MovesThen(p, moves, FanSend);
      moves := moves + [FanSend];
      assert before.slots[n - 1 := true] == seq(n, _ => true) + p.slots[n..];
    }
  }

  lemma RoundRun(p: Pool) returns (moves: seq<Move>)
    requires p.fan.Idle? && p.token
    ensures PoolRun(p, moves)
    ensures PoolEnd(p, moves) == p.(token := false, slots := seq(|p.slots|, _ => true))
  {
    moves := SendsRun(p, |p.slots|);
    MovesThen(p, moves, FanDone);
    moves := moves + [FanDone];
    assert seq(|p.slots|, _ => true) + p.slots[|p.slots|..] == seq(|p.slots|, _ => true);
  }

  class WorkerPool {
    const urls: Frontier
    var events: seq<Payload>
    var token: bool
    var fan: Fan
    var slots: seq<bool>
    var phases: seq<Phase>

    ghost function St(): Pool
      reads this, urls
    {
      Pool(urls.St(), events, token, fan, slots, phases)
    }

    constructor (urls: Frontier, workers: nat)
      ensures this.urls == urls && St() == StartPool(urls.St(), workers)
    {
      this.urls := urls;
      events, token, fan := [], false, Idle;
      slots, phases := seq(workers, _ => false), seq(workers, _ => Busy);
    }

    /** Subscribe's loop, one message: anything but lpush is skipped, and a token already there is kept. */
    method Deliver()
      requires events != []
      modifies this
      ensures St() == Next(old(St()), Move.Deliver)
    {
      var payload := events[0];
      events := events[1..];
      if payload.LPushed? && !token {
        token := true;
      }
    }

    /** One round of fanOut, undisturbed: it takes the token and leaves every worker's slot full, keeping
        those that were full. */
    method FanOut() returns (ghost moves: seq<Move>)
      requires token && fan.Idle?
      modifies this`token, this`fan, this`slots
      ensures PoolRun(old(St()), moves) && PoolEnd(old(St()), moves) == St()
      ensures St() == old(St()).(token := false, slots := seq(|old(slots)|, _ => true))
    {
      moves := RoundRun(St());
      token, fan := false, Sending(0);
      var n := |slots|;
      for i := 0 to n
        invariant |slots| == n && forall k :: 0 <= k < i ==> slots[k]
        invariant St() == old(St()).(token := false, fan := fan, slots := slots)
      {
        fan := Sending(i);
        if !slots[i] {
          slots := slots[i := true];
        }
      }
      fan := Idle;
      assert slots == seq(n, _ => true);
    }

    /** Execute found the queue empty: it reads the metadata and works out how long to sleep. */
    method ReadMetadata(i: nat, now: int, jitter: int, later: int) returns (ghost earliest: Option<int>)
      requires i < |phases| && phases[i].SawEmpty?
      modifies this
      ensures Enabled(old(St()), Move.ReadMetadata(i, earliest, now, jitter, later))
      ensures St() == Next(old(St()), Move.ReadMetadata(i, earliest, now, jitter, later))
    {
      var count, first := urls.GetCrawlMetadata();
      earliest := first;
      var sleepFor := 0;
      if count > 0 {
        var retryAt := now + jitter;
        if first.Some? {
          retryAt := first.value * 1_000_000;
        }
        sleepFor := retryAt - later;
      }
      phases := phases[i := Decided(sleepFor, count > 0)];
    }

    /** Worker.run with a command in hand: a positive sleep races the timer against the slot, any other
        waits for the slot alone. */
    method StartWait(i: nat)
      requires i < |phases| && phases[i].Decided?
      modifies this
      ensures St() == Next(old(St()), Move.StartWait(i))
    {
      if phases[i].sleepFor > 0 {
        phases := phases[i := Blocked(true, phases[i].work)];
      } else {
        phases := phases[i := Blocked(false, phases[i].work)];
      }
    }

    /** Worker.run's select while waiting: the slot, or the timer if it runs and has `expired`. When both are ready
        the select picks either, here by `preferTimer`; the token of a slot not picked stays. False when neither is
        ready. */
    method Wake(i: nat, expired: bool, preferTimer: bool) returns (woken: bool)
      requires i < |phases| && i < |slots| && phases[i].Blocked?
      modifies this
      ensures var timer, slot := expired && old(phases[i].timed), old(slots[i]);
              && (woken <==> timer || slot)
              && St() == if timer && (preferTimer || !slot) then Next(old(St()), TimerFires(i))
                         else if slot then Next(old(St()), Notified(i))
                         else old(St())
    {
      if phases[i].timed && expired && (preferTimer || !slots[i]) {
        phases := phases[i := Busy];
        return true;
      }
      if slots[i] {
        slots := slots[i := false];
        phases := phases[i := Busy];
        return true;
      }
      return false;
    }
  }
}
