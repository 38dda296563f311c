/** Parse.Execute: one call, run without interruption, is a sequence of acts of the crawl. */
module ParseUseCase {
  import opened Basics
  import opened Backoff
  import opened FrontierState
  import opened FrontierStore
  import opened FrontierRuns
  import opened PageStore
  import opened Crawl
  import opened LeasedCrawl
  import opened CallEffect
  import WakeUp

  // ----- the acts of a call -----

  /** The call does not give up a URL whose retry it has scheduled. */
  predicate Fair(io: Io) {
    io.retry.Lost? ==> io.cleanup.Unsent?
  }

  ghost predicate Able(conf: CrawlConfig, io: Io, w: World, a: Act) {
    && Enabled(w, a)
    && (ScriptOf(w, a).Some? ==> ScriptOf(w, a).value.at == io.at)
    && (Fair(io) ==> Patient(conf, w, io.at, a))
  }

  /** The acts lead from w to r, and a fair call is patient. */
  ghost predicate Trace(conf: CrawlConfig, io: Io, w: World, acts: seq<Act>, r: World)
    decreases |acts|
  {
    if acts == [] then w == r else Able(conf, io, w, acts[0]) && Trace(conf, io, Do(w, acts[0]), acts[1..], r)
  }

  lemma TraceOne(conf: CrawlConfig, io: Io, w: World, a: Act)
    requires Able(conf, io, w, a)
    ensures Trace(conf, io, w, [a], Do(w, a))
  {
    assert [a][1..] == [];
  }

  lemma TraceHead(conf: CrawlConfig, io: Io, w: World, acts: seq<Act>, r: World)
    requires acts != [] && Trace(conf, io, w, acts, r)
    ensures Able(conf, io, w, acts[0]) && Trace(conf, io, Do(w, acts[0]), acts[1..], r)
  {
  }

  lemma TraceCons(conf: CrawlConfig, io: Io, w: World, a: Act, rest: seq<Act>, r: World)
    requires Able(conf, io, w, a) && Trace(conf, io, Do(w, a), rest, r)
    ensures Trace(conf, io, w, [a] + rest, r)
  {
    assert ([a] + rest)[1..] == rest;
  }

  lemma {:induction false} TraceOn(conf: CrawlConfig, io: Io, w: World, a: seq<Act>, v: World, b: seq<Act>, r: World)
    requires Trace(conf, io, w, a, v) && Trace(conf, io, v, b, r)
    ensures Trace(conf, io, w, a + b, r)
    decreases |a|
  {
    if a == [] {
      assert a + b == b;
    } else {
      TraceHead(conf, io, w, a, v);
      TraceOn(conf, io, Do(w, a[0]), a[1..], v, b, r);
      TraceCons(conf, io, w, a[0], a[1..] + b, r);
      assert [a[0]] + (a[1..] + b) == a + b;
    }
  }

  lemma TraceThen(conf: CrawlConfig, io: Io, w: World, acts: seq<Act>, v: World, a: Act)
    requires Trace(conf, io, w, acts, v) && Able(conf, io, v, a)
    ensures Trace(conf, io, w, acts + [a], Do(v, a))
  {
    TraceOne(conf, io, v, a);
    TraceOn(conf, io, w, acts, v, [a], Do(v, a));
  }

  lemma {:induction false} TraceRuns(conf: CrawlConfig, io: Io, w: World, acts: seq<Act>, r: World)
    requires Trace(conf, io, w, acts, r)
    ensures CrawlRun(w, acts) && CrawlEnd(w, acts) == r
    ensures Fair(io) ==> PatientRun(conf, w, io.at, acts)
    decreases |acts|
  {
    if acts != [] {
      TraceRuns(conf, io, Do(w, acts[0]), acts[1..], r);
    }
  }

  lemma {:induction false} EarlierClock(conf: CrawlConfig, w: World, c: int, later: int, acts: seq<Act>)
    requires PatientRun(conf, w, later, acts) && c <= later
    ensures PatientRun(conf, w, c, acts)
    decreases |acts|
  {
    if acts != [] {
      EarlierClock(conf, Do(w, acts[0]), ClockAfter(w, c, acts[0]), ClockAfter(w, later, acts[0]), acts[1..]);
    }
  }

  lemma RunCons(conf: CrawlConfig, w: World, clock: int, a: Act, rest: seq<Act>)
    requires Enabled(w, a) && CrawlRun(Do(w, a), rest)
    ensures CrawlRun(w, [a] + rest) && CrawlEnd(w, [a] + rest) == CrawlEnd(Do(w, a), rest)
    ensures Patient(conf, w, clock, a) && PatientRun(conf, Do(w, a), ClockAfter(w, clock, a), rest) ==>
              PatientRun(conf, w, clock, [a] + rest)
  {
    assert ([a] + rest)[1..] == rest;
  }

  /** A pipeline of n link pushes is n acts. */
  lemma {:induction false} PushLinksTrace(conf: CrawlConfig, io: Io, w: World, e: nat, n: nat)
    returns (acts: seq<Act>, r: World)
    requires e in w.execs && w.execs[e].phase.Pushing? && w.execs[e].phase.sent == 0
    requires n <= |w.execs[e].phase.links|
    ensures Trace(conf, io, w, acts, r) && r.db == w.db && r.landed == w.landed
    ensures var x := w.execs[e];
            && r.execs == w.execs[e := x.(phase := x.phase.(sent := n))]
            && r.f == PushAll(w.f, Requests(x.phase.links[..n], x.phase.final))
  {
    var x := w.execs[e];
    if n == 0 {
      acts, r := [], w;
      assert w.execs[e := x.(phase := x.phase.(sent := 0))] == w.execs;
    } else {
      var before;
      acts, before := PushLinksTrace(conf, io, w, e, n - 1);
      r := PushedOne(conf, io, before, e, x, n - 1);
      TraceThen(conf, io, w, acts, before, PushLink(e, io.at));
      acts := acts + [PushLink(e, io.at)];
      assert r.execs == w.execs[e := x.(phase := x.phase.(sent := n))];
      RequestsSnoc(x.phase.links, n - 1, x.phase.final);
      PushAllSnoc(w.f, Requests(x.phase.links[..n - 1], x.phase.final), (x.phase.links[n - 1], x.phase.final));
    }
  }

  lemma PushedOne(conf: CrawlConfig, io: Io, w: World, e: nat, x: Exec, n: nat) returns (r: World)
    requires x.phase.Pushing? && n < |x.phase.links|
    requires e in w.execs && w.execs[e] == x.(phase := x.phase.(sent := n))
    ensures Able(conf, io, w, PushLink(e, io.at)) && r == Do(w, PushLink(e, io.at))
    ensures r.db == w.db && r.landed == w.landed
    ensures r.f == PushUrl(w.f, x.phase.links[n], x.phase.final)
    ensures r.execs == w.execs[e := x.(phase := x.phase.(sent := n + 1))]
  {
    r := Do(w, PushLink(e, io.at));
  }

  // ----- the last script of a call -----

  lemma RefusedWorld(conf: CrawlConfig, io: Io, w0: World, e: nat, status: CrawlStatus) returns (w: World)
    requires e in w0.execs && Refusable(w0.execs[e].phase, status)
    requires Fair(io) ==> !Lapsed(w0.execs[e]) || io.cleanup.Unsent?
    ensures w.db == w0.db && w.landed == w0.landed && w.execs == w0.execs - {e}
    ensures w.f == RefuseState(w0.f, w0.execs[e].key, status, io)
    ensures Trace(conf, io, w0, if io.cleanup.Unsent? then [Leave(e)] else [Refuse(e, io.at, status, true)], w)
  {
    var a := if io.cleanup.Unsent? then Leave(e) else Refuse(e, io.at, status, true);
    w := Do(w0, a);
    TraceOne(conf, io, w0, a);
  }

  /** The call has closed with phase `phase`, or is over. */
  ghost predicate ClosedWith(w0: World, e: nat, heard: bool, phase: Crawl.Phase, w: World) {
    && e in w0.execs && w.db == w0.db && w.execs - {e} == w0.execs - {e}
    && (heard ==> e !in w.execs)
    && (!heard ==> e in w.execs && w.execs[e] == w0.execs[e].(phase := phase))
  }

  lemma FinishedWorld(conf: CrawlConfig, io: Io, w0: World, e: nat, heard: bool) returns (w: World)
    requires e in w0.execs
    requires w0.execs[e].phase.Pushing? && w0.execs[e].phase.sent == |w0.execs[e].phase.links|
    ensures Trace(conf, io, w0, [Finish(e, io.at, heard)], w)
    ensures w.f == MarkUrl(w0.f, w0.execs[e].key, Done) && ClosedWith(w0, e, heard, Concluded, w)
    ensures var x := w0.execs[e]; w.landed == w0.landed[x.key := Landing(x.url, x.phase.final, x.phase.links)]
  {
    w := Do(w0, Finish(e, io.at, heard));
    TraceOne(conf, io, w0, Finish(e, io.at, heard));
  }

  lemma DeferredWorld(conf: CrawlConfig, io: Io, w0: World, e: nat, retryAt: int, heard: bool) returns (w: World)
    requires e in w0.execs && w0.execs[e].phase.Fetching?
    requires CalcRetryTime(w0.execs[e].tries, conf, io.at) == Some(retryAt)
    ensures Trace(conf, io, w0, [Again(e, io.at, Milli(retryAt), heard)], w)
    ensures w.f == RetryUrl(w0.f, w0.execs[e].key, Milli(retryAt)) && ClosedWith(w0, e, heard, Deferred, w)
    ensures w.landed == w0.landed
  {
    w := Do(w0, Again(e, io.at, Milli(retryAt), heard));
    TraceOne(conf, io, w0, Again(e, io.at, Milli(retryAt), heard));
  }

  // ----- taking a URL on -----

  /** The frontier after the enqueue script. */
  function AfterEnqueue(s: State, io: Io, due: seq<Url>): State {
    if io.enqueue.Unsent? then s else EnqueueDue(s, Milli(io.enqueueAt), due)
  }

  lemma ClosedReplies(s: State)
    requires Closed(s)
    ensures ReplyOf(s) != Failed
  {
    if s.queue != [] {
      assert s.queue[|s.queue| - 1] in s.queue;
    }
  }

  /** The crawl after the enqueue script; on a closed frontier the pop script will not fail. */
  lemma RequeuedWorld(w0: World, io: Io, due: seq<Url>) returns (w: World)
    requires Closed(w0.f) && IsDue(w0.f.retry, Milli(io.enqueueAt), due)
    ensures w == if io.enqueue.Unsent? then w0 else Do(w0, Requeue(io.enqueueAt, due))
    ensures w.f == AfterEnqueue(w0.f, io, due) && w.db == w0.db && w.execs == w0.execs
    ensures w.landed == w0.landed && ReplyOf(w.f) != Failed
  {
    EnqueueCloses(w0.f, Milli(io.enqueueAt), due);
    w := if io.enqueue.Unsent? then w0 else Do(w0, Requeue(io.enqueueAt, due));
    ClosedReplies(w.f);
  }

  lemma TakenWorld(w1: World, e: nat, io: Io, worker: WorkerId, key: Url) returns (w: World)
    requires e !in w1.execs && ReplyOf(w1.f).Taken?
    ensures Enabled(w1, TakeOn(e, io.popAt, worker, key)) && w == Do(w1, TakeOn(e, io.popAt, worker, key))
    ensures w.f == PopUrl(w1.f, worker, Milli(io.popAt)) && w.db == w1.db && w.landed == w1.landed
    ensures var reply := ReplyOf(w1.f);
            && w.execs == w1.execs[e := Exec(worker, reply.url, key, reply.tries, reply.parent, Fetching)]
            && w.f.Is(reply.url, Processing)
            && w.execs - {e} == w1.execs
  {
    w := Do(w1, TakeOn(e, io.popAt, worker, key));
  }

  /** A call that takes a URL on and then goes through `rest`. */
  lemma TakeThen(
    conf: CrawlConfig, w1: World, clock: int, e: nat, io: Io, worker: WorkerId, key: Url, rest: seq<Act>, w: World)
    requires Enabled(w1, TakeOn(e, io.popAt, worker, key))
    requires Trace(conf, io, Do(w1, TakeOn(e, io.popAt, worker, key)), rest, w)
    ensures var acts := [TakeOn(e, io.popAt, worker, key)] + rest;
            && CrawlRun(w1, acts) && CrawlEnd(w1, acts) == w
            && (Fair(io) && key == ReplyOf(w1.f).url && clock <= io.popAt <= io.at ==>
                  PatientRun(conf, w1, clock, acts))
  {
    var take := TakeOn(e, io.popAt, worker, key);
    TraceRuns(conf, io, Do(w1, take), rest, w);
    RunCons(conf, w1, clock, take, rest);
    if Fair(io) && clock <= io.popAt <= io.at {
      EarlierClock(conf, Do(w1, take), io.popAt, io.at, rest);
    }
  }

  /** The pop script ran unheard, or popped a text that does not parse: the URL is taken on, and nobody works on
      it. */
  lemma TakeLost(conf: CrawlConfig, w1: World, clock: int, e: nat, io: Io, worker: WorkerId)
    returns (acts: seq<Act>, w: World)
    requires e !in w1.execs && ReplyOf(w1.f).Taken?
    ensures CrawlRun(w1, acts) && CrawlEnd(w1, acts) == w
    ensures w.f == PopUrl(w1.f, worker, Milli(io.popAt)) && w.db == w1.db && w.execs == w1.execs
    ensures w.landed == w1.landed
    ensures Fair(io) && clock <= io.popAt <= io.at ==> PatientRun(conf, w1, clock, acts)
  {
    var key := ReplyOf(w1.f).url;
    var taken := TakenWorld(w1, e, io, worker, key);
    w := Do(taken, Leave(e));
    TraceOne(conf, io, taken, Leave(e));
    TakeThen(conf, w1, clock, e, io, worker, key, [Leave(e)], w);
    acts := [TakeOn(e, io.popAt, worker, key)] + [Leave(e)];
  }

  /** The clock of the last script before the pop. */
  function ClockOf(io: Io, clock: int): int {
    if io.enqueue.Unsent? then clock else io.enqueueAt
  }

  /** A call that sends the enqueue script and then goes through `rest`. */
  lemma RequeueThen(conf: CrawlConfig, w0: World, clock: int, io: Io, due: seq<Url>, rest: seq<Act>)
    returns (acts: seq<Act>)
    requires IsDue(w0.f.retry, Milli(io.enqueueAt), due)
    requires CrawlRun(if io.enqueue.Unsent? then w0 else Do(w0, Requeue(io.enqueueAt, due)), rest)
    ensures var w1 := if io.enqueue.Unsent? then w0 else Do(w0, Requeue(io.enqueueAt, due));
            && CrawlRun(w0, acts) && CrawlEnd(w0, acts) == CrawlEnd(w1, rest)
            && (clock <= io.enqueueAt && PatientRun(conf, w1, ClockOf(io, clock), rest) ==>
                  PatientRun(conf, w0, clock, acts))
  {
    if io.enqueue.Unsent? {
      acts := rest;
    } else {
      acts := [Requeue(io.enqueueAt, due)] + rest;
      RunCons(conf, w0, clock, Requeue(io.enqueueAt, due), rest);
    }
  }

  class Parse {
    const conf: CrawlConfig
    const urls: Frontier
    const pages: PageTables

    /** ToDomainURL and String: the key under which a popped URL is completed, None when it does not parse. */
    const keyOf: Url -> Option<Url>

    constructor (conf: CrawlConfig, urls: Frontier, pages: PageTables, keyOf: Url -> Option<Url>)
      ensures this.conf == conf && this.urls == urls && this.pages == pages && this.keyOf == keyOf
    {
      this.conf, this.urls, this.pages, this.keyOf := conf, urls, pages, keyOf;
    }

    ghost predicate Mirrors(w: World)
      reads urls, pages
    {
      w.f == urls.St() && w.db == pages.St()
    }

    ghost predicate Sleeps(s: State, io: Io, cmd: Option<int>) {
      exists earliest :: WakeUp.IsEarliest(s.retry, earliest) &&
        cmd == Some(WakeUp.SleepFor(UnprocessedCount(s), earliest, io.readAt, io.jitter, io.wakeAt))
    }

    /** The URL that is taken on, if any, completes under its own key. */
    ghost predicate OwnKey(mid: State) {
      ReplyOf(mid).Taken? && keyOf(ReplyOf(mid).url).Some? ==> keyOf(ReplyOf(mid).url).value == ReplyOf(mid).url
    }

    /** The outcome of a call, from the frontier after the enqueue script. Under its own key the URL gets the status
        its answers call for, and frontier and tables are as CallEffect says outright; under another key the URL
        stays in processing. */
    ghost predicate Executed(mid: State, db: Db, worker: WorkerId, io: Io, cmd: Option<int>)
      reads urls, pages
    {
      var taken := PopUrl(mid, worker, Milli(io.popAt));
      if !io.enqueue.Heard? || io.pop.Unsent? then cmd == None && urls.St() == mid && pages.St() == db
      else if io.pop.Lost? then cmd == None && urls.St() == taken && pages.St() == db
      else
        match ReplyOf(mid)
        case QueueEmpty =>
          && urls.St() == mid && pages.St() == db
          && if io.metadataFails then cmd == None else Sleeps(mid, io, cmd)
        case Taken(u, tries, parent) =>
          && cmd == None && u in urls.info
          && (keyOf(u).None? ==> urls.St() == taken && pages.St() == db)
          && (keyOf(u).Some? ==>
                && urls.St() == EndState(taken, keyOf(u).value, tries, parent, io, conf)
                && TablesCarry(db, pages.St(), parent, io)
                && (keyOf(u).value != u ==> urls.info[u].status == Processing)
                && (keyOf(u).value == u ==>
                      && Leaves(io, tries, parent, conf, urls.info[u].status)
                      && FrontierCarries(taken, urls.St(), u, tries, parent, io, conf)
                      && (io.fetch == Some(FetchOK) && Stored(io, parent) ==>
                            AllPushed(taken, urls.St(), io.extract.value.1, io.extract.value.0.url))))
        case Failed => false
    }

    /** What a call records: the landing with the extracted links, when it has stored all and marked its URL. */
    ghost predicate Records(mid: State, io: Io, w0: World, w: World) {
      io.enqueue.Heard? && io.pop.Heard? && ReplyOf(mid).Taken? && keyOf(ReplyOf(mid).url) == Some(ReplyOf(mid).url) ==>
        var u, parent := ReplyOf(mid).url, ReplyOf(mid).parent;
        w.landed == if io.fetch == Some(FetchOK) && Stored(io, parent) && !io.mark.Unsent?
                    then w0.landed[u := Landing(u, io.extract.value.0.url, io.extract.value.1)] else w0.landed
    }

    /** Running call e may still do anything with its key. */
    ghost predicate Working(w: World, e: nat, key: Url) {
      e in w.execs && w.execs[e].key == key && !Lapsed(w.execs[e]) && !w.execs[e].phase.Refused?
    }

    /** From w0 to w call e has ended, and the world shows what the stores hold. */
    ghost predicate Ended(io: Io, w0: World, acts: seq<Act>, w: World, e: nat)
      reads urls, pages
    {
      Trace(conf, io, w0, acts, w) && Mirrors(w) && w.execs == w0.execs - {e}
    }

    /** The landing is on record if c holds. */
    ghost predicate Recorded(w0: World, w: World, e: nat, c: bool, final: Url, links: seq<Url>) {
      e in w0.execs &&
      w.landed == if c then w0.landed[w0.execs[e].key := Landing(w0.execs[e].url, final, links)] else w0.landed
    }

    /** markTerminal: a failing cleanup leaves the URL as it is, and so does a key that is not tracked. */
    method MarkTerminal(key: Url, status: CrawlStatus, io: Io, ghost w0: World, ghost e: nat)
      returns (ghost acts: seq<Act>, ghost w: World)
      requires Mirrors(w0) && e in w0.execs && w0.execs[e].key == key
      requires Fair(io) ==> !Lapsed(w0.execs[e]) || io.cleanup.Unsent?
      requires Refusable(w0.execs[e].phase, status)
      modifies urls
      ensures Ended(io, w0, acts, w, e) && w.landed == w0.landed
      ensures urls.St() == RefuseState(w0.f, key, status, io)
      ensures key in w0.f.info ==>
                && key in urls.info
                && urls.info[key].status == if io.cleanup.Unsent? then w0.f.info[key].status else status
    {
      w := RefusedWorld(conf, io, w0, e, status);
      if io.cleanup.Unsent? {
        acts := [Leave(e)];
      } else {
        var ok := urls.MarkProcessed(key, status);
        acts := [Refuse(e, io.at, status, true)];
      }
    }

    /** The part of Execute after a successful fetch: extract, save, link, push, mark Done. */
    method Land(key: Url, parent: Url, io: Io, ghost w0: World, ghost e: nat)
      returns (ghost acts: seq<Act>, ghost w: World)
      requires Mirrors(w0) && Valid(io) && Working(w0, e, key) && io.fetch == Some(FetchOK)
      requires w0.execs[e].phase.Fetching? && w0.execs[e].parent == parent
      modifies urls, pages
      ensures Ended(io, w0, acts, w, e)
      ensures urls.St() == LandState(w0.f, key, parent, io) && pages.St() == Tables(w0.db, parent, io)
      ensures io.extract.None? ==> w.landed == w0.landed
      ensures io.extract.Some? ==>
                Recorded(w0, w, e, StoreMarks(w0.f, key, parent, io.extract.value.0.url, io.extract.value.1, io),
                         io.extract.value.0.url, io.extract.value.1)
    {
      if io.extract.None? {
        acts, w := MarkTerminal(key, GiveUp, io, w0, e);
        return;
      }
      var (page, links) := io.extract.value;
      ghost var a := Extract(e, page.url, links);
      ghost var rest;
      rest, w := Store(key, parent, page, links, io, Do(w0, a), e);
      acts := [a] + rest;
      TraceCons(conf, io, w0, a, rest, w);
    }

    /** Save the page, then the link from the parent's page unless the URL is a seed. */
    method Store(key: Url, parent: Url, page: Page, links: seq<Url>, io: Io, ghost w0: World, ghost e: nat)
      returns (ghost acts: seq<Act>, ghost w: World)
      requires Mirrors(w0) && Working(w0, e, key) && page.vector.None?
      requires w0.execs[e].phase == Extracted(page.url, links) && w0.execs[e].parent == parent
      modifies urls, pages
      ensures Ended(io, w0, acts, w, e)
      ensures urls.St() == StoreState(w0.f, key, parent, page.url, links, io)
      ensures pages.St() == StoreTables(w0.db, parent, page, io)
      ensures Recorded(w0, w, e, StoreMarks(w0.f, key, parent, page.url, links, io), page.url, links)
    {
      if io.saved.Fine? || io.saved.applied {
        var id := pages.SavePage(page, io.l2);
        ghost var a, rest := Save(e, page, io.l2), [];
        if io.saved.Fine? {
          rest, w := Connect(key, parent, page.url, links, id, io, Do(w0, a), e);
        } else {
          rest, w := Abandon(key, io.saved, io, Do(w0, a), e);
        }
        acts := [a] + rest;
        TraceCons(conf, io, w0, a, rest, w);
      } else {
        acts, w := Abandon(key, io.saved, io, w0, e);
      }
    }

    method Connect(
      key: Url, parent: Url, final: Url, links: seq<Url>, id: int, io: Io, ghost w0: World, ghost e: nat)
      returns (ghost acts: seq<Act>, ghost w: World)
      requires Mirrors(w0) && Working(w0, e, key)
      requires w0.execs[e].phase == Saved(final, links, id) && w0.execs[e].parent == parent
      modifies urls, pages
      ensures Ended(io, w0, acts, w, e)
      ensures urls.St() == ConnectState(w0.f, key, parent, final, links, io)
      ensures pages.St() == LinkTables(w0.db, parent, id, io)
      ensures Recorded(w0, w, e, ConnectMarks(w0.f, key, parent, final, links, io), final, links)
    {
      if parent != NO_PARENT && !io.linked.Fine? && !io.linked.applied {
        acts, w := Abandon(key, io.linked, io, w0, e);
        return;
      }
      if parent != NO_PARENT {
        pages.SaveLink(parent, id);
      }
      ghost var rest;
      if parent != NO_PARENT && !io.linked.Fine? {
        rest, w := Abandon(key, io.linked, io, Do(w0, Link(e)), e);
      } else {
        rest, w := PushAndFinish(key, final, links, id, io, Do(w0, Link(e)), e);
      }
      acts := [Link(e)] + rest;
      TraceCons(conf, io, w0, Link(e), rest, w);
    }

    /** A database error: transient ones leave the URL for recovery, others give it up. */
    method Abandon(key: Url, reply: DbReply, io: Io, ghost w0: World, ghost e: nat)
      returns (ghost acts: seq<Act>, ghost w: World)
      requires Mirrors(w0) && Working(w0, e, key) && !reply.Fine?
      modifies urls
      ensures Ended(io, w0, acts, w, e) && w.landed == w0.landed
      ensures urls.St() == AbandonState(w0.f, key, reply, io)
    {
      if reply.Transient? {
        TraceOne(conf, io, w0, Leave(e));
        return [Leave(e)], Do(w0, Leave(e));
      }
      acts, w := MarkTerminal(key, GiveUp, io, w0, e);
    }

    method PushAndFinish(
      key: Url, final: Url, links: seq<Url>, ghost id: int, io: Io, ghost w0: World, ghost e: nat)
      returns (ghost acts: seq<Act>, ghost w: World)
      requires Mirrors(w0) && Working(w0, e, key) && w0.execs[e].phase == Crawl.Phase.Pushing(final, links, id, 0)
      modifies urls
      ensures Ended(io, w0, acts, w, e)
      ensures urls.St() == PushState(w0.f, key, final, links, io)
      ensures Recorded(w0, w, e, PushMarks(w0.f, key, final, links, io), final, links)
    {
      ghost var w1, rest;
      acts, w1 := PushLinks(final, links, id, SentCount(links, io), io, w0, e);
      UpdatedExecs(w0.execs, w1.execs, e);
      if links != [] && io.pushFails {
        rest, w := MarkTerminal(key, GiveUp, io, w1, e);
      } else {
        rest, w := Complete(key, io, w1, e);
      }
      TraceOn(conf, io, w0, acts, w1, rest, w);
      acts := acts + rest;
    }

    lemma UpdatedExecs(m: map<nat, Exec>, r: map<nat, Exec>, e: nat)
      requires e in r && r == m[e := r[e]]
      ensures r - {e} == m - {e}
    {
    }

    /** Mark Done; when that seems to fail, give up. */
    method Complete(key: Url, io: Io, ghost w0: World, ghost e: nat)
      returns (ghost acts: seq<Act>, ghost w: World)
      requires Mirrors(w0) && Working(w0, e, key)
      requires w0.execs[e].phase.Pushing? && w0.execs[e].phase.sent == |w0.execs[e].phase.links|
      modifies urls
      ensures Ended(io, w0, acts, w, e)
      ensures urls.St() == CompleteState(w0.f, key, io)
      ensures Recorded(w0, w, e, !io.mark.Unsent? && key in w0.f.info, w0.execs[e].phase.final,
                       w0.execs[e].phase.links)
    {
      var ok := false;
      if !io.mark.Unsent? {
        ok := urls.MarkProcessed(key, Done);
      }
      if !ok {
        acts, w := MarkTerminal(key, GiveUp, io, w0, e);
        return;
      }
      ghost var done := FinishedWorld(conf, io, w0, e, io.mark.Heard?);
      acts, w := [Finish(e, io.at, io.mark.Heard?)], done;
      if io.mark.Lost? {
        ghost var rest;
        rest, w := MarkTerminal(key, GiveUp, io, done, e);
        TraceOn(conf, io, w0, acts, done, rest, w);
        acts := acts + rest;
      }
    }

    /** The first n requests of the pipeline; without links there is no pipeline. */
    method PushLinks(final: Url, links: seq<Url>, ghost id: int, n: nat, io: Io, ghost w0: World, ghost e: nat)
      returns (ghost acts: seq<Act>, ghost w: World)
      requires Mirrors(w0) && n <= |links|
      requires e in w0.execs && w0.execs[e].phase == Crawl.Phase.Pushing(final, links, id, 0)
      modifies urls
      ensures Trace(conf, io, w0, acts, w) && Mirrors(w) && w.landed == w0.landed
      ensures w.execs == w0.execs[e := w0.execs[e].(phase := Crawl.Phase.Pushing(final, links, id, n))]
      ensures urls.St() == PushAll(w0.f, CallEffect.Requests(links[..n], final))
    {
      acts, w := PushLinksTrace(conf, io, w0, e, n);
      if links != [] {
        var pushed := urls.PushURLs(CallEffect.Requests(links[..n], final));
      }
    }

    /** The retry branch: schedule the retry; when the limit is reached or that seems to fail, give up. */
    method Defer(key: Url, tries: int, io: Io, ghost w0: World, ghost e: nat)
      returns (ghost acts: seq<Act>, ghost w: World)
      requires Mirrors(w0) && Working(w0, e, key) && w0.execs[e].phase.Fetching? && w0.execs[e].tries == tries
      modifies urls
      ensures Ended(io, w0, acts, w, e) && w.landed == w0.landed
      ensures urls.St() == DeferState(w0.f, key, tries, io, conf)
    {
      var retryAt := CalcRetryTime(tries, conf, io.at);
      var ok := false;
      if retryAt.Some? && !io.retry.Unsent? {
        ok := urls.RetryURL(key, Milli(retryAt.value));
      }
      if !ok {
        acts, w := MarkTerminal(key, GiveUp, io, w0, e);
        return;
      }
      ghost var deferred := DeferredWorld(conf, io, w0, e, retryAt.value, io.retry.Heard?);
      acts, w := [Again(e, io.at, Milli(retryAt.value), io.retry.Heard?)], deferred;
      if io.retry.Lost? {
        ghost var rest;
        rest, w := MarkTerminal(key, GiveUp, io, deferred, e);
        TraceOn(conf, io, w0, acts, deferred, rest, w);
        acts := acts + rest;
      }
    }

    /** Execute from the fetch on. */
    method Process(key: Url, tries: int, parent: Url, io: Io, ghost w0: World, ghost e: nat)
      returns (ghost acts: seq<Act>, ghost w: World)
      requires Mirrors(w0) && Valid(io) && Working(w0, e, key)
      requires w0.execs[e] == Exec(w0.execs[e].worker, w0.execs[e].url, key, tries, parent, Fetching)
      modifies urls, pages
      ensures Ended(io, w0, acts, w, e)
      ensures urls.St() == EndState(w0.f, key, tries, parent, io, conf) && pages.St() == Tables(w0.db, parent, io)
      ensures io.fetch != Some(FetchOK) || io.extract.None? ==> w.landed == w0.landed
      ensures io.fetch == Some(FetchOK) && io.extract.Some? ==>
                Recorded(w0, w, e, StoreMarks(w0.f, key, parent, io.extract.value.0.url, io.extract.value.1, io),
                         io.extract.value.0.url, io.extract.value.1)
    {
      if io.fetch == Some(FetchOK) {
        acts, w := Land(key, parent, io, w0, e);
      } else if io.fetch == Some(FetchRetry) {
        acts, w := Defer(key, tries, io, w0, e);
      } else {
        var status := if io.fetch == Some(FetchManual) then Manual else GiveUp;
        acts, w := MarkTerminal(key, status, io, w0, e);
      }
    }

    /** Reads the metadata and decides how long to sleep. */
    method AimSleep(io: Io) returns (cmd: Option<int>)
      ensures if io.metadataFails then cmd == None else Sleeps(urls.St(), io, cmd)
    {
      if io.metadataFails {
        return None;
      }
      var count, earliest := urls.GetCrawlMetadata();
      assert WakeUp.IsEarliest(urls.retry, earliest);
      cmd := Some(WakeUp.SleepFor(count, earliest, io.readAt, io.jitter, io.wakeAt));
    }

    /** The take-on and all that follows it. */
    method ExecuteTaken(
      url: Url, key: Url, tries: int, parent: Url, io: Io, worker: WorkerId, ghost w1: World, ghost e: nat,
      ghost clock: int)
      returns (ghost acts: seq<Act>, ghost w: World)
      requires e !in w1.execs && ReplyOf(w1.f) == Taken(url, tries, parent) && Valid(io)
      requires urls.St() == PopUrl(w1.f, worker, Milli(io.popAt)) && pages.St() == w1.db
      modifies urls, pages
      ensures CrawlRun(w1, acts) && CrawlEnd(w1, acts) == w && Mirrors(w) && w.execs == w1.execs
      ensures Fair(io) && key == url && clock <= io.popAt <= io.at ==> PatientRun(conf, w1, clock, acts)
      ensures urls.St() == EndState(PopUrl(w1.f, worker, Milli(io.popAt)), key, tries, parent, io, conf)
      ensures pages.St() == Tables(w1.db, parent, io)
      ensures key == url ==>
                w.landed == if io.fetch == Some(FetchOK) && Stored(io, parent) && !io.mark.Unsent?
                            then w1.landed[url := Landing(url, io.extract.value.0.url, io.extract.value.1)]
                            else w1.landed
    {
      ghost var taken := TakenWorld(w1, e, io, worker, key);
      acts, w := Process(key, tries, parent, io, taken, e);
      TakeThen(conf, w1, clock, e, io, worker, key, acts, w);
      acts := [TakeOn(e, io.popAt, worker, key)] + acts;
      if key == url && io.extract.Some? {
        StoreMarksIff(taken.f, key, parent, io.extract.value.0.url, io.extract.value.1, io);
      }
    }

    /** One call. `cmd` is how long to sleep when the queue was empty, None otherwise. On a closed frontier, as in
        every crawl without a reset, the pop script cannot fail. The call amounts to acts of the crawl, patient
        ones if it is fair and completes its URL under its own key, and leaves in the stores what Executed says. */
    method Execute(worker: WorkerId, io: Io, ghost w0: World, ghost e: nat, ghost clock: int)
      returns (cmd: Option<int>, ghost due: seq<Url>, ghost acts: seq<Act>, ghost w: World)
      requires Mirrors(w0) && Closed(w0.f) && e !in w0.execs && Valid(io)
      modifies urls, pages
      ensures CrawlRun(w0, acts) && CrawlEnd(w0, acts) == w && Mirrors(w) && w.execs == w0.execs
      ensures IsDue(w0.f.retry, Milli(io.enqueueAt), due)
      ensures Executed(AfterEnqueue(w0.f, io, due), w0.db, worker, io, cmd)
      ensures Records(AfterEnqueue(w0.f, io, due), io, w0, w)
      ensures Fair(io) && OwnKey(AfterEnqueue(w0.f, io, due)) && clock <= io.enqueueAt <= io.popAt <= io.at ==>
                PatientRun(conf, w0, clock, acts)
    {
      var reply;
      reply, due := urls.TakeOn(worker, Milli(io.enqueueAt), Milli(io.popAt), io.enqueue, io.pop);
      ghost var w1 := RequeuedWorld(w0, io, due);
      ghost var rest := [];
      cmd, w := None, w1;
      if reply.QueueEmpty? {
        cmd := AimSleep(io);
      } else if reply.Taken? && keyOf(reply.url).Some? {
        var key := keyOf(reply.url).value;
        rest, w := ExecuteTaken(
          reply.url, key, reply.tries, reply.parent, io, worker, w1, e, ClockOf(io, clock));
        Outright(PopUrl(w1.f, worker, Milli(io.popAt)), w1.db, reply.url, key, reply.tries, reply.parent, io);
      } else if io.enqueue.Heard? && !io.pop.Unsent? && ReplyOf(w1.f).Taken? {
        rest, w := TakeLost(conf, w1, ClockOf(io, clock), e, io, worker);
      }
      acts := RequeueThen(conf, w0, clock, io, due, rest);
    }

    lemma Outright(t: State, db: Db, u: Url, key: Url, tries: int, parent: Url, io: Io)
      requires t.Is(u, Processing) && Valid(io)
      ensures var s := EndState(t, key, tries, parent, io, conf);
              && u in s.info && TablesCarry(db, Tables(db, parent, io), parent, io)
              && (key != u ==> s.info[u].status == Processing)
              && (key == u ==>
                    && Leaves(io, tries, parent, conf, s.info[u].status)
                    && FrontierCarries(t, s, u, tries, parent, io, conf)
                    && (io.fetch == Some(FetchOK) && Stored(io, parent) ==>
                          AllPushed(t, s, io.extract.value.1, io.extract.value.0.url)))
    {
      ProcessedLeaves(t, u, key, tries, parent, io, conf);
      TablesOutright(db, parent, io);
      if key == u {
        FrontierOutright(t, u, tries, parent, io, conf);
        if io.fetch == Some(FetchOK) && Stored(io, parent) {
          StoredPushesAll(t, EndState(t, key, tries, parent, io, conf), u, tries, parent, io, conf);
        }
      }
    }
  }
}
