/** The crawl as a whole: any number of Execute calls, interleaved script by script with each other, with
    seeding and with the reaper, over the frontier and the page tables. No lease is assumed. */
module Crawl {
  import opened Basics
  import opened FrontierState
  import opened FrontierStore
  import opened FrontierRuns
  import opened PageStore
  import opened Graph

  /** How far an Execute call has got with the URL it took on. The last three: its script has scheduled the
      retry, marked the URL Done, or refused it, and the call has not heard back. */
  datatype Phase =
    | Fetching
    | Extracted(final: Url, links: seq<Url>)
    | Saved(final: Url, links: seq<Url>, id: int)
    | Pushing(final: Url, links: seq<Url>, id: int, sent: nat)
    | Deferred
    | Concluded
    | Refused(status: CrawlStatus)

  /** A running call: the URL it popped, and the key under which it will complete it, the text of the URL after
      parsing and normalising. Here the key can be anything; CrawlKeys says when it is the URL itself. */
  datatype Exec = Exec(worker: WorkerId, url: Url, key: Url, tries: int, parent: Url, phase: Phase)

  /** What a call found: the URL it executed, the address it landed on, and the links there. */
  datatype Landing = Landing(from: Url, final: Url, links: seq<Url>)

  /** The shared stores and the running calls; then the history: seeds, links pushed (from the URL being
      executed to the link), for each row of a page saved for a seed that seed and the address it landed on,
      what the reaper has read from the index, and for each URL marked Done the landing of the call that did it
      last. */
  datatype World = World(
    f: State, db: Db, execs: map<nat, Exec>,
    seeds: set<Url>, pushed: set<(Url, Url)>, roots: map<int, (Url, Url)>, scanned: set<Url>,
    landed: map<Url, Landing>)

  const START := World(INIT, EMPTY_DB, map[], {}, {}, map[], {}, map[])

  datatype Act =
    | Seed(at: int, url: Url)
    | Scan
    | Recover(at: int, url: Url)
    | Requeue(at: int, due: seq<Url>)
    | TakeOn(e: nat, at: int, worker: WorkerId, key: Url)
    | Again(e: nat, at: int, retryAt: int, heard: bool)
    | Refuse(e: nat, at: int, status: CrawlStatus, heard: bool)
    | Extract(e: nat, final: Url, links: seq<Url>)
    | Save(e: nat, page: Page, l2: Vector -> Vector)
    | Link(e: nat)
    | PushLink(e: nat, at: int)
    | Finish(e: nat, at: int, heard: bool)
    | Leave(e: nat)

  /** Whatever failed, the URL is given up; only what the fetch brought may call for manual review. */
  predicate Refusable(phase: Phase, status: CrawlStatus) {
    && (status.GiveUp? || status.Manual?)
    && (phase.Refused? ==> status == phase.status)
    && (status.Manual? ==> phase.Fetching? || phase.Refused?)
  }

  /** When an act can happen. `final` is an absolute address, so it is not the empty parent. A call may
      give its URL up or vanish (left for recovery, timed out, crashed) at any point; it marks the URL Done only
      after every link has been pushed. A call whose script ran unheard takes it for failed: its client sends the
      script again, or it gives up. */
  ghost predicate Enabled(w: World, a: Act) {
    match a
    case Seed(_, _) => true
    case Scan => true
    case Recover(_, u) => u in w.scanned
    case Requeue(at, due) => IsDue(w.f.retry, Milli(at), due)
    case TakeOn(e, _, _, _) => e !in w.execs && ReplyOf(w.f).Taken?
    case Again(e, _, _, _) => e in w.execs && (w.execs[e].phase.Fetching? || w.execs[e].phase.Deferred?)
    case Refuse(e, _, status, _) =>
      e in w.execs && Refusable(w.execs[e].phase, status)
    case Extract(e, final, _) => e in w.execs && w.execs[e].phase.Fetching? && final != NO_PARENT
    case Save(e, page, _) =>
      e in w.execs && w.execs[e].phase.Extracted? && page.url == w.execs[e].phase.final && page.vector.None?
    case Link(e) => e in w.execs && w.execs[e].phase.Saved?
    case PushLink(e, _) =>
      e in w.execs && w.execs[e].phase.Pushing? && w.execs[e].phase.sent < |w.execs[e].phase.links|
    case Finish(e, _, _) =>
      && e in w.execs
      && (|| (w.execs[e].phase.Pushing? && w.execs[e].phase.sent == |w.execs[e].phase.links|)
          || w.execs[e].phase.Concluded?)
    case Leave(e) => e in w.execs
  }

  /** The script an act runs on the frontier, if any. */
  function ScriptOf(w: World, a: Act): Option<Step> {
    match a
    case Seed(at, u) => Some(Push(at, u, NO_PARENT))
    case Recover(at, u) => Some(Recovered(at, u))
    case Requeue(at, due) => Some(Enqueued(at, due))
    case TakeOn(_, at, worker, _) => Some(Pop(at, worker))
    case Again(e, at, retryAt, _) =>
      if e in w.execs then Some(Retried(at, w.execs[e].worker, w.execs[e].key, retryAt)) else None
    case Refuse(e, at, status, _) =>
      if e in w.execs then Some(Marked(at, w.execs[e].worker, w.execs[e].key, status)) else None
    case PushLink(e, at) =>
      if e in w.execs && w.execs[e].phase.Pushing? && w.execs[e].phase.sent < |w.execs[e].phase.links|
      then Some(Push(at, w.execs[e].phase.links[w.execs[e].phase.sent], w.execs[e].phase.final)) else None
    case Finish(e, at, _) =>
      if e in w.execs then Some(Marked(at, w.execs[e].worker, w.execs[e].key, Done)) else None
    case _ => None
  }

  function FrontierAfter(w: World, a: Act): State {
    match ScriptOf(w, a)
    case None => w.f
    case Some(step) => Apply(w.f, step)
  }

  /** The running calls after call e has sent its last script: it is over, or has not heard back. */
  function Closing(w: World, e: nat, heard: bool, phase: Phase): map<nat, Exec>
    requires e in w.execs
  {
    if heard then w.execs - {e} else w.execs[e := w.execs[e].(phase := phase)]
  }

  ghost function Do(w: World, a: Act): World
    requires Enabled(w, a)
  {
    var w' := w.(f := FrontierAfter(w, a));
    match a
    case Seed(_, u) => w'.(seeds := w.seeds + {u})
    case Scan => w'.(scanned := w.scanned + w.f.index)
    case Recover(_, _) => w'
    case Requeue(_, _) => w'
    case TakeOn(e, _, worker, key) =>
      var r := ReplyOf(w.f);
      w'.(execs := w.execs[e := Exec(worker, r.url, key, r.tries, r.parent, Fetching)])
    case Again(e, _, _, heard) => w'.(execs := Closing(w, e, heard, Deferred))
    case Refuse(e, _, status, heard) => w'.(execs := Closing(w, e, heard, Refused(status)))
    case Extract(e, final, links) => w'.(execs := w.execs[e := w.execs[e].(phase := Extracted(final, links))])
    case Save(e, page, l2) =>
      var (db, id) := InsertPage(w.db, page, l2);
      w'.(db := db, execs := w.execs[e := w.execs[e].(phase := Saved(page.url, w.execs[e].phase.links, id))])
    case Link(e) =>
      var x := w.execs[e];
      var next := w.execs[e := x.(phase := Pushing(x.phase.final, x.phase.links, x.phase.id, 0))];
      if x.parent == NO_PARENT then w'.(roots := w.roots[x.phase.id := (x.url, x.phase.final)], execs := next)
      else w'.(db := InsertLink(w.db, x.parent, x.phase.id), execs := next)
    case PushLink(e, _) =>
      var x := w.execs[e];
      w'.(pushed := w.pushed + {(x.url, x.phase.links[x.phase.sent])},
          execs := w.execs[e := x.(phase := x.phase.(sent := x.phase.sent + 1))])
    case Finish(e, _, heard) =>
      var x := w.execs[e];
      w'.(landed := if x.phase.Pushing? then w.landed[x.key := Landing(x.url, x.phase.final, x.phase.links)]
                    else w.landed,
          execs := Closing(w, e, heard, Concluded))
    case Leave(e) => w'.(execs := w.execs - {e})
  }

  ghost predicate CrawlRun(w: World, acts: seq<Act>)
    decreases |acts|
  {
    acts == [] || (Enabled(w, acts[0]) && CrawlRun(Do(w, acts[0]), acts[1..]))
  }

  ghost function CrawlEnd(w: World, acts: seq<Act>): World
    requires CrawlRun(w, acts)
    decreases |acts|
  {
    if acts == [] then w else CrawlEnd(Do(w, acts[0]), acts[1..])
  }

  lemma ActThen(w: World, a: Act, rest: seq<Act>)
    requires Enabled(w, a) && CrawlRun(Do(w, a), rest)
    ensures CrawlRun(w, [a] + rest) && CrawlEnd(w, [a] + rest) == CrawlEnd(Do(w, a), rest)
  {
    assert ([a] + rest)[1..] == rest;
  }

  // ----- the invariant -----

  /** The row is a seed's page, or linked to from one through the links table. */
  ghost predicate Rooted(w: World, id: int) {
    Reach(w.roots.Keys, w.db.links, id)
  }

  /** What is recorded as a seed's page is the page on which a call for that seed landed. */
  ghost predicate RootOk(w: World, id: int) {
    id in w.roots ==>
      var (seed, final) := w.roots[id];
      seed in w.seeds && final in w.db.pages && w.db.pages[final].id == id
  }

  /** A page has a row, and the row is connected to a seed's page. */
  ghost predicate Anchored(w: World, page: Url) {
    page in w.db.pages && Rooted(w, w.db.pages[page].id)
  }

  ghost predicate EntryOk(w: World, u: Url) {
    u in w.f.info ==>
      && w.f.info[u].parent.Some?
      && (w.f.info[u].parent.value == NO_PARENT ==> u in w.seeds)
      && (w.f.info[u].parent.value != NO_PARENT ==> Anchored(w, w.f.info[u].parent.value))
      && Reach(w.seeds, w.pushed, u)
  }

  ghost predicate LandedOk(w: World, u: Url) {
    u in w.landed ==>
      && Anchored(w, w.landed[u].final)
      && forall v :: v in w.landed[u].links ==> (w.landed[u].from, v) in w.pushed
  }

  ghost predicate DoneOk(w: World, u: Url) {
    (w.f.Is(u, Done) ==> u in w.landed) && LandedOk(w, u)
  }

  ghost predicate ExecOk(w: World, x: Exec) {
    && x.url in w.f.info
    && w.f.info[x.url].parent == Some(x.parent)
    && match x.phase
       case Fetching => true
       case Extracted(final, _) => final != NO_PARENT
       case Saved(final, _, id) => final != NO_PARENT && final in w.db.pages && w.db.pages[final].id == id
       case Pushing(final, links, id, sent) =>
         && final != NO_PARENT && final in w.db.pages && w.db.pages[final].id == id && Rooted(w, id)
         && sent <= |links|
         && forall k :: 0 <= k < sent ==> (x.url, links[k]) in w.pushed
       case Deferred => true
       case Concluded => x.key in w.landed
       case Refused(_) => true
  }

  ghost predicate HistoryOk(w: World) {
    && (forall u :: u in w.seeds ==> u in w.f.info)
    && (forall e :: e in w.pushed ==> e.1 in w.f.info)
    && w.scanned <= w.f.info.Keys
  }

  ghost predicate CrawlInv(w: World) {
    && Closed(w.f)
    && Sound(w.db) && w.db.nextId > 0
    && (forall u :: EntryOk(w, u))
    && (forall u :: DoneOk(w, u))
    && (forall id :: RootOk(w, id))
    && (forall e :: e in w.execs ==> ExecOk(w, w.execs[e]))
    && HistoryOk(w)
  }

  // ----- monotone parts -----

  /** Nothing leaves the tables or the history. */
  ghost predicate Keeps(w: World, r: World) {
    && w.roots.Keys <= r.roots.Keys && w.landed.Keys <= r.landed.Keys && w.db.links <= r.db.links
    && w.seeds <= r.seeds && w.pushed <= r.pushed
    && (forall p :: p in w.db.pages ==> p in r.db.pages && r.db.pages[p].id == w.db.pages[p].id)
  }

  /** Nothing the invariant relies on is ever taken away. */
  ghost predicate Grows(w: World, r: World) {
    && Keeps(w, r)
    && (forall u :: u in w.f.info ==> u in r.f.info && r.f.info[u].parent == w.f.info[u].parent)
  }

  lemma StillRooted(w: World, r: World, id: int)
    requires Grows(w, r) && Rooted(w, id)
    ensures Rooted(r, id)
  {
    ReachMore(w.roots.Keys, w.db.links, r.roots.Keys, r.db.links, id);
  }

  lemma StillEntryOk(w: World, r: World, u: Url)
    requires Grows(w, r) && EntryOk(w, u) && u in w.f.info
    ensures EntryOk(r, u)
  {
    ReachMore(w.seeds, w.pushed, r.seeds, r.pushed, u);
    var p := w.f.info[u].parent.value;
    if p != NO_PARENT {
      StillRooted(w, r, w.db.pages[p].id);
    }
  }

  lemma StillLandedOk(w: World, r: World, u: Url)
    requires Grows(w, r) && LandedOk(w, u) && u in w.landed && u in r.landed && r.landed[u] == w.landed[u]
    ensures LandedOk(r, u)
  {
    StillRooted(w, r, w.db.pages[w.landed[u].final].id);
  }

  lemma StillExecOk(w: World, r: World, x: Exec)
    requires Grows(w, r) && ExecOk(w, x)
    ensures ExecOk(r, x)
  {
    if x.phase.Pushing? {
      StillRooted(w, r, x.phase.id);
    }
  }

  lemma DoFrontier(w: World, a: Act)
    requires Enabled(w, a)
    ensures Do(w, a).f == FrontierAfter(w, a)
  {
  }

  lemma FrontierGrows(w: World, a: Act, u: Url)
    requires u in w.f.info
    ensures u in FrontierAfter(w, a).info && FrontierAfter(w, a).info[u].parent == w.f.info[u].parent
  {
    match ScriptOf(w, a)
    case Some(step) => EntriesStay(w.f, step, u);
    case None =>
  }

  lemma DoKeeps(w: World, a: Act)
    requires Enabled(w, a)
    ensures Keeps(w, Do(w, a))
  {
  }

  lemma DoGrows(w: World, a: Act)
    requires Enabled(w, a)
    ensures Grows(w, Do(w, a))
  {
    var r := Do(w, a);
    DoFrontier(w, a);
    DoKeeps(w, a);
    forall u | u in w.f.info ensures u in r.f.info && r.f.info[u].parent == w.f.info[u].parent {
      FrontierGrows(w, a, u);
    }
  }

  // ----- each part of the invariant is kept -----

  lemma ScriptsIssued(w: World, a: Act)
    requires Enabled(w, a) && CrawlInv(w) && ScriptOf(w, a).Some?
    ensures Issued(w.f, ScriptOf(w, a).value)
    ensures ScriptOf(w, a).value.Recovered? ==> ScriptOf(w, a).value.url in w.f.info
  {
  }

  lemma DoKeepsFrontier(w: World, a: Act)
    requires Enabled(w, a) && CrawlInv(w)
    ensures Closed(Do(w, a).f)
  {
    DoFrontier(w, a);
    if ScriptOf(w, a).Some? {
      ScriptsIssued(w, a);
      StepCloses(w.f, ScriptOf(w, a).value);
    }
  }

  lemma DoKeepsTables(w: World, a: Act)
    requires Enabled(w, a) && CrawlInv(w)
    ensures Sound(Do(w, a).db) && Do(w, a).db.nextId > 0
  {
    if a.Save? {
      InsertPageSound(w.db, a.page, a.l2);
    }
    if a.Link? {
      var x := w.execs[a.e];
      assert ExecOk(w, x);
      assert IsRow(w.db, x.phase.id);
      InsertLinkSound(w.db, x.parent, x.phase.id);
    }
  }

  lemma DoKeepsStores(w: World, a: Act)
    requires Enabled(w, a) && CrawlInv(w)
    ensures Closed(Do(w, a).f) && Sound(Do(w, a).db) && Do(w, a).db.nextId > 0
  {
    DoKeepsFrontier(w, a);
    DoKeepsTables(w, a);
  }

  lemma StepTracksOnly(s: State, step: Step, u: Url)
    requires u !in s.info && u in Apply(s, step).info && Closed(s) && Issued(s, step)
    requires step.Recovered? ==> step.url in s.info
    ensures step.Push? && u == step.url && Apply(s, step).info[u].parent == Some(step.parent)
  {
  }

  /** Only seeding and pushing a link track a new URL. */
  lemma NewlyTracked(w: World, a: Act, u: Url)
    requires Enabled(w, a) && CrawlInv(w) && u !in w.f.info && u in Do(w, a).f.info
    ensures (a.Seed? && u == a.url && Do(w, a).f.info[u].parent == Some(NO_PARENT)) ||
            (a.PushLink? && var ph := w.execs[a.e].phase;
               u == ph.links[ph.sent] && Do(w, a).f.info[u].parent == Some(ph.final))
  {
    DoFrontier(w, a);
    if ScriptOf(w, a).Some? {
      ScriptsIssued(w, a);
      StepTracksOnly(w.f, ScriptOf(w, a).value, u);
    }
  }

  lemma DoKeepsEntry(w: World, a: Act, u: Url)
    requires Enabled(w, a) && CrawlInv(w)
    ensures EntryOk(Do(w, a), u)
  {
    var r := Do(w, a);
    DoGrows(w, a);
    if u in w.f.info {
      assert EntryOk(w, u);
      StillEntryOk(w, r, u);
    } else if u in r.f.info {
      NewlyTracked(w, a, u);
      if a.Seed? {
        ReachRoot(r.seeds, r.pushed, u);
      } else {
        var x := w.execs[a.e];
        assert ExecOk(w, x) && EntryOk(w, x.url);
        StillRooted(w, r, x.phase.id);
        ReachMore(w.seeds, w.pushed, r.seeds, r.pushed, x.url);
        assert (x.url, u) in r.pushed;
        ReachEdge(r.seeds, r.pushed, x.url, u);
      }
    }
  }

  lemma StepFinishes(s: State, step: Step, u: Url)
    requires Apply(s, step).Is(u, Done) && !s.Is(u, Done)
    ensures step.Marked? && step.url == u && step.status == Done
  {
  }

  predicate Lands(w: World, a: Act, u: Url) {
    a.Finish? && a.e in w.execs && w.execs[a.e].phase.Pushing? && w.execs[a.e].key == u
  }

  lemma LandedStays(w: World, a: Act, u: Url)
    requires Enabled(w, a) && !Lands(w, a, u)
    ensures u in Do(w, a).landed <==> u in w.landed
    ensures u in w.landed ==> Do(w, a).landed[u] == w.landed[u]
  {
  }

  /** A URL that is Done was Done before or has just been finished; either way its landing is on record. */
  lemma DoneHasLanded(w: World, a: Act, u: Url)
    requires Enabled(w, a) && CrawlInv(w) && Do(w, a).f.Is(u, Done)
    ensures u in Do(w, a).landed
  {
    DoFrontier(w, a);
    DoGrows(w, a);
    assert DoneOk(w, u);
    if ScriptOf(w, a).Some? && !w.f.Is(u, Done) {
      StepFinishes(w.f, ScriptOf(w, a).value, u);
      assert ExecOk(w, w.execs[a.e]);
    }
  }

  lemma LandingOk(w: World, a: Act, u: Url)
    requires Enabled(w, a) && CrawlInv(w) && Lands(w, a, u)
    ensures LandedOk(Do(w, a), u)
  {
    var x, r := w.execs[a.e], Do(w, a);
    DoGrows(w, a);
    assert ExecOk(w, x);
    StillRooted(w, r, x.phase.id);
    forall v | v in x.phase.links ensures (x.url, v) in r.pushed {
      var k :| 0 <= k < |x.phase.links| && x.phase.links[k] == v;
    }
  }

  lemma DoKeepsDone(w: World, a: Act, u: Url)
    requires Enabled(w, a) && CrawlInv(w)
    ensures DoneOk(Do(w, a), u)
  {
    if Do(w, a).f.Is(u, Done) {
      DoneHasLanded(w, a, u);
    }
    if Lands(w, a, u) {
      LandingOk(w, a, u);
    } else {
      LandedStays(w, a, u);
      if u in w.landed {
        DoGrows(w, a);
        assert DoneOk(w, u);
        StillLandedOk(w, Do(w, a), u);
      }
    }
  }

  lemma RootsAfter(w: World, a: Act)
    requires Enabled(w, a)
    ensures Do(w, a).roots == if a.Link? && w.execs[a.e].parent == NO_PARENT
                              then w.roots[w.execs[a.e].phase.id := (w.execs[a.e].url, w.execs[a.e].phase.final)]
                              else w.roots
  {
  }

  lemma DoKeepsRoots(w: World, a: Act, id: int)
    requires Enabled(w, a) && CrawlInv(w)
    ensures RootOk(Do(w, a), id)
  {
    DoGrows(w, a);
    RootsAfter(w, a);
    RootKept(w, a, Do(w, a), id);
  }

  lemma RootKept(w: World, a: Act, r: World, id: int)
    requires Enabled(w, a) && CrawlInv(w) && Grows(w, r)
    requires r.roots == if a.Link? && w.execs[a.e].parent == NO_PARENT
                        then w.roots[w.execs[a.e].phase.id := (w.execs[a.e].url, w.execs[a.e].phase.final)]
                        else w.roots
    ensures RootOk(r, id)
  {
    assert RootOk(w, id);
    if a.Link? {
      assert ExecOk(w, w.execs[a.e]) && EntryOk(w, w.execs[a.e].url);
    }
  }

  /** After its link is saved, the page of a call is connected to a seed's page: directly when the URL is a
      seed, otherwise through its parent, whose row already exists. */
  lemma LinkRoots(w: World, e: nat)
    requires CrawlInv(w) && Enabled(w, Link(e))
    ensures var x := w.execs[e];
            && (x.parent != NO_PARENT ==>
                  Anchored(w, x.parent) && (w.db.pages[x.parent].id, x.phase.id) in Do(w, Link(e)).db.links)
            && Rooted(Do(w, Link(e)), x.phase.id)
  {
    var x, r := w.execs[e], Do(w, Link(e));
    assert ExecOk(w, x) && EntryOk(w, x.url);
    DoGrows(w, Link(e));
    if x.parent == NO_PARENT {
      ReachRoot(r.roots.Keys, r.db.links, x.phase.id);
    } else {
      StillRooted(w, r, w.db.pages[x.parent].id);
      ReachEdge(r.roots.Keys, r.db.links, w.db.pages[x.parent].id, x.phase.id);
    }
  }

  lemma TakeOnExecOk(w: World, a: Act)
    requires Enabled(w, a) && CrawlInv(w) && a.TakeOn?
    ensures ExecOk(Do(w, a), Do(w, a).execs[a.e])
  {
    var u := ReplyOf(w.f).url;
    DoGrows(w, a);
    assert u in w.f.info && Do(w, a).f.info[u].parent == w.f.info[u].parent;
  }

  lemma SaveExecOk(w: World, a: Act)
    requires Enabled(w, a) && CrawlInv(w) && a.Save?
    ensures ExecOk(Do(w, a), Do(w, a).execs[a.e])
  {
    assert ExecOk(w, w.execs[a.e]);
    InsertPageSound(w.db, a.page, a.l2);
  }

  lemma PushLinkExecOk(w: World, a: Act)
    requires Enabled(w, a) && CrawlInv(w) && a.PushLink?
    ensures ExecOk(Do(w, a), Do(w, a).execs[a.e])
  {
    var x, r := w.execs[a.e], Do(w, a);
    DoGrows(w, a);
    StillExecOk(w, r, x);
    assert (x.url, x.phase.links[x.phase.sent]) in r.pushed;
  }

  lemma LinkExecOk(w: World, a: Act)
    requires Enabled(w, a) && CrawlInv(w) && a.Link?
    ensures ExecOk(Do(w, a), Do(w, a).execs[a.e])
  {
    assert ExecOk(w, w.execs[a.e]);
    DoGrows(w, a);
    LinkRoots(w, a.e);
  }

  lemma ExtractExecOk(w: World, a: Act)
    requires Enabled(w, a) && CrawlInv(w) && a.Extract?
    ensures ExecOk(Do(w, a), Do(w, a).execs[a.e])
  {
    assert ExecOk(w, w.execs[a.e]);
  }

  lemma UnheardExecOk(w: World, a: Act)
    requires Enabled(w, a) && CrawlInv(w) && (a.Again? || a.Refuse? || a.Finish?) && a.e in Do(w, a).execs
    ensures ExecOk(Do(w, a), Do(w, a).execs[a.e])
  {
    DoGrows(w, a);
    assert ExecOk(w, w.execs[a.e]);
  }

  /** The call an act belongs to. */
  function CallOf(a: Act): Option<nat> {
    match a
    case TakeOn(e, _, _, _) => Some(e)
    case Again(e, _, _, _) => Some(e)
    case Refuse(e, _, _, _) => Some(e)
    case Extract(e, _, _) => Some(e)
    case Save(e, _, _) => Some(e)
    case Link(e) => Some(e)
    case PushLink(e, _) => Some(e)
    case Finish(e, _, _) => Some(e)
    case Leave(e) => Some(e)
    case _ => None
  }

  lemma OtherCalls(w: World, a: Act, e: nat)
    requires Enabled(w, a) && e in Do(w, a).execs && CallOf(a) != Some(e)
    ensures e in w.execs && Do(w, a).execs[e] == w.execs[e]
  {
  }

  lemma OwnCall(w: World, a: Act, e: nat)
    requires Enabled(w, a) && CrawlInv(w) && e in Do(w, a).execs && CallOf(a) == Some(e)
    ensures ExecOk(Do(w, a), Do(w, a).execs[e])
  {
    match a
    case TakeOn(_, _, _, _) => TakeOnExecOk(w, a);
    case Extract(_, _, _) => ExtractExecOk(w, a);
    case Save(_, _, _) => SaveExecOk(w, a);
    case Link(_) => LinkExecOk(w, a);
    case PushLink(_, _) => PushLinkExecOk(w, a);
    case Again(_, _, _, _) => UnheardExecOk(w, a);
    case Refuse(_, _, _, _) => UnheardExecOk(w, a);
    case Finish(_, _, _) => UnheardExecOk(w, a);
  }

  lemma DoKeepsExec(w: World, a: Act, e: nat)
    requires Enabled(w, a) && CrawlInv(w) && e in Do(w, a).execs
    ensures ExecOk(Do(w, a), Do(w, a).execs[e])
  {
    if CallOf(a) == Some(e) {
      OwnCall(w, a, e);
    } else {
      OtherCalls(w, a, e);
      DoGrows(w, a);
      StillExecOk(w, Do(w, a), w.execs[e]);
    }
  }

  /** What an act adds to the history. */
  lemma HistoryAfter(w: World, a: Act)
    requires Enabled(w, a)
    ensures var r := Do(w, a);
            && r.seeds == w.seeds + (if a.Seed? then {a.url} else {})
            && r.scanned == w.scanned + (if a.Scan? then w.f.index else {})
            && (a.PushLink? ==> var x := w.execs[a.e]; r.pushed == w.pushed + {(x.url, x.phase.links[x.phase.sent])})
            && (!a.PushLink? ==> r.pushed == w.pushed)
  {
  }

  lemma PushTracks(w: World, a: Act, u: Url)
    requires ScriptOf(w, a).Some? && ScriptOf(w, a).value.Push? && ScriptOf(w, a).value.url == u
    ensures u in FrontierAfter(w, a).info
  {
  }

  lemma HistoryKept(w: World, r: World)
    requires HistoryOk(w) && Closed(w.f) && Grows(w, r)
    requires forall u :: u in r.seeds ==> u in w.seeds || u in r.f.info
    requires forall e :: e in r.pushed ==> e in w.pushed || e.1 in r.f.info
    requires r.scanned <= w.scanned + w.f.index
    ensures HistoryOk(r)
  {
    forall u | u in r.scanned ensures u in r.f.info {
      assert u in w.f.info;
    }
  }

  lemma DoKeepsHistory(w: World, a: Act)
    requires Enabled(w, a) && CrawlInv(w)
    ensures HistoryOk(Do(w, a))
  {
    DoGrows(w, a);
    DoFrontier(w, a);
    HistoryAfter(w, a);
    if a.Seed? {
      PushTracks(w, a, a.url);
    } else if a.PushLink? {
      PushTracks(w, a, w.execs[a.e].phase.links[w.execs[a.e].phase.sent]);
    }
    HistoryKept(w, Do(w, a));
  }

  lemma DoKeepsInv(w: World, a: Act)
    requires Enabled(w, a) && CrawlInv(w)
    ensures CrawlInv(Do(w, a))
  {
    DoKeepsStores(w, a);
    forall u ensures EntryOk(Do(w, a), u) && DoneOk(Do(w, a), u) {
      DoKeepsEntry(w, a, u);
      DoKeepsDone(w, a, u);
    }
    forall id ensures RootOk(Do(w, a), id) {
      DoKeepsRoots(w, a, id);
    }
    forall e | e in Do(w, a).execs ensures ExecOk(Do(w, a), Do(w, a).execs[e]) {
      DoKeepsExec(w, a, e);
    }
    DoKeepsHistory(w, a);
  }

  lemma {:induction false} RunKeepsInv(w: World, acts: seq<Act>)
    requires CrawlRun(w, acts) && CrawlInv(w)
    ensures CrawlInv(CrawlEnd(w, acts))
    decreases |acts|
  {
    if acts != [] {
      DoKeepsInv(w, acts[0]);
      RunKeepsInv(Do(w, acts[0]), acts[1..]);
    }
  }

  // ----- the theorems -----

  lemma InvReachable(w: World, u: Url)
    requires CrawlInv(w)
    ensures u in w.f.info <==> Reach(w.seeds, w.pushed, u)
    ensures w.f.Is(u, Done) ==>
              u in w.landed &&
              forall v :: v in w.landed[u].links ==> (w.landed[u].from, v) in w.pushed && v in w.f.info
  {
    assert EntryOk(w, u) && DoneOk(w, u);
    if Reach(w.seeds, w.pushed, u) {
      var path :| IsPath(w.seeds, w.pushed, path, u);
      PathInside(w.seeds, w.pushed, path, u, w.f.info.Keys);
    }
  }

  /** In every state of every crawl, what is tracked is exactly what can be reached from the seeds along
      pushed links; and for a URL marked Done, the links that call found are all pushed, hence tracked. */
  lemma TrackedIffReachable(acts: seq<Act>, u: Url)
    requires CrawlRun(START, acts)
    ensures var w := CrawlEnd(START, acts);
            && (u in w.f.info <==> Reach(w.seeds, w.pushed, u))
            && (w.f.Is(u, Done) ==>
                  u in w.landed &&
                  forall v :: v in w.landed[u].links ==> (w.landed[u].from, v) in w.pushed && v in w.f.info)
  {
    RunKeepsInv(START, acts);
    InvReachable(CrawlEnd(START, acts), u);
  }

  /** The row can be reached through the links table from the page on which a seed landed. */
  ghost predicate FromSeed(w: World, id: int) {
    exists root :: root in w.roots && w.roots[root].0 in w.seeds && w.roots[root].1 in w.db.pages &&
      w.db.pages[w.roots[root].1].id == root && Reach({root}, w.db.links, id)
  }

  lemma RootedFromSeed(w: World, id: int)
    requires CrawlInv(w) && Rooted(w, id)
    ensures FromSeed(w, id)
  {
    var path :| IsPath(w.roots.Keys, w.db.links, path, id);
    assert RootOk(w, path[0]);
    assert IsPath({path[0]}, w.db.links, path, id);
  }

  /** The page a Done URL landed on, after any redirect, has a row connected through the links table to the page
      of a seed; and so has the page of the parent of every tracked URL that has one. A URL without a parent is a
      seed itself. */
  lemma PagesConnectToSeeds(acts: seq<Act>, u: Url)
    requires CrawlRun(START, acts) && u in CrawlEnd(START, acts).f.info
    ensures var w := CrawlEnd(START, acts); var parent := w.f.info[u].parent;
            && parent.Some?
            && (parent.value == NO_PARENT ==> u in w.seeds)
            && (parent.value != NO_PARENT ==>
                  parent.value in w.db.pages && FromSeed(w, w.db.pages[parent.value].id))
            && (w.f.Is(u, Done) ==>
                  && u in w.landed && w.landed[u].final in w.db.pages
                  && FromSeed(w, w.db.pages[w.landed[u].final].id))
  {
    var w := CrawlEnd(START, acts);
    RunKeepsInv(START, acts);
    assert EntryOk(w, u) && DoneOk(w, u);
    var parent := w.f.info[u].parent.value;
    if parent != NO_PARENT {
      RootedFromSeed(w, w.db.pages[parent].id);
    }
    if w.f.Is(u, Done) {
      RootedFromSeed(w, w.db.pages[w.landed[u].final].id);
    }
  }

  /** Saving a link never silently does nothing. */
  lemma LinkIsSaved(acts: seq<Act>, e: nat)
    requires CrawlRun(START, acts) && Enabled(CrawlEnd(START, acts), Link(e))
    ensures var w := CrawlEnd(START, acts); var x := w.execs[e];
            x.parent != NO_PARENT ==>
              x.parent in w.db.pages && (w.db.pages[x.parent].id, x.phase.id) in Do(w, Link(e)).db.links
  {
    RunKeepsInv(START, acts);
    LinkRoots(CrawlEnd(START, acts), e);
  }
}
