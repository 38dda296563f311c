/** What one Execute call leaves in the stores, as a function of the answers it gets: first along its branches, then
    stated outright. */
module CallEffect {
  import opened Basics
  import opened Backoff
  import opened FrontierState
  import opened FrontierStore
  import opened PageStore

  datatype FetchStatus = FetchImpossible | FetchOK | FetchRetry | FetchManual

  /** An error may reach the caller although the statement was `applied`. */
  datatype DbReply = Fine | Transient(applied: bool) | Fatal(applied: bool)

  /** What the outside world answers during one call: clock readings, what became of the scripts, the fetcher
      (None is an error), the extractor (None is an error), the database, and how many of the link pushes were
      executed if the pipeline failed. */
  datatype Io = Io(
    enqueueAt: int, popAt: int, readAt: int, jitter: int, wakeAt: int, at: int,
    enqueue: Delivery, pop: Delivery, metadataFails: bool,
    fetch: Option<FetchStatus>, extract: Option<(Page, seq<Url>)>,
    saved: DbReply, linked: DbReply, l2: Vector -> Vector,
    pushFails: bool, sent: nat, retry: Delivery, mark: Delivery, cleanup: Delivery)

  /** A freshly extracted page has an absolute address and no vector. */
  predicate Valid(io: Io) {
    io.extract.Some? ==> io.extract.value.0.url != NO_PARENT && io.extract.value.0.vector.None?
  }

  /** The page and its link are stored and every link has been pushed. */
  predicate Stored(io: Io, parent: Url) {
    && io.extract.Some? && io.saved.Fine? && (parent == NO_PARENT || io.linked.Fine?)
    && (io.extract.value.1 == [] || !io.pushFails)
  }

  /** The database had a passing problem. */
  predicate Stumbled(io: Io, parent: Url) {
    && io.extract.Some?
    && (io.saved.Transient? || (io.saved.Fine? && parent != NO_PARENT && io.linked.Transient?))
  }

  /** The script ran, and the call did not go on to give the URL up. */
  predicate Lasts(script: Delivery, io: Io) {
    script.Heard? || (script.Lost? && io.cleanup.Unsent?)
  }

  /** The status a call leaves its URL with. Processing means left for the reaper. */
  predicate Leaves(io: Io, tries: int, parent: Url, conf: CrawlConfig, status: CrawlStatus) {
    var stored := io.fetch == Some(FetchOK) && Stored(io, parent);
    var retries := io.fetch == Some(FetchRetry) && (conf.tryLim == -1 || tries < conf.tryLim);
    && (status == Done <==> stored && Lasts(io.mark, io))
    && (status == Retry <==> retries && Lasts(io.retry, io))
    && (status == Manual <==> io.fetch == Some(FetchManual) && !io.cleanup.Unsent?)
    && (status == Processing <==>
          || (io.fetch == Some(FetchOK) && Stumbled(io, parent))
          || (io.cleanup.Unsent? && !(stored && !io.mark.Unsent?) && !(retries && !io.retry.Unsent?)))
    && status in {Done, Retry, Manual, Processing, GiveUp}
  }

  // ----- along the branches -----

  function Requests(links: seq<Url>, parent: Url): (r: seq<(Url, Url)>)
    ensures |r| == |links| && forall i :: 0 <= i < |r| ==> r[i] == (links[i], parent)
  {
    seq(|links|, i requires 0 <= i < |links| => (links[i], parent))
  }

  lemma RequestsSnoc(links: seq<Url>, n: nat, parent: Url)
    requires n < |links|
    ensures Requests(links[..n + 1], parent) == Requests(links[..n], parent) + [(links[n], parent)]
  {
  }

  /** How many of the link pushes are executed. */
  function SentCount(links: seq<Url>, io: Io): nat {
    if links != [] && io.pushFails && io.sent <= |links| then io.sent else |links|
  }

  function RefuseState(s: State, key: Url, status: CrawlStatus, io: Io): State {
    if io.cleanup.Unsent? then s else MarkUrl(s, key, status)
  }

  function CompleteState(s: State, key: Url, io: Io): State {
    if io.mark.Unsent? || key !in s.info then RefuseState(s, key, GiveUp, io)
    else if io.mark.Heard? then MarkUrl(s, key, Done)
    else RefuseState(MarkUrl(s, key, Done), key, GiveUp, io)
  }

  function PushState(s: State, key: Url, final: Url, links: seq<Url>, io: Io): State {
    var p := PushAll(s, Requests(links[..SentCount(links, io)], final));
    if links != [] && io.pushFails then RefuseState(p, key, GiveUp, io) else CompleteState(p, key, io)
  }

  function AbandonState(s: State, key: Url, reply: DbReply, io: Io): State {
    if reply.Transient? then s else RefuseState(s, key, GiveUp, io)
  }

  function ConnectState(s: State, key: Url, parent: Url, final: Url, links: seq<Url>, io: Io): State {
    if parent != NO_PARENT && !io.linked.Fine? then AbandonState(s, key, io.linked, io)
    else PushState(s, key, final, links, io)
  }

  function StoreState(s: State, key: Url, parent: Url, final: Url, links: seq<Url>, io: Io): State {
    if io.saved.Fine? then ConnectState(s, key, parent, final, links, io) else AbandonState(s, key, io.saved, io)
  }

  function LandState(s: State, key: Url, parent: Url, io: Io): State {
    match io.extract
    case None => RefuseState(s, key, GiveUp, io)
    case Some((page, links)) => StoreState(s, key, parent, page.url, links, io)
  }

  function DeferState(s: State, key: Url, tries: int, io: Io, conf: CrawlConfig): State {
    var retryAt := CalcRetryTime(tries, conf, io.at);
    if retryAt.None? || io.retry.Unsent? || key !in s.info then RefuseState(s, key, GiveUp, io)
    else if io.retry.Heard? then RetryUrl(s, key, Milli(retryAt.value))
    else RefuseState(RetryUrl(s, key, Milli(retryAt.value)), key, GiveUp, io)
  }

  /** The frontier after a call that has popped a URL with this key from s. */
  function EndState(s: State, key: Url, tries: int, parent: Url, io: Io, conf: CrawlConfig): State {
    match io.fetch
    case Some(FetchOK) => LandState(s, key, parent, io)
    case Some(FetchRetry) => DeferState(s, key, tries, io, conf)
    case Some(FetchManual) => RefuseState(s, key, Manual, io)
    case _ => RefuseState(s, key, GiveUp, io)
  }

  /** The URL is marked Done, whether the call hears of it or not. */
  predicate PushMarks(s: State, key: Url, final: Url, links: seq<Url>, io: Io) {
    !(links != [] && io.pushFails) && !io.mark.Unsent? && key in PushAll(s, Requests(links[..|links|], final)).info
  }

  predicate ConnectMarks(s: State, key: Url, parent: Url, final: Url, links: seq<Url>, io: Io) {
    (parent == NO_PARENT || io.linked.Fine?) && PushMarks(s, key, final, links, io)
  }

  predicate StoreMarks(s: State, key: Url, parent: Url, final: Url, links: seq<Url>, io: Io) {
    io.saved.Fine? && ConnectMarks(s, key, parent, final, links, io)
  }

  predicate Applied(reply: DbReply) {
    reply.Fine? || reply.applied
  }

  function LinkTables(db: Db, parent: Url, id: int, io: Io): Db {
    if parent != NO_PARENT && Applied(io.linked) then InsertLink(db, parent, id) else db
  }

  function StoreTables(db: Db, parent: Url, page: Page, io: Io): Db {
    if !Applied(io.saved) then db
    else
      var (r, id) := InsertPage(db, page, io.l2);
      if io.saved.Fine? then LinkTables(r, parent, id, io) else r
  }

  /** The tables after a call. */
  function Tables(db: Db, parent: Url, io: Io): Db {
    if io.fetch == Some(FetchOK) && io.extract.Some? then StoreTables(db, parent, io.extract.value.0, io) else db
  }

  // ----- stated outright: the status -----

  lemma StoreMarksIff(s: State, key: Url, parent: Url, final: Url, links: seq<Url>, io: Io)
    requires key in s.info && io.extract.Some? && links == io.extract.value.1
    ensures StoreMarks(s, key, parent, final, links, io) <==> Stored(io, parent) && !io.mark.Unsent?
  {
    ManyPushed(s, links[..|links|], final, key);
  }

  lemma ManyPushed(s: State, links: seq<Url>, final: Url, u: Url)
    requires u in s.info
    ensures var p := PushAll(s, Requests(links, final)); u in p.info && p.info[u] == s.info[u]
  {
    PushAllTracks(s, Requests(links, final));
  }

  lemma RefusalStatus(s: State, u: Url, key: Url, status: CrawlStatus, io: Io)
    requires u in s.info
    ensures var r := RefuseState(s, key, status, io);
            && u in r.info
            && r.info[u] == if io.cleanup.Unsent? || key != u then s.info[u] else s.info[u].(status := status)
  {
  }

  lemma CompletionStatus(s: State, u: Url, key: Url, io: Io)
    requires s.Is(u, Processing)
    ensures var r := CompleteState(s, key, io);
            && u in r.info && (key != u ==> r.info[u] == s.info[u])
            && (key == u ==> r.info[u].status ==
                             if Lasts(io.mark, io) then Done else if io.cleanup.Unsent? then Processing else GiveUp)
  {
    RefusalStatus(s, u, key, GiveUp, io);
    if !io.mark.Unsent? && key in s.info {
      RefusalStatus(MarkUrl(s, key, Done), u, key, GiveUp, io);
    }
  }

  /** u has been left with this status, or with its own under another key. */
  ghost predicate Left(s: State, r: State, u: Url, key: Url, status: CrawlStatus) {
    u in s.info && u in r.info && if key == u then r.info[u].status == status else r.info[u] == s.info[u]
  }

  /** The status after the link has been saved. */
  function PushStatus(links: seq<Url>, io: Io): CrawlStatus {
    if (links == [] || !io.pushFails) && Lasts(io.mark, io) then Done
    else if io.cleanup.Unsent? then Processing else GiveUp
  }

  lemma PushingStatus(s: State, u: Url, key: Url, final: Url, links: seq<Url>, io: Io)
    requires s.Is(u, Processing)
    ensures Left(s, PushState(s, key, final, links, io), u, key, PushStatus(links, io))
  {
    var p := PushAll(s, Requests(links[..SentCount(links, io)], final));
    ManyPushed(s, links[..SentCount(links, io)], final, u);
    RefusalStatus(p, u, key, GiveUp, io);
    CompletionStatus(p, u, key, io);
  }

  lemma AbandoningStatus(s: State, u: Url, key: Url, reply: DbReply, io: Io)
    requires s.Is(u, Processing)
    ensures Left(s, AbandonState(s, key, reply, io), u, key,
                 if reply.Transient? || io.cleanup.Unsent? then Processing else GiveUp)
  {
    RefusalStatus(s, u, key, GiveUp, io);
  }

  /** The status after the page has been saved. */
  function ConnectStatus(parent: Url, links: seq<Url>, io: Io): CrawlStatus {
    if parent == NO_PARENT || io.linked.Fine? then PushStatus(links, io)
    else if io.linked.Transient? || io.cleanup.Unsent? then Processing else GiveUp
  }

  lemma ConnectingStatus(s: State, u: Url, key: Url, parent: Url, final: Url, links: seq<Url>, io: Io)
    requires s.Is(u, Processing)
    ensures Left(s, ConnectState(s, key, parent, final, links, io), u, key, ConnectStatus(parent, links, io))
  {
    if parent != NO_PARENT && !io.linked.Fine? {
      AbandoningStatus(s, u, key, io.linked, io);
    } else {
      PushingStatus(s, u, key, final, links, io);
    }
  }

  lemma StoringStatus(s: State, u: Url, key: Url, parent: Url, final: Url, links: seq<Url>, io: Io)
    requires s.Is(u, Processing)
    ensures Left(s, StoreState(s, key, parent, final, links, io), u, key,
                 if io.saved.Fine? then ConnectStatus(parent, links, io)
                 else if io.saved.Transient? || io.cleanup.Unsent? then Processing else GiveUp)
  {
    if io.saved.Fine? {
      ConnectingStatus(s, u, key, parent, final, links, io);
    } else {
      AbandoningStatus(s, u, key, io.saved, io);
    }
  }

  lemma LandedStatus(s: State, u: Url, key: Url, parent: Url, io: Io)
    requires s.Is(u, Processing)
    ensures Left(s, LandState(s, key, parent, io), u, key,
                 if Stored(io, parent) && Lasts(io.mark, io) then Done
                 else if Stumbled(io, parent) || io.cleanup.Unsent? then Processing else GiveUp)
  {
    if io.extract.None? {
      RefusalStatus(s, u, key, GiveUp, io);
    } else {
      StoringStatus(s, u, key, parent, io.extract.value.0.url, io.extract.value.1, io);
    }
  }

  lemma DeferralStatus(s: State, u: Url, key: Url, tries: int, io: Io, conf: CrawlConfig)
    requires s.Is(u, Processing)
    ensures var r := DeferState(s, key, tries, io, conf);
            && u in r.info && (key != u ==> r.info[u] == s.info[u])
            && (key == u ==> r.info[u].status ==
                             if (conf.tryLim == -1 || tries < conf.tryLim) && Lasts(io.retry, io) then Retry
                             else if io.cleanup.Unsent? then Processing else GiveUp)
  {
    RefusalStatus(s, u, key, GiveUp, io);
    var retryAt := CalcRetryTime(tries, conf, io.at);
    if retryAt.Some? && !io.retry.Unsent? && key in s.info {
      RefusalStatus(RetryUrl(s, key, Milli(retryAt.value)), u, key, GiveUp, io);
    }
  }

  /** The status a URL under work ends with; under another key it stays in processing. */
  lemma ProcessedLeaves(s: State, u: Url, key: Url, tries: int, parent: Url, io: Io, conf: CrawlConfig)
    requires s.Is(u, Processing)
    ensures var r := EndState(s, key, tries, parent, io, conf);
            && u in r.info
            && (if key == u then Leaves(io, tries, parent, conf, r.info[u].status) else r.info[u] == s.info[u])
  {
    match io.fetch
    case Some(FetchOK) => LandedStatus(s, u, key, parent, io);
    case Some(FetchRetry) => DeferralStatus(s, u, key, tries, io, conf);
    case Some(FetchManual) => RefusalStatus(s, u, key, Manual, io);
    case _ => RefusalStatus(s, u, key, GiveUp, io);
  }

  // ----- stated outright: the tables -----

  /** The extracted page has been written. */
  predicate RowWritten(io: Io) {
    io.fetch == Some(FetchOK) && io.extract.Some? && Applied(io.saved)
  }

  /** The link has been written, if the parent has a row. */
  predicate LinkWritten(io: Io, parent: Url) {
    RowWritten(io) && io.saved.Fine? && parent != NO_PARENT && Applied(io.linked)
  }

  /** The row of the page's address holds what was extracted and awaits a vector; no other row changes. The links are
      the old ones and, when one is written, the one from the parent's row to this row. */
  ghost predicate TablesCarry(db: Db, r: Db, parent: Url, io: Io) {
    && (RowWritten(io) ==>
          var page := io.extract.value.0;
          && r.pages.Keys == db.pages.Keys + {page.url}
          && (forall p :: p in db.pages && p != page.url ==> r.pages[p] == db.pages[p])
          && (var row := r.pages[page.url];
              && row.title == page.title && row.description == page.description && row.content == page.content
              && row.crawledAt == page.crawledAt && row.vector == None && row.canBeVectorized
              && row.id == (if page.url in db.pages then db.pages[page.url].id else db.nextId))
          && r.links ==
             if LinkWritten(io, parent) && parent in r.pages
             then db.links + {(r.pages[parent].id, r.pages[page.url].id)} else db.links)
    && (!RowWritten(io) ==> r == db)
  }

  lemma TablesOutright(db: Db, parent: Url, io: Io)
    requires Valid(io)
    ensures TablesCarry(db, Tables(db, parent, io), parent, io)
  {
  }

  // ----- stated outright: the frontier -----

  /** The links whose push is executed: all, unless the page or its link could not be saved, or the pipeline broke. */
  function SentLinks(io: Io, parent: Url): seq<Url> {
    if io.fetch == Some(FetchOK) && io.extract.Some? && io.saved.Fine? && (parent == NO_PARENT || io.linked.Fine?)
    then
      var links := io.extract.value.1;
      if io.pushFails && io.sent <= |links| then links[..io.sent] else links
    else []
  }

  /** The links that are not known yet, each at its first occurrence, in the order of the page. */
  function FirstNew(known: set<Url>, links: seq<Url>): seq<Url> {
    if links == [] then []
    else
      var n := |links| - 1;
      FirstNew(known, links[..n]) + if links[n] in known || links[n] in links[..n] then [] else [links[n]]
  }

  lemma PushedKnown(s: State, links: seq<Url>, final: Url)
    ensures forall u :: u in PushAll(s, Requests(links, final)).info <==> u in s.info || u in links
  {
    PushAllTracks(s, Requests(links, final));
    assert Keys(Requests(links, final)) == links;
  }

  lemma {:induction false} FirstNewIsNewly(s: State, links: seq<Url>, final: Url)
    ensures Keys(Newly(s, Requests(links, final))) == FirstNew(s.info.Keys, links)
    decreases |links|
  {
    if links == [] {
      assert Requests(links, final) == [];
    } else {
      var n := |links| - 1;
      FirstNewIsNewly(s, links[..n], final);
      NewlySnoc(s, links, n, final);
    }
  }

  lemma NewlySnoc(s: State, links: seq<Url>, n: nat, final: Url)
    requires n < |links|
    ensures Keys(Newly(s, Requests(links[..n + 1], final))) ==
            Keys(Newly(s, Requests(links[..n], final))) +
            if links[n] in s.info || links[n] in links[..n] then [] else [links[n]]
    ensures n + 1 == |links| ==> links[..n + 1] == links
  {
    var before := Requests(links[..n], final);
    RequestsSnoc(links, n, final);
    PushAllSnoc(s, before, (links[n], final));
    PushedKnown(s, links[..n], final);
    KeysConcat(Newly(s, before), if links[n] in PushAll(s, before).info then [] else [(links[n], final)]);
  }

  lemma KeysConcat(a: seq<(Url, Url)>, b: seq<(Url, Url)>)
    ensures Keys(a + b) == Keys(a) + Keys(b)
  {
  }

  /** From t to s the given links have been pushed: the new ones are tracked under the page's address and wait in the
      order of the page, behind what waited before. */
  ghost predicate LinksPushed(t: State, s: State, links: seq<Url>, final: Url) {
    && (forall v :: v in s.info <==> v in t.info || v in links)
    && (forall v :: v in links && v !in t.info ==> s.info[v] == Info(Queued, NOBODY, 0, -1, -1, Some(final)))
    && s.queue == Reverse(FirstNew(t.info.Keys, links)) + t.queue
  }

  lemma PushesOutright(t: State, links: seq<Url>, final: Url)
    ensures var p := PushAll(t, Requests(links, final));
            && LinksPushed(t, p, links, final)
            && p.working == t.working && p.index == t.index && p.retry == t.retry
            && (forall v :: v in t.info ==> p.info[v] == t.info[v])
  {
    var reqs := Requests(links, final);
    var p := PushAll(t, reqs);
    PushAllTracks(t, reqs);
    PushAllQueues(t, reqs);
    PushedKnown(t, links, final);
    FirstNewIsNewly(t, links, final);
    forall v | v in links && v !in t.info ensures p.info[v] == Info(Queued, NOBODY, 0, -1, -1, Some(final)) {
      NewlyIsAll(t, reqs, v);
      var i :| 0 <= i < |Newly(t, reqs)| && Newly(t, reqs)[i].0 == v;
      NewlyEntries(t, reqs, Newly(t, reqs)[i]);
      var k :| 0 <= k < |reqs| && reqs[k] == Newly(t, reqs)[i];
    }
  }

  /** The retry script ran. */
  predicate Rescheduled(io: Io, tries: int, conf: CrawlConfig) {
    io.fetch == Some(FetchRetry) && CalcRetryTime(tries, conf, io.at).Some? && !io.retry.Unsent?
  }

  /** When the URL is to be retried, if its retry was scheduled: in whole milliseconds. */
  function RetryTime(io: Io, tries: int, conf: CrawlConfig): Option<int> {
    if Rescheduled(io, tries, conf) then Some(Milli(CalcRetryTime(tries, conf, io.at).value)) else None
  }

  /** From t to s only u has been completed, rescheduled or neither. */
  ghost predicate OnlyCloses(t: State, s: State, u: Url, retryAt: Option<int>) {
    && u in t.info && s.info.Keys == t.info.Keys && s.queue == t.queue
    && (forall v :: v in t.info && v != u ==> s.info[v] == t.info[v])
    && s.info[u] == t.info[u].(status := s.info[u].status,
                               tries := t.info[u].tries + if retryAt.Some? then 1 else 0,
                               retryAt := if retryAt.Some? then retryAt.value else t.info[u].retryAt)
    && s.retry == (if retryAt.Some? then t.retry[u := retryAt.value] else t.retry)
    && s.index == (if s.info[u].status == Processing then t.index else t.index - {u})
    && (forall w :: w != t.info[u].workerId || s.info[u].status == Processing ==> s.ListOf(w) == t.ListOf(w))
    && (var w := t.info[u].workerId;
        && (forall v :: v != u ==> multiset(s.ListOf(w))[v] == multiset(t.ListOf(w))[v])
        && (s.info[u].status != Processing && multiset(t.ListOf(w))[u] <= 1 ==> u !in s.ListOf(w)))
  }

  lemma MarkOnly(t: State, u: Url, status: CrawlStatus)
    requires u in t.info && status != Processing
    ensures OnlyCloses(t, MarkUrl(t, u, status), u, None)
  {
    var w, r := t.info[u].workerId, MarkUrl(t, u, status);
    assert r.ListOf(w) == RemoveFirst(t.ListOf(w), u);
    assert u in r.ListOf(w) <==> u in multiset(r.ListOf(w));
  }

  lemma RetryOnly(t: State, u: Url, retryAt: int)
    requires u in t.info
    ensures OnlyCloses(t, RetryUrl(t, u, retryAt), u, Some(retryAt))
  {
    var w, r := t.info[u].workerId, RetryUrl(t, u, retryAt);
    assert r.ListOf(w) == RemoveFirst(t.ListOf(w), u);
    assert u in r.ListOf(w) <==> u in multiset(r.ListOf(w));
  }

  lemma NothingOnly(t: State, u: Url)
    requires t.Is(u, Processing)
    ensures OnlyCloses(t, t, u, None)
  {
  }

  lemma OnlyAgain(t: State, s: State, u: Url, retryAt: Option<int>, r: State)
    requires OnlyCloses(t, s, u, retryAt) && OnlyCloses(s, r, u, None)
    requires s.info[u].status != Processing && r.info[u].status != Processing
    ensures OnlyCloses(t, r, u, retryAt)
  {
    var w := t.info[u].workerId;
    assert multiset(s.ListOf(w))[u] == 0 || multiset(t.ListOf(w))[u] > 1 by {
      assert u in s.ListOf(w) <==> u in multiset(s.ListOf(w));
    }
  }

  lemma RefusalOnly(t: State, u: Url, status: CrawlStatus, io: Io)
    requires t.Is(u, Processing) && status != Processing
    ensures OnlyCloses(t, RefuseState(t, u, status, io), u, None)
  {
    if io.cleanup.Unsent? {
      NothingOnly(t, u);
    } else {
      MarkOnly(t, u, status);
    }
  }

  lemma CompletionOnly(t: State, u: Url, io: Io)
    requires t.Is(u, Processing)
    ensures OnlyCloses(t, CompleteState(t, u, io), u, None)
  {
    RefusalOnly(t, u, GiveUp, io);
    var done := MarkUrl(t, u, Done);
    MarkOnly(t, u, Done);
    if io.mark.Lost? && !io.cleanup.Unsent? {
      MarkOnly(done, u, GiveUp);
      OnlyAgain(t, done, u, None, MarkUrl(done, u, GiveUp));
    }
  }

  lemma DeferralOnly(t: State, u: Url, tries: int, io: Io, conf: CrawlConfig)
    requires t.Is(u, Processing) && io.fetch == Some(FetchRetry)
    ensures OnlyCloses(t, DeferState(t, u, tries, io, conf), u, RetryTime(io, tries, conf))
  {
    var retryAt := CalcRetryTime(tries, conf, io.at);
    RefusalOnly(t, u, GiveUp, io);
    if retryAt.Some? {
      var again := RetryUrl(t, u, Milli(retryAt.value));
      RetryOnly(t, u, Milli(retryAt.value));
      if io.retry.Lost? && !io.cleanup.Unsent? {
        MarkOnly(again, u, GiveUp);
        OnlyAgain(t, again, u, Some(Milli(retryAt.value)), MarkUrl(again, u, GiveUp));
      }
    }
  }

  /** What a call under its own key does to the frontier it has popped the URL from. */
  ghost predicate FrontierCarries(t: State, s: State, u: Url, tries: int, parent: Url, io: Io, conf: CrawlConfig) {
    exists p :: Between(t, p, s, u, tries, parent, io, conf)
  }

  /** First the links are pushed, then the URL is completed. */
  ghost predicate Between(
    t: State, p: State, s: State, u: Url, tries: int, parent: Url, io: Io, conf: CrawlConfig)
  {
    && (SentLinks(io, parent) == [] ==> p == t)
    && (SentLinks(io, parent) != [] ==>
          && LinksPushed(t, p, SentLinks(io, parent), io.extract.value.0.url)
          && p.working == t.working && p.index == t.index && p.retry == t.retry
          && (forall v :: v in t.info ==> p.info[v] == t.info[v]))
    && OnlyCloses(p, s, u, RetryTime(io, tries, conf))
  }

  lemma PushingOutright(t: State, u: Url, final: Url, links: seq<Url>, io: Io) returns (p: State)
    requires t.Is(u, Processing)
    ensures p == PushAll(t, Requests(links[..SentCount(links, io)], final))
    ensures OnlyCloses(p, PushState(t, u, final, links, io), u, None)
  {
    var sent := links[..SentCount(links, io)];
    p := PushAll(t, Requests(sent, final));
    ManyPushed(t, sent, final, u);
    RefusalOnly(p, u, GiveUp, io);
    CompletionOnly(p, u, io);
  }

  lemma ConnectedOutright(t: State, u: Url, tries: int, parent: Url, io: Io, conf: CrawlConfig)
    requires t.Is(u, Processing) && io.fetch == Some(FetchOK) && io.extract.Some? && io.saved.Fine?
    requires parent == NO_PARENT || io.linked.Fine?
    ensures var s := PushState(t, u, io.extract.value.0.url, io.extract.value.1, io);
            FrontierCarries(t, s, u, tries, parent, io, conf)
  {
    var (page, links) := io.extract.value;
    var sent := links[..SentCount(links, io)];
    var p := PushingOutright(t, u, page.url, links, io);
    assert links[..|links|] == links && sent == SentLinks(io, parent);
    PushesOutright(t, sent, page.url);
    if sent == [] {
      assert Requests(sent, page.url) == [];
    }
    assert Between(t, p, PushState(t, u, page.url, links, io), u, tries, parent, io, conf);
  }

  lemma LandedOutright(t: State, u: Url, tries: int, parent: Url, io: Io, conf: CrawlConfig)
    requires t.Is(u, Processing) && io.fetch == Some(FetchOK)
    ensures FrontierCarries(t, LandState(t, u, parent, io), u, tries, parent, io, conf)
  {
    if io.extract.None? || !io.saved.Fine? || (parent != NO_PARENT && !io.linked.Fine?) {
      RefusalOnly(t, u, GiveUp, io);
      NothingOnly(t, u);
      assert Between(t, t, LandState(t, u, parent, io), u, tries, parent, io, conf);
    } else {
      ConnectedOutright(t, u, tries, parent, io, conf);
    }
  }

  lemma FrontierOutright(t: State, u: Url, tries: int, parent: Url, io: Io, conf: CrawlConfig)
    requires t.Is(u, Processing)
    ensures FrontierCarries(t, EndState(t, u, tries, parent, io, conf), u, tries, parent, io, conf)
  {
    var s := EndState(t, u, tries, parent, io, conf);
    match io.fetch
    case Some(FetchOK) => LandedOutright(t, u, tries, parent, io, conf);
    case Some(FetchRetry) =>
      DeferralOnly(t, u, tries, io, conf);
      assert Between(t, t, s, u, tries, parent, io, conf);
    case Some(FetchManual) =>
      RefusalOnly(t, u, Manual, io);
      assert Between(t, t, s, u, tries, parent, io, conf);
    case _ =>
      RefusalOnly(t, u, GiveUp, io);
      assert Between(t, t, s, u, tries, parent, io, conf);
  }

  /** Every link is tracked, and those that were not known wait in the order of the page behind what waited before. */
  ghost predicate AllPushed(t: State, s: State, links: seq<Url>, final: Url) {
    && (forall v :: v in links ==> v in s.info)
    && (forall v :: v in links && v !in t.info ==> s.info[v] == Info(Queued, NOBODY, 0, -1, -1, Some(final)))
    && s.queue == Reverse(FirstNew(t.info.Keys, links)) + t.queue
  }

  /** A call that has stored the page and its link, and whose pipeline did not break, has pushed every link. */
  lemma StoredPushesAll(t: State, s: State, u: Url, tries: int, parent: Url, io: Io, conf: CrawlConfig)
    requires t.Is(u, Processing) && io.fetch == Some(FetchOK) && Stored(io, parent)
    requires FrontierCarries(t, s, u, tries, parent, io, conf)
    ensures AllPushed(t, s, io.extract.value.1, io.extract.value.0.url)
  {
    var p :| Between(t, p, s, u, tries, parent, io, conf);
    var links := io.extract.value.1;
    assert links == [] || SentLinks(io, parent) == links;
    assert FirstNew(t.info.Keys, []) == [];
  }
}
