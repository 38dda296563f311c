/** The crawl frontier kept in Redis, as a value: one status hash, the main list, one list per
    worker, the processing index and the retry set. Each Lua script is a function on it. */
module FrontierState {
  import opened Basics

  /** A URL as the frontier sees it: an opaque key. */
  datatype Url = Url(text: string)
  datatype WorkerId = WorkerId(name: string)

  /** The parent of a seed, and the worker of an entry nobody has taken on. */
  const NO_PARENT := Url("")
  const NOBODY := WorkerId("")

  datatype CrawlStatus = Unknown | Queued | Processing | Done | Manual | GiveUp | Retry

  predicate Terminal(status: CrawlStatus) {
    status.Done? || status.Manual? || status.GiveUp?
  }

  /** One entry of crawler:url:status. The repair branches write entries without a parent. */
  datatype Info = Info(
    status: CrawlStatus, workerId: WorkerId, tries: int, takeOnAt: int, retryAt: int, parent: Option<Url>)

  /** Lists are written from LEFT to RIGHT: LPUSH prepends, LMOVE ... RIGHT takes the last element.
      A worker without a list has the empty one. */
  datatype State = State(
    info: map<Url, Info>,
    queue: seq<Url>,
    working: map<WorkerId, seq<Url>>,
    index: set<Url>,
    retry: map<Url, int>)
  {
    function ListOf(w: WorkerId): seq<Url> {
      if w in working then working[w] else []
    }

    predicate Is(u: Url, status: CrawlStatus) {
      u in info && info[u].status == status
    }

    /** Tracked and not finished. */
    predicate Open(u: Url) {
      u in info && !Terminal(info[u].status)
    }
  }

  const INIT := State(map[], [], map[], {}, map[])

  // ----- the scripts -----

  function PushUrl(s: State, u: Url, parent: Url): State {
    if u in s.info then s
    else
      State(s.info[u := Info(Queued, NOBODY, 0, -1, -1, Some(parent))], [u] + s.queue, s.working, s.index, s.retry)
  }

  function Oldest(s: State): Option<Url> {
    if s.queue == [] then None else Some(s.queue[|s.queue| - 1])
  }

  /** LMOVE comes first, so an entry missing from the hash aborts the script with the URL already
      moved: Redis does not undo the commands of a failing script. */
  function PopUrl(s: State, w: WorkerId, now: int): State {
    if s.queue == [] then s
    else
      var rest, u := s.queue[..|s.queue| - 1], s.queue[|s.queue| - 1];
      var working := s.working[w := [u] + s.ListOf(w)];
      if u !in s.info then
        State(s.info, rest, working, s.index, s.retry)
      else
        var entry := s.info[u].(status := Processing, workerId := w, takeOnAt := now);
        State(s.info[u := entry], rest, working, s.index + {u}, s.retry)
  }

  function RetryUrl(s: State, u: Url, retryAt: int): State {
    if u !in s.info then s
    else
      var entry := s.info[u].(status := Retry, tries := s.info[u].tries + 1, retryAt := retryAt);
      State(s.info[u := entry], s.queue, Released(s, u), s.index - {u}, s.retry[u := retryAt])
  }

  /** LREM of one occurrence from the list of the recorded worker. */
  function Released(s: State, u: Url): map<WorkerId, seq<Url>>
    requires u in s.info
  {
    var w := s.info[u].workerId;
    s.working[w := RemoveFirst(s.ListOf(w), u)]
  }

  function MarkUrl(s: State, u: Url, status: CrawlStatus): State {
    if u !in s.info then s
    else
      State(s.info[u := s.info[u].(status := status)], s.queue, Released(s, u), s.index - {u}, s.retry)
  }

  function RecoverUrl(s: State, u: Url): State {
    if u !in s.info then
      State(s.info[u := Info(Queued, NOBODY, 0, -1, -1, None)], [u] + s.queue, s.working, s.index - {u}, s.retry)
    else
      var w := s.info[u].workerId;
      var working := s.working[w := RemoveAll(s.ListOf(w), u)];
      State(s.info[u := s.info[u].(status := Queued)], [u] + s.queue, working, s.index - {u}, s.retry)
  }

  /** What the enqueue script writes for a due URL; the entry it makes up has try = 1. */
  function Requeued(info: map<Url, Info>, u: Url): Info {
    if u in info then info[u].(status := Queued) else Info(Queued, NOBODY, 1, -1, -1, None)
  }

  /** A reply of ZRANGE -inf now BYSCORE: the due members, once each, by rising score. Members with
      equal scores may come in any order. */
  ghost predicate IsDue(retry: map<Url, int>, now: int, due: seq<Url>) {
    && Distinct(due)
    && (forall u :: u in due <==> u in retry && retry[u] <= now)
    && (forall i, j :: 0 <= i < j < |due| ==> retry[due[i]] <= retry[due[j]])
  }

  function RequeueAll(info: map<Url, Info>, due: seq<Url>): (r: map<Url, Info>)
    ensures forall u :: u in r <==> u in info || u in due
    ensures forall u :: u in r ==> r[u] == if u in due then Requeued(info, u) else info[u]
  {
    map u | u in info.Keys + Elems(due) :: if u in due then Requeued(info, u) else info[u]
  }

  function Later(retry: map<Url, int>, now: int): (r: map<Url, int>)
    ensures forall u :: u in r <==> u in retry && retry[u] > now
    ensures forall u :: u in r ==> r[u] == retry[u]
  {
    map u | u in retry && retry[u] > now :: retry[u]
  }

  /** The whole effect of the enqueue script on a ZRANGE reply. */
  function EnqueueDue(s: State, now: int, due: seq<Url>): State {
    State(RequeueAll(s.info, due), Reverse(due) + s.queue, s.working, s.index, Later(s.retry, now))
  }

  function UnprocessedCount(s: State): nat {
    |s.queue| + |s.retry| + |s.index|
  }

  // ----- atomic steps and runs -----

  /** One script call. `at` is the caller's clock in nanoseconds; `worker` is the caller. */
  datatype Step =
    | Push(at: int, url: Url, parent: Url)
    | Pop(at: int, worker: WorkerId)
    | Retried(at: int, worker: WorkerId, url: Url, retryAt: int)
    | Marked(at: int, worker: WorkerId, url: Url, status: CrawlStatus)
    | Recovered(at: int, url: Url)
    | Enqueued(at: int, due: seq<Url>)

  function Apply(s: State, step: Step): State {
    match step
    case Push(_, u, parent) => PushUrl(s, u, parent)
    case Pop(at, w) => PopUrl(s, w, Milli(at))
    case Retried(_, _, u, retryAt) => RetryUrl(s, u, retryAt)
    case Marked(_, _, u, status) => MarkUrl(s, u, status)
    case Recovered(_, u) => RecoverUrl(s, u)
    case Enqueued(at, due) => EnqueueDue(s, Milli(at), due)
  }

  ghost function Run(s: State, steps: seq<Step>): State
    decreases |steps|
  {
    if steps == [] then s else Run(Apply(s, steps[0]), steps[1..])
  }

  /** Scripts as the program issues them, whoever calls them and however late: an enqueue works on a
      true ZRANGE reply, and MarkProcessed is given a terminal status. */
  ghost predicate Issued(s: State, step: Step) {
    match step
    case Enqueued(at, due) => IsDue(s.retry, Milli(at), due)
    case Marked(_, _, _, status) => Terminal(status)
    case _ => true
  }

  ghost predicate IssuedRun(s: State, steps: seq<Step>)
    decreases |steps|
  {
    steps == [] || (Issued(s, steps[0]) && IssuedRun(Apply(s, steps[0]), steps[1..]))
  }
}
