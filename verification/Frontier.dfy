/** The Redis data source itself: the scripts as updates in place, each equal to its function in
    FrontierState, and the Go loops around them. */
module FrontierStore {
  import opened Basics
  import opened FrontierState

  datatype TakeOnReply =
    | QueueEmpty
    | Taken(url: Url, tries: int, parent: Url)
    | Failed

  /** What became of a script: it ran and its reply arrived; it ran, but the caller was told of an error; it did
      not run, and the caller was told of an error. */
  datatype Delivery = Heard | Lost | Unsent

  /** What Queue.TakeOn makes of the pop script's reply. A missing entry aborts the script; an entry
      without a parent shortens the reply to two values. Both are failures for the caller. */
  function ReplyOf(s: State): TakeOnReply {
    match Oldest(s)
    case None => QueueEmpty
    case Some(u) =>
      if u in s.info && s.info[u].parent.Some?
      then Taken(u, s.info[u].tries, s.info[u].parent.value)
      else Failed
  }

  /** The requests of a PushURLs pipeline, executed in order. */
  function PushAll(s: State, urls: seq<(Url, Url)>): State
    decreases |urls|
  {
    if urls == [] then s else PushAll(PushUrl(s, urls[0].0, urls[0].1), urls[1..])
  }

  /** The requests of a pipeline that find their URL unseen. */
  function Newly(s: State, urls: seq<(Url, Url)>): seq<(Url, Url)>
    decreases |urls|
  {
    if urls == [] then []
    else
      (if urls[0].0 in s.info then [] else [urls[0]]) + Newly(PushUrl(s, urls[0].0, urls[0].1), urls[1..])
  }

  function Keys(urls: seq<(Url, Url)>): (r: seq<Url>)
    ensures |r| == |urls| && forall i :: 0 <= i < |r| ==> r[i] == urls[i].0
  {
    seq(|urls|, i requires 0 <= i < |urls| => urls[i].0)
  }

  lemma {:induction false} PushAllSnoc(s: State, urls: seq<(Url, Url)>, last: (Url, Url))
    ensures PushAll(s, urls + [last]) == PushUrl(PushAll(s, urls), last.0, last.1)
    ensures Newly(s, urls + [last]) ==
            Newly(s, urls) + (if last.0 in PushAll(s, urls).info then [] else [last])
    decreases |urls|
  {
    if urls == [] {
      assert urls + [last] == [last];
    } else {
      assert (urls + [last])[1..] == urls[1..] + [last];
      PushAllSnoc(PushUrl(s, urls[0].0, urls[0].1), urls[1..], last);
    }
  }

  /** A pipeline touches the hash and the main list only; known URLs keep their entry, every requested
      one ends up tracked, and no other. */
  lemma {:induction false} PushAllTracks(s: State, urls: seq<(Url, Url)>)
    ensures var r := PushAll(s, urls);
            && r == s.(info := r.info, queue := r.queue)
            && (forall u :: u in s.info ==> u in r.info && r.info[u] == s.info[u])
            && (forall u :: u in r.info <==> u in s.info || u in Keys(urls))
    decreases |urls|
  {
    if urls != [] {
      PushAllTracks(PushUrl(s, urls[0].0, urls[0].1), urls[1..]);
      assert Keys(urls) == [urls[0].0] + Keys(urls[1..]);
    }
  }

  /** The new ones are queued once each, in request order, under the parent of their first request. */
  lemma {:induction false} PushAllQueues(s: State, urls: seq<(Url, Url)>)
    ensures PushAll(s, urls).queue == Reverse(Keys(Newly(s, urls))) + s.queue
    decreases |urls|
  {
    if urls != [] {
      var u, s1 := urls[0].0, PushUrl(s, urls[0].0, urls[0].1);
      var rest := Newly(s1, urls[1..]);
      PushAllQueues(s1, urls[1..]);
      if u !in s.info {
        assert Keys([urls[0]] + rest) == [u] + Keys(rest);
        ReverseCons(u, Keys(rest), s.queue);
      } else {
        assert Newly(s, urls) == rest;
      }
    }
  }

  lemma ReverseCons(u: Url, us: seq<Url>, queue: seq<Url>)
    ensures Reverse([u] + us) + queue == Reverse(us) + ([u] + queue)
  {
    assert ([u] + us)[1..] == us;
  }

  lemma {:induction false} NewlyIsNew(s: State, urls: seq<(Url, Url)>)
    ensures Distinct(Keys(Newly(s, urls)))
    ensures forall u :: u in Keys(Newly(s, urls)) ==> u !in s.info
    decreases |urls|
  {
    if urls != [] {
      var u, s1 := urls[0].0, PushUrl(s, urls[0].0, urls[0].1);
      var rest := Newly(s1, urls[1..]);
      NewlyIsNew(s1, urls[1..]);
      if u !in s.info {
        assert Keys(Newly(s, urls)) == [u] + Keys(rest);
        assert u in s1.info && forall k :: 0 <= k < |rest| ==> Keys(rest)[k] in Keys(rest);
      } else {
        assert Newly(s, urls) == rest;
      }
    }
  }

  lemma {:induction false} NewlyEntries(s: State, urls: seq<(Url, Url)>, p: (Url, Url))
    requires p in Newly(s, urls)
    ensures p in urls && p.0 in PushAll(s, urls).info
    ensures PushAll(s, urls).info[p.0] == Info(Queued, NOBODY, 0, -1, -1, Some(p.1))
    decreases |urls|
  {
    var s1 := PushUrl(s, urls[0].0, urls[0].1);
    if p in Newly(s1, urls[1..]) {
      NewlyEntries(s1, urls[1..], p);
    } else {
      PushAllTracks(s1, urls[1..]);
    }
  }

  lemma {:induction false} NewlyIsAll(s: State, urls: seq<(Url, Url)>, u: Url)
    requires u in PushAll(s, urls).info && u !in s.info
    ensures u in Keys(Newly(s, urls))
    decreases |urls|
  {
    if urls != [] {
      var s1 := PushUrl(s, urls[0].0, urls[0].1);
      if u in s1.info {
        assert Keys(Newly(s, urls))[0] == u;
      } else {
        NewlyIsAll(s1, urls[1..], u);
        var i :| 0 <= i < |Newly(s1, urls[1..])| && Newly(s1, urls[1..])[i].0 == u;
        var k := if urls[0].0 in s.info then i else i + 1;
        assert Keys(Newly(s, urls))[k] == u;
      }
    }
  }

  /** One round of the enqueue script's loop. */
  lemma RequeueNext(info: map<Url, Info>, urls: seq<Url>, i: nat)
    requires i < |urls|
    ensures var r := RequeueAll(info, urls[..i]);
            RequeueAll(info, urls[..i + 1]) == r[urls[i] := Requeued(r, urls[i])]
    ensures Reverse(urls[..i + 1]) == [urls[i]] + Reverse(urls[..i])
  {
    assert urls[..i + 1] == urls[..i] + [urls[i]];
    ReverseConcat(urls[..i], [urls[i]]);
  }

  lemma NothingDue(s: State, now: int)
    requires IsDue(s.retry, now, [])
    ensures EnqueueDue(s, now, []) == s
  {
    assert forall u :: u in s.retry ==> s.retry[u] > now by {
      forall u | u in s.retry ensures s.retry[u] > now {
        var none: seq<Url> := [];
        assert u !in none;
      }
    }
    assert Later(s.retry, now) == s.retry;
    assert RequeueAll(s.info, []) == s.info;
  }

  lemma LeastScore(due: set<Url>, scores: map<Url, int>)
    requires due != {} && due <= scores.Keys
    ensures exists u :: u in due && forall v :: v in due ==> scores[u] <= scores[v]
  {
    var u :| u in due;
    var rest := due - {u};
    if rest != {} {
      LeastScore(rest, scores);
      var v :| v in rest && forall x :: x in rest ==> scores[v] <= scores[x];
      if scores[u] <= scores[v] {
        assert forall x :: x in due ==> scores[u] <= scores[x];
      } else {
        assert forall x :: x in due ==> scores[v] <= scores[x];
      }
    } else {
      assert due == {u};
    }
  }

  /** One URL a health check comes across, and the clock in milliseconds when it is this one's turn. */
  datatype Look = Look(url: Url, at: int)

  /** HGET, then recover when the entry is missing or too old. */
  predicate Expired(s: State, u: Url, now: int, threshold: int) {
    u !in s.info || now - s.info[u].takeOnAt >= threshold
  }

  function CheckUrl(s: State, look: Look, threshold: int): State {
    if Expired(s, look.url, look.at, threshold) then RecoverUrl(s, look.url) else s
  }

  function Checked(s: State, scan: seq<Look>, threshold: int): State
    decreases |scan|
  {
    if scan == [] then s else Checked(CheckUrl(s, scan[0], threshold), scan[1..], threshold)
  }

  lemma {:induction false} CheckedConcat(s: State, a: seq<Look>, b: seq<Look>, threshold: int)
    ensures Checked(s, a + b, threshold) == Checked(Checked(s, a, threshold), b, threshold)
    decreases |a|
  {
    if a == [] {
      assert a + b == b;
    } else {
      assert (a + b)[1..] == a[1..] + b;
      CheckedConcat(CheckUrl(s, a[0], threshold), a[1..], b, threshold);
    }
  }

  lemma CheckedSnoc(s: State, a: seq<Look>, look: Look, threshold: int)
    ensures Checked(s, a + [look], threshold) == CheckUrl(Checked(s, a, threshold), look, threshold)
  {
    CheckedConcat(s, a, [look], threshold);
    assert [look][1..] == [];
  }

  class Frontier {
    var info: map<Url, Info>
    var queue: seq<Url>
    var working: map<WorkerId, seq<Url>>
    var index: set<Url>
    var retry: map<Url, int>

    ghost function St(): State
      reads this
    {
      State(info, queue, working, index, retry)
    }

    constructor ()
      ensures St() == INIT
    {
      info, queue, working, index, retry := map[], [], map[], {}, map[];
    }

    function ListOf(w: WorkerId): seq<Url>
      reads this
    {
      if w in working then working[w] else []
    }

    method PushURL(url: Url, parent: Url) returns (pushed: bool)
      modifies this
      ensures St() == PushUrl(old(St()), url, parent)
      ensures pushed <==> url !in old(info)
    {
      if url in info {
        return false;
      }
      queue := [url] + queue;
      info := info[url := Info(Queued, NOBODY, 0, -1, -1, Some(parent))];
      return true;
    }

    /** Returns the requests that were new; PushAllQueues, NewlyIsNew, NewlyEntries and
        NewlyIsAll say what that list is. */
    method PushURLs(urls: seq<(Url, Url)>) returns (pushed: seq<(Url, Url)>)
      modifies this
      ensures St() == PushAll(old(St()), urls)
      ensures pushed == Newly(old(St()), urls)
    {
      pushed := [];
      ghost var s0 := St();
      for i := 0 to |urls|
        invariant St() == PushAll(s0, urls[..i])
        invariant pushed == Newly(s0, urls[..i])
      {
        assert urls[..i + 1] == urls[..i] + [urls[i]];
        PushAllSnoc(s0, urls[..i], urls[i]);
        var isNew := PushURL(urls[i].0, urls[i].1);
        if isNew {
          pushed := pushed + [urls[i]];
        }
      }
      assert urls[..|urls|] == urls;
    }

    /** Queue.TakeOn: the pop script and the decoding of its reply. */
    method PopURL(w: WorkerId, now: int) returns (reply: TakeOnReply)
      modifies this
      ensures St() == PopUrl(old(St()), w, now)
      ensures reply == ReplyOf(old(St()))
    {
      if queue == [] {
        return QueueEmpty;
      }
      var url := queue[|queue| - 1];
      queue := queue[..|queue| - 1];
      working := working[w := [url] + ListOf(w)];
      if url !in info {
        return Failed;
      }
      info := info[url := info[url].(status := Processing, workerId := w, takeOnAt := now)];
      index := index + {url};
      if info[url].parent.None? {
        return Failed;
      }
      return Taken(url, info[url].tries, info[url].parent.value);
    }

    method RetryURL(url: Url, retryAt: int) returns (ok: bool)
      modifies this
      ensures St() == RetryUrl(old(St()), url, retryAt)
      ensures ok <==> url in old(info)
    {
      if url !in info {
        return false;
      }
      var w := info[url].workerId;
      info := info[url := info[url].(status := Retry, tries := info[url].tries + 1, retryAt := retryAt)];
      working := working[w := RemoveFirst(ListOf(w), url)];
      index := index - {url};
      retry := retry[url := retryAt];
      return true;
    }

    method MarkProcessed(url: Url, status: CrawlStatus) returns (ok: bool)
      modifies this
      ensures St() == MarkUrl(old(St()), url, status)
      ensures ok <==> url in old(info)
    {
      if url !in info {
        return false;
      }
      var w := info[url].workerId;
      info := info[url := info[url].(status := status)];
      working := working[w := RemoveFirst(ListOf(w), url)];
      index := index - {url};
      return true;
    }

    method RecoverURL(url: Url)
      modifies this
      ensures St() == RecoverUrl(old(St()), url)
    {
      if url !in info {
        index := index - {url};
        queue := [url] + queue;
        info := info[url := Info(Queued, NOBODY, 0, -1, -1, None)];
        return;
      }
      info := info[url := info[url].(status := Queued)];
      var w := info[url].workerId;
      working := working[w := RemoveAll(ListOf(w), url)];
      index := index - {url};
      queue := [url] + queue;
    }

    /** ZRANGE key -inf now BYSCORE. Shows that a reply as described by IsDue always exists. */
    method ZRangeByScore(now: int) returns (due: seq<Url>)
      ensures IsDue(retry, now, due)
    {
      var rest := set u | u in retry && retry[u] <= now;
      due := [];
      while rest != {}
        invariant rest <= set u | u in retry && retry[u] <= now
        invariant Distinct(due)
        invariant forall u :: u in due <==> u in retry && retry[u] <= now && u !in rest
        invariant forall i, j :: 0 <= i < j < |due| ==> retry[due[i]] <= retry[due[j]]
        invariant forall u, v :: u in due && v in rest ==> retry[u] <= retry[v]
      {
        LeastScore(rest, retry);
        var u :| u in rest && forall v :: v in rest ==> retry[u] <= retry[v];
        ghost var before := due;
        due := due + [u];
        rest := rest - {u};
        assert due[|before|] == u && forall v :: v in due <==> v in before || v == u;
      }
    }

    /** The enqueue script: the due members leave the retry set, then a loop requeues them one by one. */
    method EnqueueURLs(now: int) returns (remaining: nat, ghost due: seq<Url>)
      modifies this
      ensures IsDue(old(retry), now, due)
      ensures St() == EnqueueDue(old(St()), now, due)
      ensures remaining == |retry|
    {
      var urls := ZRangeByScore(now);
      due := urls;
      if |urls| == 0 {
        NothingDue(St(), now);
        return |retry|, due;
      }
      retry := Later(retry, now);
      RequeueURLs(urls);
      return |retry|, due;
    }

    /** The loop of the enqueue script. */
    method RequeueURLs(urls: seq<Url>)
      modifies this`info, this`queue
      ensures info == RequeueAll(old(info), urls)
      ensures queue == Reverse(urls) + old(queue)
    {
      ghost var info0, queue0 := info, queue;
      var i := 0;
      assert urls[..i] == [] && RequeueAll(info, []) == info;
      while i < |urls|
        invariant 0 <= i <= |urls|
        invariant info == RequeueAll(info0, urls[..i])
        invariant queue == Reverse(urls[..i]) + queue0
      {
        var u := urls[i];
        RequeueNext(info0, urls, i);
        var entry := if u in info then info[u].(status := Queued) else Info(Queued, NOBODY, 1, -1, -1, None);
        info := info[u := entry];
        queue := [u] + queue;
        i := i + 1;
      }
      assert urls[..i] == urls;
    }

    /** URLDS.TakeOn: due retries are moved to the main queue on every call, then one URL is popped. An error of
        the first script keeps the second from being sent. */
    method TakeOn(w: WorkerId, nowEnqueue: int, nowPop: int, enqueue: Delivery, pop: Delivery)
      returns (reply: TakeOnReply, ghost due: seq<Url>)
      modifies this
      ensures IsDue(old(retry), nowEnqueue, due)
      ensures var mid := if enqueue.Unsent? then old(St()) else EnqueueDue(old(St()), nowEnqueue, due);
              && St() == (if enqueue.Heard? && !pop.Unsent? then PopUrl(mid, w, nowPop) else mid)
              && reply == if enqueue.Heard? && pop.Heard? then ReplyOf(mid) else Failed
    {
      if enqueue.Unsent? {
        due := ZRangeByScore(nowEnqueue);
        return Failed, due;
      }
      var remaining;
      remaining, due := EnqueueURLs(nowEnqueue);
      if enqueue.Lost? || pop.Unsent? {
        return Failed, due;
      }
      reply := PopURL(w, nowPop);
      if pop.Lost? {
        return Failed, due;
      }
    }

    /** The metadata script: how much is unprocessed, and the earliest retry time if any. */
    method GetCrawlMetadata() returns (count: nat, earliest: Option<int>)
      ensures count == UnprocessedCount(St())
      ensures earliest.None? <==> retry == map[]
      ensures earliest.Some? ==>
                && (exists u :: u in retry && retry[u] == earliest.value)
                && (forall u :: u in retry ==> earliest.value <= retry[u])
    {
      count := |queue| + |retry| + |index|;
      if |retry| == 0 {
        return count, None;
      }
      LeastScore(retry.Keys, retry);
      var first :| first in retry && forall u :: u in retry ==> retry[first] <= retry[u];
      earliest := Some(retry[first]);
    }

    method CheckURL(look: Look, threshold: int)
      modifies this
      ensures St() == CheckUrl(old(St()), look, threshold)
    {
      if look.url !in info {
        RecoverURL(look.url);
      } else if look.at - info[look.url].takeOnAt >= threshold {
        RecoverURL(look.url);
      }
    }

    /** The inner loop, over the URLs of one SSCAN reply. */
    method CheckBatch(urls: seq<Look>, threshold: int)
      modifies this
      ensures St() == Checked(old(St()), urls, threshold)
    {
      ghost var s0 := St();
      for i := 0 to |urls|
        invariant St() == Checked(s0, urls[..i], threshold)
      {
        CheckURL(urls[i], threshold);
        CheckedSnoc(s0, urls[..i], urls[i], threshold);
        assert urls[..i + 1] == urls[..i] + [urls[i]];
      }
      assert urls[..|urls|] == urls;
    }

    /** `scan` holds the replies of the SSCAN cursor, each URL with the clock when it is looked at. */
    method HealthCheck(scan: seq<seq<Look>>, threshold: int)
      modifies this
      ensures St() == Checked(old(St()), Flatten(scan), threshold)
    {
      ghost var s0 := St();
      var cursor := 0;
      while cursor < |scan|
        invariant 0 <= cursor <= |scan|
        invariant St() == Checked(s0, Flatten(scan[..cursor]), threshold)
      {
        CheckBatch(scan[cursor], threshold);
        CheckedConcat(s0, Flatten(scan[..cursor]), scan[cursor], threshold);
        FlattenSnoc(scan[..cursor], scan[cursor]);
        assert scan[..cursor + 1] == scan[..cursor] + [scan[cursor]];
        cursor := cursor + 1;
      }
      assert scan[..cursor] == scan;
    }
  }
}
