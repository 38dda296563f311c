/** Under which key a call completes its URL: when it is the key the URL was popped by, and what happens when it
    is not. */
module CrawlKeys {
  import opened Basics
  import opened FrontierState
  import opened FrontierStore
  import opened FrontierRuns
  import opened Leases
  import opened PageStore
  import opened Crawl
  import Urls

  /** ToDomainURL, then String. */
  function KeyOf(u: Url): Option<Url> {
    match Urls.CompletionKey(u.text)
    case None => None
    case Some(text) => Some(Url(text))
  }

  /** A key as the crawl endpoint pushes it: scheme and host. */
  ghost predicate SeedKey(u: Url) {
    exists a :: Urls.Bare(a) && u.text == Urls.Print(a)
  }

  lemma EndpointKeys(raw: string)
    ensures Urls.StartKey(raw).Some? ==> SeedKey(Url(Urls.StartKey(raw).value))
  {
    Urls.StartKeyBare(raw);
  }

  /** A key as the extractor makes it from an absolute address. */
  ghost predicate LinkKey(u: Url) {
    exists a :: Urls.WellFormed(a) && u.text == Urls.Print(Urls.Normalize(a))
  }

  ghost predicate LowerHost(u: Url) {
    Urls.Parse(u.text).Some? && Urls.NoUpperCase(Urls.Parse(u.text).value.host)
  }

  lemma SeedOwnIffLower(u: Url)
    requires SeedKey(u)
    ensures KeyOf(u).Some? && (KeyOf(u) == Some(u) <==> LowerHost(u))
  {
    var a :| Urls.Bare(a) && u.text == Urls.Print(a);
    Urls.SeedHost(a.scheme, a.host);
    assert a == Urls.Address(a.scheme, None, a.host, "", None, None);
  }

  lemma LinkOwn(u: Url)
    requires LinkKey(u)
    ensures KeyOf(u) == Some(u) && LowerHost(u)
  {
    var a :| Urls.WellFormed(a) && u.text == Urls.Print(Urls.Normalize(a));
    Urls.LinkKeyRoundTrip(a);
    Urls.LinkHost(a);
  }

  // ----- which calls complete under their own key -----

  /** What is a key of a seed, what is one of a link, and the key under which a call completes a URL. */
  datatype Keys = Keys(seed: Url -> bool, link: Url -> bool, of: Url -> Option<Url>)

  ghost const REAL := Keys(u => SeedKey(u), u => LinkKey(u), u => KeyOf(u))

  /** Seeds and links have keys of their kind, and a call completes under the key its URL parses to. */
  ghost predicate Genuine(ks: Keys, w: World, a: Act) {
    match a
    case Seed(_, u) => ks.seed(u)
    case Extract(_, _, links) => forall v :: v in links ==> ks.link(v)
    case TakeOn(_, _, _, key) =>
      ReplyOf(w.f).Taken? && ks.of(ReplyOf(w.f).url).Some? ==> ks.of(ReplyOf(w.f).url) == Some(key)
    case _ => true
  }

  ghost predicate GenuineRun(ks: Keys, w: World, acts: seq<Act>)
    requires CrawlRun(w, acts)
    decreases |acts|
  {
    acts == [] || (Genuine(ks, w, acts[0]) && GenuineRun(ks, Do(w, acts[0]), acts[1..]))
  }

  /** Every tracked URL, and every link some call has extracted, is in p. */
  ghost predicate All(p: Url -> bool, w: World) {
    && (forall u :: u in w.f.info ==> p(u))
    && (forall e :: e in w.execs ==> forall v :: v in LinksOf(w.execs[e]) ==> p(v))
  }

  function LinksOf(x: Exec): seq<Url> {
    match x.phase
    case Extracted(_, links) => links
    case Saved(_, links, _) => links
    case Pushing(_, links, _, _) => links
    case _ => []
  }

  lemma LinksAfter(w: World, a: Act, e: nat)
    requires Enabled(w, a) && e in Do(w, a).execs
    ensures var links := LinksOf(Do(w, a).execs[e]);
            links == [] || (e in w.execs && links == LinksOf(w.execs[e])) || (a.Extract? && links == a.links)
  {
  }

  lemma AllStay(p: Url -> bool, w: World, a: Act)
    requires CrawlInv(w) && Enabled(w, a) && All(p, w)
    requires a.Seed? ==> p(a.url)
    requires a.Extract? ==> forall v :: v in a.links ==> p(v)
    ensures All(p, Do(w, a))
  {
    forall u | u in Do(w, a).f.info ensures p(u) {
      if u !in w.f.info {
        NewlyTracked(w, a, u);
        assert a.PushLink? ==> u in LinksOf(w.execs[a.e]);
      }
    }
    forall e, v | e in Do(w, a).execs && v in LinksOf(Do(w, a).execs[e]) ensures p(v) {
      LinksAfter(w, a, e);
    }
  }

  /** Whatever is tracked is a seed or a link. */
  lemma {:induction false} RunKeyed(ks: Keys, p: Url -> bool, w: World, acts: seq<Act>)
    requires CrawlInv(w) && CrawlRun(w, acts) && GenuineRun(ks, w, acts) && All(p, w)
    requires forall u :: ks.seed(u) || ks.link(u) ==> p(u)
    ensures CrawlInv(CrawlEnd(w, acts)) && All(p, CrawlEnd(w, acts))
    decreases |acts|
  {
    if acts != [] {
      DoKeepsInv(w, acts[0]);
      AllStay(p, w, acts[0]);
      RunKeyed(ks, p, Do(w, acts[0]), acts[1..]);
    }
  }

  lemma TakenTracked(w: World)
    requires ReplyOf(w.f).Taken?
    ensures ReplyOf(w.f).url in w.f.info
  {
  }

  lemma OwnKeyIff(ks: Keys, own: Url -> bool, acts: seq<Act>, a: Act)
    requires CrawlRun(START, acts) && GenuineRun(ks, START, acts)
    requires a.TakeOn? && Enabled(CrawlEnd(START, acts), a) && Genuine(ks, CrawlEnd(START, acts), a)
    requires forall u :: ks.seed(u) || ks.link(u) ==> ks.of(u).Some? && (ks.of(u) == Some(u) <==> own(u))
    ensures var u := ReplyOf(CrawlEnd(START, acts).f).url; a.key == u <==> own(u)
  {
    var w, p := CrawlEnd(START, acts), u => ks.seed(u) || ks.link(u);
    RunKeyed(ks, p, START, acts);
    TakenTracked(w);
    assert p(ReplyOf(w.f).url);
  }

  /** In every crawl, a call completes under the key of its URL if and only if the host of the URL has no upper-case
      letter, as no link has, and no seed that was given in lower case. */
  lemma OwnKeyIffLower(acts: seq<Act>, a: Act)
    requires CrawlRun(START, acts) && GenuineRun(REAL, START, acts)
    requires a.TakeOn? && Enabled(CrawlEnd(START, acts), a) && Genuine(REAL, CrawlEnd(START, acts), a)
    ensures var u := ReplyOf(CrawlEnd(START, acts).f).url; a.key == u <==> LowerHost(u)
  {
    RealKeys();
    OwnKeyIff(REAL, u => LowerHost(u), acts, a);
  }

  lemma RealKeys()
    ensures forall u :: REAL.seed(u) || REAL.link(u) ==>
              REAL.of(u).Some? && (REAL.of(u) == Some(u) <==> (v => LowerHost(v))(u))
  {
    forall u | REAL.seed(u) || REAL.link(u)
      ensures REAL.of(u).Some? && (REAL.of(u) == Some(u) <==> (v => LowerHost(v))(u))
    {
      if LinkKey(u) { LinkOwn(u); } else { SeedOwnIffLower(u); }
    }
  }

  /** Every call completes under the key of its URL. */
  ghost predicate OwnKeys(w: World, acts: seq<Act>)
    requires CrawlRun(w, acts)
    decreases |acts|
  {
    acts == [] ||
    ((acts[0].TakeOn? ==> acts[0].key == ReplyOf(w.f).url) && OwnKeys(Do(w, acts[0]), acts[1..]))
  }

  ghost predicate SeedsIn(p: Url -> bool, acts: seq<Act>) {
    forall i :: 0 <= i < |acts| && acts[i].Seed? ==> p(acts[i].url)
  }

  lemma StepOwnKey(ks: Keys, p: Url -> bool, w: World, a: Act)
    requires CrawlInv(w) && Enabled(w, a) && Genuine(ks, w, a) && (a.Seed? ==> p(a.url)) && All(p, w)
    requires (forall u :: ks.link(u) ==> p(u)) && (forall u :: p(u) ==> ks.of(u) == Some(u))
    ensures CrawlInv(Do(w, a)) && All(p, Do(w, a)) && (a.TakeOn? ==> a.key == ReplyOf(w.f).url)
  {
    DoKeepsInv(w, a);
    AllStay(p, w, a);
    if a.TakeOn? {
      TakenTracked(w);
      assert p(ReplyOf(w.f).url);
    }
  }

  lemma {:induction false} RunOwnKeys(ks: Keys, p: Url -> bool, w: World, acts: seq<Act>)
    requires CrawlInv(w) && CrawlRun(w, acts) && GenuineRun(ks, w, acts) && SeedsIn(p, acts) && All(p, w)
    requires (forall u :: ks.link(u) ==> p(u)) && (forall u :: p(u) ==> ks.of(u) == Some(u))
    ensures OwnKeys(w, acts)
    decreases |acts|
  {
    if acts != [] {
      StepOwnKey(ks, p, w, acts[0]);
      assert forall i :: 0 <= i < |acts[1..]| ==> acts[1..][i] == acts[i + 1];
      RunOwnKeys(ks, p, Do(w, acts[0]), acts[1..]);
    }
  }

  /** So a crawl whose seeds are given in lower case meets the assumption of LeasedCrawl.Patient on keys. */
  lemma LowerSeedsOwnKeys(acts: seq<Act>)
    requires CrawlRun(START, acts) && GenuineRun(REAL, START, acts)
    requires SeedsIn(u => SeedKey(u) && LowerHost(u), acts)
    ensures OwnKeys(START, acts)
  {
    var p := u => (SeedKey(u) && LowerHost(u)) || LinkKey(u);
    forall u | p(u) ensures REAL.of(u) == Some(u) {
      if LinkKey(u) { LinkOwn(u); } else { SeedOwnIffLower(u); }
    }
    RunOwnKeys(REAL, p, START, acts);
  }

  // ----- a call that completes another URL -----

  function Bare(k: Url): Page {
    Page(k, "", "", "", 0, None)
  }

  /** The seed u, whose key is k, lands on k, and the page there links to itself. */
  function SelfLink(u: Url, k: Url, worker: WorkerId): seq<Act> {
    [Seed(0, u), TakeOn(0, 0, worker, k)] + [Extract(0, k, [k]), Save(0, Bare(k), v => v), Link(0)] +
    [PushLink(0, 0), Finish(0, 0, true)]
  }

  function TakenSeed(u: Url, worker: WorkerId): State {
    PopUrl(PushUrl(INIT, u, NO_PARENT), worker, 0)
  }

  lemma SeedTaken(u: Url, k: Url, worker: WorkerId) returns (r: World)
    ensures var acts := [Seed(0, u), TakeOn(0, 0, worker, k)];
            CrawlRun(START, acts) && CrawlEnd(START, acts) == r
    ensures r.f == TakenSeed(u, worker)
    ensures r.execs == map[0 := Exec(worker, u, k, 0, NO_PARENT, Crawl.Phase.Fetching)]
  {
    var a, b := Seed(0, u), TakeOn(0, 0, worker, k);
    var v := Do(START, a);
    assert v.f == PushUrl(INIT, u, NO_PARENT) && v.f.queue == [u] && v.execs == map[];
    assert ReplyOf(v.f) == Taken(u, 0, NO_PARENT);
    r := Do(v, b);
    assert CrawlRun(r, []) && [b] + [] == [b] && [a] + [b] == [a, b];
    ActThen(v, b, []);
    ActThen(START, a, [b]);
  }

  lemma PageStored(w: World, x: Exec, k: Url) returns (r: World)
    requires w.execs == map[0 := x] && x.phase.Fetching? && x.parent == NO_PARENT && k != NO_PARENT
    ensures var acts := [Extract(0, k, [k]), Save(0, Bare(k), v => v), Link(0)];
            CrawlRun(w, acts) && CrawlEnd(w, acts) == r
    ensures r.f == w.f && 0 in r.execs
    ensures r.execs[0].phase.Pushing? && r.execs[0].phase.links == [k] && r.execs[0].phase.sent == 0
    ensures r.execs[0].phase.final == k && r.execs[0].key == x.key && r.execs[0].worker == x.worker
  {
    var a, b, c := Extract(0, k, [k]), Save(0, Bare(k), v => v), Link(0);
    var w1 := Do(w, a);
    var w2 := Do(w1, b);
    r := Do(w2, c);
    assert CrawlRun(r, []) && [c] + [] == [c] && [b] + [c] == [b, c] && [a] + [b, c] == [a, b, c];
    ActThen(w2, c, []);
    ActThen(w1, b, [c]);
    ActThen(w, a, [b, c]);
  }

  lemma LinkedAndDone(w: World, k: Url) returns (r: World)
    requires 0 in w.execs && w.execs[0].phase.Pushing? && w.execs[0].phase.links == [k]
    requires w.execs[0].phase.sent == 0 && w.execs[0].phase.final == k && w.execs[0].key == k
    ensures var acts := [PushLink(0, 0), Finish(0, 0, true)];
            CrawlRun(w, acts) && CrawlEnd(w, acts) == r
    ensures r.f == MarkUrl(PushUrl(w.f, k, k), k, Done)
  {
    var a, b := PushLink(0, 0), Finish(0, 0, true);
    var v := Do(w, a);
    r := Do(v, b);
    assert CrawlRun(r, []) && [b] + [] == [b] && [a] + [b] == [a, b];
    ActThen(v, b, []);
    ActThen(w, a, [b]);
  }

  lemma {:induction false} RunConcat(w: World, a: seq<Act>, b: seq<Act>)
    requires CrawlRun(w, a) && CrawlRun(CrawlEnd(w, a), b)
    ensures CrawlRun(w, a + b) && CrawlEnd(w, a + b) == CrawlEnd(CrawlEnd(w, a), b)
    decreases |a|
  {
    if a == [] {
      assert a + b == b;
    } else {
      assert (a + b)[1..] == a[1..] + b;
      RunConcat(Do(w, a[0]), a[1..], b);
    }
  }

  lemma SelfLinkEnds(u: Url, k: Url, worker: WorkerId)
    requires k != NO_PARENT
    ensures CrawlRun(START, SelfLink(u, k, worker))
    ensures CrawlEnd(START, SelfLink(u, k, worker)).f == MarkUrl(PushUrl(TakenSeed(u, worker), k, k), k, Done)
  {
    var taken := SeedTaken(u, k, worker);
    var stored := PageStored(taken, taken.execs[0], k);
    var done := LinkedAndDone(stored, k);
    var a, b := [Seed(0, u), TakeOn(0, 0, worker, k)], [Extract(0, k, [k]), Save(0, Bare(k), v => v), Link(0)];
    RunConcat(START, a, b);
    RunConcat(START, a + b, [PushLink(0, 0), Finish(0, 0, true)]);
  }

  lemma TakenSeedFacts(u: Url, worker: WorkerId)
    ensures var s := TakenSeed(u, worker);
            s.queue == [] && s.index == {u} && s.Is(u, Processing) && s.info.Keys == {u} && Exclusive(s)
  {
    var s1 := PushUrl(INIT, u, NO_PARENT);
    assert s1.queue == [u];
    InitExclusive();
    ExclusiveIffSafe(INIT, Push(0, u, NO_PARENT));
    ExclusiveIffSafe(s1, Pop(0, worker));
  }

  lemma MarkedIff(s: State, u: Url, k: Url, worker: WorkerId)
    requires Exclusive(s) && s.Is(u, Processing) && s.info.Keys == {u}
    ensures Exclusive(MarkUrl(PushUrl(s, k, k), k, Done)) <==> k == u
  {
    ExclusiveIffSafe(s, Push(0, k, k));
    ExclusiveIffSafe(PushUrl(s, k, k), Marked(0, worker, k, Done));
  }

  lemma MarkedOther(s: State, u: Url, k: Url)
    requires s.queue == [] && s.index == {u} && s.Is(u, Processing) && s.info.Keys == {u} && k != u
    ensures var r := MarkUrl(PushUrl(s, k, k), k, Done);
            r.Is(k, Done) && r.queue == [k] && r.Is(u, Processing) && UnprocessedCount(r) > |OpenUrls(r)|
  {
    var r := MarkUrl(PushUrl(s, k, k), k, Done);
    assert r.info.Keys == {u, k};
    assert OpenUrls(r) == {u};
    assert r.index == {u};
  }

  /** No reaper and no lost reply is needed for this failure: the run keeps every URL in one place if and only if the
      call completes under the key of its URL. Otherwise the link it has just pushed is marked Done while it waits
      in the main list, the seed itself stays in processing, and the count no longer matches. */
  lemma SelfLinkExclusiveIff(u: Url, k: Url, worker: WorkerId)
    requires k != NO_PARENT
    ensures CrawlRun(START, SelfLink(u, k, worker))
    ensures var s := CrawlEnd(START, SelfLink(u, k, worker)).f;
            && (Exclusive(s) <==> k == u)
            && (k != u ==> s.Is(k, Done) && s.queue == [k] && s.Is(u, Processing) &&
                           UnprocessedCount(s) > |OpenUrls(s)|)
  {
    SelfLinkEnds(u, k, worker);
    TakenSeedFacts(u, worker);
    MarkedIff(TakenSeed(u, worker), u, k, worker);
    if k != u {
      MarkedOther(TakenSeed(u, worker), u, k);
    }
  }

  /** Any seed with an upper-case letter in its host is an input of this kind. */
  lemma UpperCaseSeedBreaks(u: Url, worker: WorkerId)
    requires SeedKey(u)
    ensures KeyOf(u).Some? && CrawlRun(START, SelfLink(u, KeyOf(u).value, worker))
    ensures Exclusive(CrawlEnd(START, SelfLink(u, KeyOf(u).value, worker)).f) <==> LowerHost(u)
  {
    SeedOwnIffLower(u);
    Urls.KeyNotEmpty(u.text);
    SelfLinkExclusiveIff(u, KeyOf(u).value, worker);
  }
}
