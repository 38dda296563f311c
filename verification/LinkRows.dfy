/** Where the rows of the links table come from. */
module LinkRows {
  import opened FrontierState
  import opened Crawl

  lemma LinkRowsAfter(w: World, a: Act)
    requires Enabled(w, a)
    ensures Do(w, a).db.links ==
            if a.Link? && w.execs[a.e].parent != NO_PARENT && w.execs[a.e].parent in w.db.pages
            then w.db.links + {(w.db.pages[w.execs[a.e].parent].id, w.execs[a.e].phase.id)}
            else w.db.links
  {
  }

  /** The call saves a link, and it is this row: from the row of the parent of its URL to the row of the page it landed
      on. */
  ghost predicate Links(w: World, a: Act, link: (int, int)) {
    && a.Link? && a.e in w.execs && w.execs[a.e].phase.Saved?
    && var x := w.execs[a.e];
       && x.parent in w.db.pages && x.phase.final in w.db.pages
       && link == (w.db.pages[x.parent].id, w.db.pages[x.phase.final].id)
  }

  lemma NewLinkRow(w: World, a: Act, link: (int, int))
    requires CrawlInv(w) && Enabled(w, a)
    ensures link in Do(w, a).db.links ==> link in w.db.links || Links(w, a, link)
  {
    LinkRowsAfter(w, a);
    if a.Link? {
      assert ExecOk(w, w.execs[a.e]);
    }
  }

  /** Act number k saves the link. */
  ghost predicate SavesAt(w: World, acts: seq<Act>, k: nat, link: (int, int)) {
    k < |acts| && CrawlRun(w, acts[..k]) && Links(CrawlEnd(w, acts[..k]), acts[k], link)
  }

  lemma SavesLater(w: World, acts: seq<Act>, k: nat, link: (int, int))
    requires acts != [] && Enabled(w, acts[0]) && SavesAt(Do(w, acts[0]), acts[1..], k, link)
    ensures SavesAt(w, acts, k + 1, link)
  {
    ActThen(w, acts[0], acts[1..][..k]);
    assert acts[..k + 1] == [acts[0]] + acts[1..][..k];
  }

  lemma {:induction false} NewLinkRows(w: World, acts: seq<Act>, link: (int, int))
    requires CrawlInv(w) && CrawlRun(w, acts)
    ensures link in CrawlEnd(w, acts).db.links ==> link in w.db.links || exists k: nat :: SavesAt(w, acts, k, link)
    decreases |acts|
  {
    if acts != [] {
      var r := Do(w, acts[0]);
      DoKeepsInv(w, acts[0]);
      NewLinkRow(w, acts[0], link);
      NewLinkRows(r, acts[1..], link);
      if link !in w.db.links && link in r.db.links {
        assert SavesAt(w, acts, 0, link);
      } else if k: nat :| SavesAt(r, acts[1..], k, link) {
        SavesLater(w, acts, k, link);
      }
    }
  }

  /** Every link row comes from an act that saves it. */
  lemma LinkRowsAreLinks(acts: seq<Act>, link: (int, int))
    requires CrawlRun(START, acts)
    ensures link in CrawlEnd(START, acts).db.links ==> exists k: nat :: SavesAt(START, acts, k, link)
  {
    NewLinkRows(START, acts, link);
  }
}
