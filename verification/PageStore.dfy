/** The pages and links tables of the search database, and the operations the crawler and the indexer
    perform on them. */
module PageStore {
  import opened Basics
  import opened FrontierState

  /** A page on its way into the database. Its vector is nil (None), empty, or real. */
  datatype Page = Page(
    url: Url, title: string, description: string, content: string, crawledAt: int, vector: Option<Vector>)

  datatype Row = Row(
    id: int, title: string, description: string, content: string, crawledAt: int,
    vector: Option<Vector>, canBeVectorized: bool)

  datatype Db = Db(pages: map<Url, Row>, links: set<(int, int)>, nextId: int)

  const EMPTY_DB := Db(map[], {}, 1)

  /** INSERT ... ON CONFLICT DO UPDATE. A conflicting insert keeps the row's id, still draws one from the
      sequence, and normalises the vector a second time. Only an embedding that came back empty marks the
      page as not vectorizable. */
  function InsertPage(db: Db, page: Page, l2: Vector -> Vector): (Db, int) {
    var known := page.url in db.pages;
    var id := if known then db.pages[page.url].id else db.nextId;
    var vector :=
      if page.vector.Some? && page.vector.value != []
      then Some(if known then l2(l2(page.vector.value)) else l2(page.vector.value))
      else None;
    var row := Row(id, page.title, page.description, page.content, page.crawledAt, vector,
                   !(page.vector.Some? && page.vector.value == []));
    (Db(db.pages[page.url := row], db.links, db.nextId + 1), id)
  }

  /** INSERT ... SELECT id FROM pages WHERE url = parent: nothing happens when the parent has no row. */
  function InsertLink(db: Db, parent: Url, child: int): Db {
    if parent in db.pages then db.(links := db.links + {(db.pages[parent].id, child)}) else db
  }

  predicate Unvectorized(row: Row) {
    row.vector.None? && row.canBeVectorized && (row.title != "" || row.description != "" || row.content != "")
  }

  /** GetUnvectorized: the pages of the backlog, once each, in any order, without their vector. */
  ghost predicate IsBacklog(db: Db, pages: seq<Page>) {
    && (forall i, j :: 0 <= i < j < |pages| ==> pages[i].url != pages[j].url)
    && (forall p :: p in pages ==> p.url in db.pages && Unvectorized(db.pages[p.url]) && p == PageOf(db, p.url))
    && (forall u :: u in db.pages && Unvectorized(db.pages[u]) ==> PageOf(db, u) in pages)
  }

  function PageOf(db: Db, u: Url): Page
    requires u in db.pages
  {
    var row := db.pages[u];
    Page(u, row.title, row.description, row.content, row.crawledAt, None)
  }

  /** Row ids identify rows, links connect rows. */
  ghost predicate Sound(db: Db) {
    && (forall u :: u in db.pages ==> 0 < db.pages[u].id < db.nextId)
    && (forall u, v :: u in db.pages && v in db.pages && db.pages[u].id == db.pages[v].id ==> u == v)
    && (forall e :: e in db.links ==> IsRow(db, e.0) && IsRow(db, e.1))
  }

  ghost predicate IsRow(db: Db, id: int) {
    exists u :: u in db.pages && db.pages[u].id == id
  }

  lemma InsertPageSound(db: Db, page: Page, l2: Vector -> Vector)
    requires Sound(db) && db.nextId > 0
    ensures var (r, id) := InsertPage(db, page, l2);
            && Sound(r) && r.nextId > 0 && page.url in r.pages && r.pages[page.url].id == id
            && (forall u :: u in db.pages ==> u in r.pages && r.pages[u].id == db.pages[u].id)
            && r.links == db.links
  {
    var (r, id) := InsertPage(db, page, l2);
    forall e | e in r.links ensures IsRow(r, e.0) && IsRow(r, e.1) {
      var u :| u in db.pages && db.pages[u].id == e.0;
      var v :| v in db.pages && db.pages[v].id == e.1;
      assert u in r.pages && r.pages[u].id == e.0 && v in r.pages && r.pages[v].id == e.1;
    }
  }

  lemma InsertLinkSound(db: Db, parent: Url, child: int)
    requires Sound(db) && IsRow(db, child)
    ensures Sound(InsertLink(db, parent, child))
  {
    var r := InsertLink(db, parent, child);
    forall e | e in r.links ensures IsRow(r, e.0) && IsRow(r, e.1) {
      assert forall id :: IsRow(db, id) ==> IsRow(r, id);
      if e !in db.links {
        assert IsRow(db, db.pages[parent].id);
      }
    }
  }

  class PageTables {
    var pages: map<Url, Row>
    var links: set<(int, int)>
    var nextId: int

    ghost function St(): Db
      reads this
    {
      Db(pages, links, nextId)
    }

    constructor ()
      ensures St() == EMPTY_DB
    {
      pages, links, nextId := map[], {}, 1;
    }

    method SavePage(page: Page, l2: Vector -> Vector) returns (id: int)
      modifies this
      ensures (St(), id) == InsertPage(old(St()), page, l2)
    {
      var vector, canBeVectorized := None, true;
      if page.vector.Some? {
        if |page.vector.value| > 0 {
          vector := Some(l2(page.vector.value));
        } else {
          canBeVectorized := false;
        }
      }
      if page.url in pages {
        id := pages[page.url].id;
        if vector.Some? {
          vector := Some(l2(vector.value));
        }
      } else {
        id := nextId;
      }
      nextId := nextId + 1;
      var row := Row(id, page.title, page.description, page.content, page.crawledAt, vector, canBeVectorized);
      pages := pages[page.url := row];
    }

    method SaveLink(parent: Url, child: int)
      modifies this
      ensures St() == InsertLink(old(St()), parent, child)
    {
      if parent in pages {
        links := links + {(pages[parent].id, child)};
      }
    }

    method GetUnvectorized() returns (backlog: seq<Page>)
      ensures IsBacklog(St(), backlog)
    {
      var rest := pages.Keys;
      backlog := [];
      while rest != {}
        invariant rest <= pages.Keys
        invariant forall i, j :: 0 <= i < j < |backlog| ==> backlog[i].url != backlog[j].url
        invariant forall p :: p in backlog ==>
                    p.url in pages && p.url !in rest && Unvectorized(pages[p.url]) && p == PageOf(St(), p.url)
        invariant forall u :: u in pages && u !in rest && Unvectorized(pages[u]) ==> PageOf(St(), u) in backlog
      {
        var u :| u in rest;
        rest := rest - {u};
        var row := pages[u];
        if Unvectorized(row) {
          ghost var before := backlog;
          backlog := backlog + [Page(u, row.title, row.description, row.content, row.crawledAt, None)];
          assert forall p :: p in backlog <==> p in before || p == PageOf(St(), u);
          assert forall i :: 0 <= i < |before| ==> before[i] in before;
        }
      }
    }
  }
}
