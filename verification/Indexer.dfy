/** The indexer's pass over the backlog of pages without a vector. */
module Indexer {
  import opened Basics
  import opened FrontierState
  import opened PageStore
  import EmbedderClient

  type Slice = EmbedderClient.Slice

  function FormatPageText(p: Page): EmbedderClient.Text {
    (if p.title != "" then "Title: " + p.title + ". " else "") +
    (if p.description != "" then "Description: " + p.description + ". " else "") +
    (if p.content != "" then "Content: " + p.content + "." else "")
  }

  function Texts(pages: seq<Page>): (r: seq<EmbedderClient.Text>)
    ensures |r| == |pages| && forall i :: 0 <= i < |r| ==> r[i] == FormatPageText(pages[i])
  {
    seq(|pages|, i requires 0 <= i < |pages| => FormatPageText(pages[i]))
  }

  /** Each field that is not empty stands behind its label; together, in this order, they make up the text. */
  lemma PageTextParts(p: Page)
    ensures var t := FormatPageText(p);
            exists i, j :: 0 <= i <= j <= |t|
              && (if p.title == "" then i == 0 else t[..i] == "Title: " + p.title + ". ")
              && (if p.description == "" then i == j else t[i..j] == "Description: " + p.description + ". ")
              && (if p.content == "" then j == |t| else t[j..] == "Content: " + p.content + ".")
  {
    var t := FormatPageText(p);
    var i := if p.title == "" then 0 else |"Title: " + p.title + ". "|;
    var j := i + if p.description == "" then 0 else |"Description: " + p.description + ". "|;
    if p.title != "" { assert t[..i] == "Title: " + p.title + ". "; }
    if p.description != "" { assert t[i..j] == "Description: " + p.description + ". "; }
    if p.content != "" { assert t[j..] == "Content: " + p.content + "."; }
  }

  /** Saves the pages that have a vector, page by page, going on when a save fails. */
  function SaveAll(db: Db, pages: seq<Page>, vectors: seq<Slice>, saved: Url -> bool, l2: Vector -> Vector): Db
    decreases |pages|
  {
    if pages == [] || vectors == [] then db
    else
      var p := pages[0].(vector := vectors[0]);
      SaveAll(if saved(p.url) then InsertPage(db, p, l2).0 else db, pages[1..], vectors[1..], saved, l2)
  }

  lemma {:induction false} SaveAllSnoc(
    db: Db, pages: seq<Page>, vectors: seq<Slice>, saved: Url -> bool, l2: Vector -> Vector, n: nat)
    requires n < |pages| && n < |vectors|
    ensures var r := SaveAll(db, pages[..n], vectors, saved, l2);
            SaveAll(db, pages[..n + 1], vectors, saved, l2) ==
            if saved(pages[n].url) then InsertPage(r, pages[n].(vector := vectors[n]), l2).0 else r
    decreases n
  {
    if n > 0 {
      var p := pages[0].(vector := vectors[0]);
      var db' := if saved(p.url) then InsertPage(db, p, l2).0 else db;
      SaveAllSnoc(db', pages[1..], vectors[1..], saved, l2, n - 1);
      assert pages[..n][1..] == pages[1..][..n - 1] && pages[..n + 1][1..] == pages[1..][..n];
    } else {
      assert pages[..1][1..] == [];
    }
  }

  /** Pages beyond the vectors are not saved. */
  lemma {:induction false} SaveAllShort(
    db: Db, pages: seq<Page>, vectors: seq<Slice>, saved: Url -> bool, l2: Vector -> Vector)
    requires |vectors| <= |pages|
    ensures SaveAll(db, pages, vectors, saved, l2) == SaveAll(db, pages[..|vectors|], vectors, saved, l2)
    decreases |pages|
  {
    if vectors != [] {
      var p := pages[0].(vector := vectors[0]);
      SaveAllShort(if saved(p.url) then InsertPage(db, p, l2).0 else db, pages[1..], vectors[1..], saved, l2);
      assert pages[..|vectors|][1..] == pages[1..][..|vectors[1..]|];
    }
  }

  /** The server answers every request that embedding the backlog takes. */
  ghost predicate Answers(server: EmbedderClient.Server, backlog: seq<Page>, made: nat) {
    EmbedderClient.Answered(server, EmbedderClient.Greedy(Texts(backlog), 0), made)
  }

  /** The vectors a call for the backlog brings, none when it fails. */
  function VectorsOf(
    backlog: seq<Page>, server: EmbedderClient.Server, sent: seq<seq<EmbedderClient.Text>>): seq<Slice>
  {
    var r := EmbedderClient.Embedded(Texts(backlog), server, sent).0;
    if r.Ok? then r.vectors else []
  }

  /** The tables after a pass. */
  function PassAfter(
    db: Db, backlog: seq<Page>, server: EmbedderClient.Server, sent: seq<seq<EmbedderClient.Text>>,
    saved: Url -> bool, l2: Vector -> Vector): Db
  {
    SaveAll(db, backlog, VectorsOf(backlog, server, sent), saved, l2)
  }

  lemma EmptyPass(
    db: Db, server: EmbedderClient.Server, sent: seq<seq<EmbedderClient.Text>>, saved: Url -> bool,
    l2: Vector -> Vector)
    ensures PassAfter(db, [], server, sent, saved, l2) == db && Answers(server, [], |sent|)
  {
    assert Texts([]) == [];
  }

  datatype Outcome = Indexed | EmbedFailed | TooFewVectors

  class Index {
    const pages: PageTables
    const embedder: EmbedderClient.Embedder

    constructor (pages: PageTables, embedder: EmbedderClient.Embedder)
      ensures this.pages == pages && this.embedder == embedder
    {
      this.pages, this.embedder := pages, embedder;
    }

    /** One pass: read the backlog, embed all texts, save page by page. It fails, leaving the tables alone, exactly
        when the server leaves a request unanswered. A server that returns too few vectors makes the index run
        out of range after the pages that have one are saved. */
    method Process(server: EmbedderClient.Server, saved: Url -> bool, l2: Vector -> Vector)
      returns (outcome: Outcome, ghost backlog: seq<Page>)
      modifies pages, embedder
      ensures IsBacklog(old(pages.St()), backlog)
      ensures outcome.EmbedFailed? <==> !Answers(server, backlog, |old(embedder.sent)|)
      ensures outcome.Indexed? <==>
                !outcome.EmbedFailed? && |VectorsOf(backlog, server, old(embedder.sent))| >= |backlog|
      ensures pages.St() == PassAfter(old(pages.St()), backlog, server, old(embedder.sent), saved, l2)
    {
      ghost var db0 := pages.St();
      var list := pages.GetUnvectorized();
      backlog := list;
      EmbedderClient.EmbedBatchOkIff(Texts(list), server, embedder.sent);
      if |list| == 0 {
        EmptyPass(db0, server, embedder.sent, saved, l2);
        return Indexed, backlog;
      }
      var texts := Texts(list);
      var reply := embedder.EmbedBatch(texts, server);
      if reply.Err? {
        return EmbedFailed, backlog;
      }
      var vectors := reply.vectors;
      for i := 0 to |list|
        invariant i <= |vectors|
        invariant pages.St() == SaveAll(db0, list[..i], vectors, saved, l2)
      {
        if i == |vectors| {
          SaveAllShort(db0, list, vectors, saved, l2);
          return TooFewVectors, backlog;
        }
        SaveAllSnoc(db0, list, vectors, saved, l2, i);
        if saved(list[i].url) {
          var id := pages.SavePage(list[i].(vector := vectors[i]), l2);
        }
      }
      assert list[..|list|] == list;
      return Indexed, backlog;
    }
  }

  // ----- what a pass achieves -----

  /** The pages have rows, and no two have the same. */
  ghost predicate HaveRows(db: Db, pages: seq<Page>) {
    && (forall i :: 0 <= i < |pages| ==> pages[i].url in db.pages)
    && (forall i, j :: 0 <= i < j < |pages| ==> pages[i].url != pages[j].url)
  }

  lemma BacklogHasRows(db: Db, backlog: seq<Page>)
    requires IsBacklog(db, backlog)
    ensures HaveRows(db, backlog)
  {
    forall i | 0 <= i < |backlog| ensures backlog[i].url in db.pages {
      assert backlog[i] in backlog;
    }
  }

  /** The row of a known page after it has been saved with a vector: nil is no vector, empty is the mark that there
      will be none, and a real one is normalised twice. */
  function SavedRow(row: Row, page: Page, vector: Slice, l2: Vector -> Vector): Row {
    Row(row.id, page.title, page.description, page.content, page.crawledAt,
        if vector.None? || vector.value == [] then None else Some(l2(l2(vector.value))), vector != Some([]))
  }

  lemma {:induction false} OtherRows(
    db: Db, pages: seq<Page>, vectors: seq<Slice>, saved: Url -> bool, l2: Vector -> Vector, u: Url)
    requires HaveRows(db, pages) && forall i :: 0 <= i < |pages| ==> pages[i].url != u
    ensures var r := SaveAll(db, pages, vectors, saved, l2);
            && r.pages.Keys == db.pages.Keys && r.links == db.links
            && (u in db.pages ==> r.pages[u] == db.pages[u])
    decreases |pages|
  {
    if pages != [] && vectors != [] {
      var p := pages[0].(vector := vectors[0]);
      var db' := if saved(p.url) then InsertPage(db, p, l2).0 else db;
      assert pages[0].url in db.pages && db'.pages.Keys == db.pages.Keys;
      assert forall i :: 0 <= i < |pages[1..]| ==> pages[1..][i] == pages[i + 1];
      OtherRows(db', pages[1..], vectors[1..], saved, l2, u);
    }
  }

  /** Page i of the backlog gets its own row, from vector i, if and only if there is such a vector and its save
      succeeds, whatever becomes of the other pages. */
  lemma {:induction false} SavedRows(
    db: Db, pages: seq<Page>, vectors: seq<Slice>, saved: Url -> bool, l2: Vector -> Vector, i: nat)
    requires HaveRows(db, pages) && i < |pages|
    ensures var r, u := SaveAll(db, pages, vectors, saved, l2), pages[i].url;
            && r.pages.Keys == db.pages.Keys && r.links == db.links
            && r.pages[u] == if i < |vectors| && saved(u) then SavedRow(db.pages[u], pages[i], vectors[i], l2)
                             else db.pages[u]
    decreases |pages|
  {
    if vectors != [] {
      var p := pages[0].(vector := vectors[0]);
      var db' := if saved(p.url) then InsertPage(db, p, l2).0 else db;
      assert pages[0].url in db.pages && db'.pages.Keys == db.pages.Keys;
      assert forall k :: 0 <= k < |pages[1..]| ==> pages[1..][k] == pages[k + 1];
      if i == 0 {
        OtherRows(db', pages[1..], vectors[1..], saved, l2, pages[0].url);
      } else {
        SavedRows(db', pages[1..], vectors[1..], saved, l2, i - 1);
      }
    }
  }

  /** The text can be sent, and the server has nothing to say about it. */
  predicate Wordless(text: EmbedderClient.Text, embed: EmbedderClient.Text -> Vector) {
    |text| <= EmbedderClient.MAX_BATCH_SIZE && embed(text) == []
  }

  /** The row of a page after its vector has been saved: the normalised embedding of its own text, or the
      mark that it cannot be vectorized. An empty embedding arrives as nil, which is no vector and no mark. */
  function Vectorized(
    row: Row, text: EmbedderClient.Text, embed: EmbedderClient.Text -> Vector, l2: Vector -> Vector): Row
  {
    if Wordless(text, embed) then row.(vector := None, canBeVectorized := true)
    else if |text| > EmbedderClient.MAX_BATCH_SIZE then row.(vector := None, canBeVectorized := false)
    else row.(vector := Some(l2(l2(embed(text)))), canBeVectorized := true)
  }

  function RowAfter(
    db: Db, u: Url, saved: Url -> bool, embed: EmbedderClient.Text -> Vector, l2: Vector -> Vector): Row
    requires u in db.pages
  {
    var row := db.pages[u];
    if Unvectorized(row) && saved(u) then Vectorized(row, FormatPageText(PageOf(db, u)), embed, l2) else row
  }

  lemma BacklogRow(
    db: Db, backlog: seq<Page>, embed: EmbedderClient.Text -> Vector, saved: Url -> bool, l2: Vector -> Vector, i: nat)
    requires IsBacklog(db, backlog) && i < |backlog|
    ensures var r, u := SaveAll(db, backlog, EmbedAll(backlog, embed), saved, l2), backlog[i].url;
            && u in db.pages && r.pages.Keys == db.pages.Keys && r.links == db.links
            && r.pages[u] == RowAfter(db, u, saved, embed, l2)
  {
    BacklogHasRows(db, backlog);
    assert backlog[i] in backlog;
    SavedRows(db, backlog, EmbedAll(backlog, embed), saved, l2, i);
  }

  lemma OutsideRow(
    db: Db, backlog: seq<Page>, vectors: seq<Slice>, saved: Url -> bool, l2: Vector -> Vector, u: Url)
    requires IsBacklog(db, backlog) && u in db.pages && !Unvectorized(db.pages[u])
    ensures var r := SaveAll(db, backlog, vectors, saved, l2);
            r.pages.Keys == db.pages.Keys && r.links == db.links && r.pages[u] == db.pages[u]
  {
    BacklogHasRows(db, backlog);
    forall i | 0 <= i < |backlog| ensures backlog[i].url != u { assert backlog[i] in backlog; }
    OtherRows(db, backlog, vectors, saved, l2, u);
  }

  /** With a server that answers every request, each with the embeddings of its texts, a pass gives every page of the
      backlog whose save succeeds the vector of its own text, or flags it when the text is too long, or leaves it
      as it is when the embedding is empty; it changes no other row. One page that is too long does not keep the
      others, nor itself, from being dealt with. */
  lemma PassRows(
    db: Db, backlog: seq<Page>, server: EmbedderClient.Server, sent: seq<seq<EmbedderClient.Text>>,
    embed: EmbedderClient.Text -> Vector, saved: Url -> bool, l2: Vector -> Vector, u: Url)
    requires IsBacklog(db, backlog) && EmbedderClient.Honest(server, embed) && Answers(server, backlog, |sent|)
    requires u in db.pages
    ensures var r := PassAfter(db, backlog, server, sent, saved, l2);
            r.pages.Keys == db.pages.Keys && r.links == db.links && r.pages[u] == RowAfter(db, u, saved, embed, l2)
  {
    HonestVectors(backlog, server, sent, embed);
    if Unvectorized(db.pages[u]) {
      var i :| 0 <= i < |backlog| && backlog[i] == PageOf(db, u);
      BacklogRow(db, backlog, embed, saved, l2, i);
    } else {
      OutsideRow(db, backlog, EmbedAll(backlog, embed), saved, l2, u);
    }
  }

  lemma HonestVectors(
    backlog: seq<Page>, server: EmbedderClient.Server, sent: seq<seq<EmbedderClient.Text>>,
    embed: EmbedderClient.Text -> Vector)
    requires EmbedderClient.Honest(server, embed) && Answers(server, backlog, |sent|)
    ensures VectorsOf(backlog, server, sent) == EmbedAll(backlog, embed)
  {
    EmbedderClient.EmbedBatchOkIff(Texts(backlog), server, sent);
    EmbedderClient.EmbedBatchIsMap(Texts(backlog), server, embed, sent);
  }

  lemma BacklogHas(db: Db, pages: seq<Page>, p: Page)
    requires IsBacklog(db, pages)
    ensures p in pages <==> p.url in db.pages && Unvectorized(db.pages[p.url]) && p == PageOf(db, p.url)
  {
  }

  /** Page i of the backlog stays in it. */
  predicate Remains(backlog: seq<Page>, vectors: seq<Slice>, saved: Url -> bool, i: nat)
    requires i < |backlog|
  {
    i >= |vectors| || !saved(backlog[i].url) || vectors[i].None?
  }

  /** A page leaves the backlog when it is saved with any vector but nil, the empty one included. */
  lemma RowDrained(
    db: Db, backlog: seq<Page>, vectors: seq<Slice>, saved: Url -> bool, l2: Vector -> Vector, i: nat)
    requires IsBacklog(db, backlog) && i < |backlog|
    ensures var r, u := SaveAll(db, backlog, vectors, saved, l2), backlog[i].url;
            && u in db.pages && r.pages.Keys == db.pages.Keys
            && (Unvectorized(r.pages[u]) <==> Remains(backlog, vectors, saved, i))
            && (Unvectorized(r.pages[u]) ==> r.pages[u] == db.pages[u])
  {
    BacklogHasRows(db, backlog);
    assert backlog[i] in backlog;
    SavedRows(db, backlog, vectors, saved, l2, i);
  }

  lemma DrainedPage(
    db: Db, backlog: seq<Page>, vectors: seq<Slice>, saved: Url -> bool, l2: Vector -> Vector, next: seq<Page>,
    p: Page)
    requires IsBacklog(db, backlog) && IsBacklog(SaveAll(db, backlog, vectors, saved, l2), next)
    ensures p in next <==> exists i :: 0 <= i < |backlog| && backlog[i] == p && Remains(backlog, vectors, saved, i)
  {
    BacklogHas(db, backlog, p);
    BacklogHas(SaveAll(db, backlog, vectors, saved, l2), next, p);
    BacklogHasRows(db, backlog);
    if i :| 0 <= i < |backlog| && backlog[i].url == p.url {
      assert backlog[i] in backlog;
      RowDrained(db, backlog, vectors, saved, l2, i);
      assert forall j :: 0 <= j < |backlog| && backlog[j] == p ==> j == i;
    } else {
      OtherRows(db, backlog, vectors, saved, l2, p.url);
    }
  }

  /** What is left in the backlog after a pass, whatever the server returns, is exactly what got no vector, could not be
      saved, or came back as nil; so the backlog is drained exactly when none of this happens. */
  lemma PassDrainsBacklog(
    db: Db, backlog: seq<Page>, server: EmbedderClient.Server, sent: seq<seq<EmbedderClient.Text>>,
    saved: Url -> bool, l2: Vector -> Vector, next: seq<Page>)
    requires IsBacklog(db, backlog) && IsBacklog(PassAfter(db, backlog, server, sent, saved, l2), next)
    ensures var vectors := VectorsOf(backlog, server, sent);
            && (forall p :: p in next <==>
                  exists i :: 0 <= i < |backlog| && backlog[i] == p && Remains(backlog, vectors, saved, i))
            && (next == [] <==> forall i :: 0 <= i < |backlog| ==> !Remains(backlog, vectors, saved, i))
  {
    var vectors := VectorsOf(backlog, server, sent);
    forall p ensures p in next <==>
               exists i :: 0 <= i < |backlog| && backlog[i] == p && Remains(backlog, vectors, saved, i)
    {
      DrainedPage(db, backlog, vectors, saved, l2, next, p);
    }
    SomeElem(next);
    if i :| 0 <= i < |backlog| && Remains(backlog, vectors, saved, i) {
      assert backlog[i] in next;
    }
  }

  /** A fresh crawl of a page takes its vector away; the next pass gives it the vector of the new text, or flags
      it when that is too long, whatever the row held before. Only a page without any text, or with an empty
      embedding, stays as it is. */
  lemma RecrawlIsReindexed(
    before: Db, page: Page, backlog: seq<Page>, server: EmbedderClient.Server, sent: seq<seq<EmbedderClient.Text>>,
    embed: EmbedderClient.Text -> Vector, saved: Url -> bool, l2: Vector -> Vector)
    requires page.vector.None? && saved(page.url)
    requires IsBacklog(InsertPage(before, page, l2).0, backlog)
    requires EmbedderClient.Honest(server, embed) && Answers(server, backlog, |sent|)
    ensures var db, text := InsertPage(before, page, l2).0, FormatPageText(page);
            var r := PassAfter(db, backlog, server, sent, saved, l2);
            && page.url in r.pages && db.pages[page.url].vector.None?
            && r.pages[page.url] ==
               if text == "" then db.pages[page.url] else Vectorized(db.pages[page.url], text, embed, l2)
  {
    var db, text := InsertPage(before, page, l2).0, FormatPageText(page);
    PassRows(db, backlog, server, sent, embed, saved, l2, page.url);
    assert PageOf(db, page.url) == page;
    if page.title != "" || page.description != "" || page.content != "" {
      assert |text| > 0;
    }
  }

  // ----- the notification loop -----

  function EmbedAll(pages: seq<Page>, embed: EmbedderClient.Text -> Vector): (r: seq<Slice>)
    ensures |r| == |pages|
    ensures forall i :: 0 <= i < |r| ==> r[i] == EmbedderClient.EmbedOne(FormatPageText(pages[i]), embed)
  {
    seq(|pages|, i requires 0 <= i < |pages| => EmbedderClient.EmbedOne(FormatPageText(pages[i]), embed))
  }

  const ALL_SAVED: Url -> bool := u => true

  /** One pass over the whole backlog, with a server that returns each text's embedding and no failing call. */
  ghost predicate Passes(db: Db, r: Db, embed: EmbedderClient.Text -> Vector, l2: Vector -> Vector) {
    exists backlog :: IsBacklog(db, backlog) && r == SaveAll(db, backlog, EmbedAll(backlog, embed), ALL_SAVED, l2)
  }

  /** Such a pass is what Process does when every request is answered and every save succeeds. */
  lemma ProcessPasses(
    db: Db, backlog: seq<Page>, server: EmbedderClient.Server, sent: seq<seq<EmbedderClient.Text>>,
    embed: EmbedderClient.Text -> Vector, l2: Vector -> Vector)
    requires IsBacklog(db, backlog) && EmbedderClient.Honest(server, embed) && Answers(server, backlog, |sent|)
    ensures Passes(db, PassAfter(db, backlog, server, sent, ALL_SAVED, l2), embed, l2)
  {
    HonestVectors(backlog, server, sent, embed);
  }

  ghost predicate Waits(db: Db, u: Url) {
    u in db.pages && Unvectorized(db.pages[u])
  }

  /** A pass over db has something to save. */
  ghost predicate HasWork(db: Db) {
    exists u :: Waits(db, u)
  }

  /** A page waits whose text has an empty embedding. */
  ghost predicate HasWordless(db: Db, embed: EmbedderClient.Text -> Vector) {
    exists u :: Waits(db, u) && Wordless(FormatPageText(PageOf(db, u)), embed)
  }

  lemma PassRow(db: Db, r: Db, embed: EmbedderClient.Text -> Vector, l2: Vector -> Vector, u: Url)
    requires Passes(db, r, embed, l2)
    ensures Waits(r, u) <==> Waits(db, u) && Wordless(FormatPageText(PageOf(db, u)), embed)
    ensures Waits(r, u) ==> PageOf(r, u) == PageOf(db, u)
  {
    var backlog: seq<Page> :|
      IsBacklog(db, backlog) && r == SaveAll(db, backlog, EmbedAll(backlog, embed), ALL_SAVED, l2);
    if Waits(db, u) {
      var i :| 0 <= i < |backlog| && backlog[i] == PageOf(db, u);
      RowDrained(db, backlog, EmbedAll(backlog, embed), ALL_SAVED, l2, i);
    } else if u in db.pages {
      OutsideRow(db, backlog, EmbedAll(backlog, embed), ALL_SAVED, l2, u);
    } else {
      BacklogHasRows(db, backlog);
      forall i | 0 <= i < |backlog| ensures backlog[i].url != u { assert backlog[i] in backlog; }
      OtherRows(db, backlog, EmbedAll(backlog, embed), ALL_SAVED, l2, u);
    }
  }

  /** Every insert draws an id, and every insert notifies the indexer. */
  lemma {:induction false} InsertsDrawIds(db: Db, pages: seq<Page>, vectors: seq<Slice>, l2: Vector -> Vector)
    requires |pages| == |vectors|
    ensures SaveAll(db, pages, vectors, ALL_SAVED, l2).nextId == db.nextId + |pages|
    decreases |pages|
  {
    if pages != [] {
      InsertsDrawIds(InsertPage(db, pages[0].(vector := vectors[0]), l2).0, pages[1..], vectors[1..], l2);
    }
  }

  lemma PassNotifies(db: Db, r: Db, embed: EmbedderClient.Text -> Vector, l2: Vector -> Vector)
    requires Passes(db, r, embed, l2)
    ensures HasWork(db) <==> r.nextId > db.nextId
    ensures HasWork(r) <==> HasWordless(db, embed)
    ensures HasWordless(r, embed) <==> HasWordless(db, embed)
  {
    var backlog: seq<Page> :|
      IsBacklog(db, backlog) && r == SaveAll(db, backlog, EmbedAll(backlog, embed), ALL_SAVED, l2);
    InsertsDrawIds(db, backlog, EmbedAll(backlog, embed), l2);
    if u :| Waits(db, u) {
      assert PageOf(db, u) in backlog;
    }
    if backlog != [] {
      assert backlog[0] in backlog;
      assert Waits(db, backlog[0].url);
    }
    forall u ensures Waits(r, u) <==> Waits(db, u) && Wordless(FormatPageText(PageOf(db, u)), embed)
             ensures Waits(r, u) ==> PageOf(r, u) == PageOf(db, u)
    {
      PassRow(db, r, embed, l2, u);
    }
  }

  ghost predicate PassRun(dbs: seq<Db>, embed: EmbedderClient.Text -> Vector, l2: Vector -> Vector) {
    forall i :: 0 <= i < |dbs| - 1 ==> Passes(dbs[i], dbs[i + 1], embed, l2)
  }

  /** The passes of an indexer that is left alone, with every call succeeding: each save notifies it again. The
      second pass has nothing to do, so the loop stops, if and only if no waiting page has an empty embedding.
      If one has, every pass saves and notifies, and the loop never stops. */
  lemma {:induction false} LoopStopsIff(
    dbs: seq<Db>, embed: EmbedderClient.Text -> Vector, l2: Vector -> Vector, n: nat)
    requires 0 < n < |dbs| - 1 && PassRun(dbs, embed, l2)
    ensures dbs[n + 1].nextId > dbs[n].nextId <==> HasWordless(dbs[0], embed)
    decreases n
  {
    PassNotifies(dbs[0], dbs[1], embed, l2);
    PassNotifies(dbs[n], dbs[n + 1], embed, l2);
    if n > 1 {
      var rest := dbs[1..];
      forall i | 0 <= i < |rest| - 1 ensures Passes(rest[i], rest[i + 1], embed, l2) {
        assert Passes(dbs[i + 1], dbs[i + 2], embed, l2);
      }
      LoopStopsIff(rest, embed, l2, n - 1);
    }
  }
}
