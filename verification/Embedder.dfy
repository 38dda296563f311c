/** The embedder client: texts are packed greedily into requests below a size limit. */
module EmbedderClient {
  import opened Basics

  /** A text as its bytes; its size is its length. */
  type Text = string

  const MAX_BATCH_SIZE: nat := 3_500_000

  /** A Go slice is nil (None) or not, and an empty one need not be nil. */
  type Slice = Option<Vector>

  datatype Result = Ok(vectors: seq<Slice>) | Err(lo: nat, hi: nat)

  /** A slice of the texts sent as one request, or a text that cannot be sent. */
  datatype Piece = TooLong(at: nat) | Batch(lo: nat, hi: nat)

  /** The server's answer to the k-th request. */
  type Server = (nat, seq<Text>) -> Option<seq<Vector>>

  /** A repeated field of a message: without elements it is nil. */
  function Decoded(values: Vector): Slice {
    if values == [] then None else Some(values)
  }

  function DecodeAll(reply: seq<Vector>): (r: seq<Slice>)
    ensures |r| == |reply| && forall i :: 0 <= i < |r| ==> r[i] == Decoded(reply[i])
  {
    seq(|reply|, i requires 0 <= i < |reply| => Decoded(reply[i]))
  }

  function SizeOf(texts: seq<Text>, lo: nat, hi: nat): nat
    requires lo <= hi <= |texts|
    decreases hi - lo
  {
    if lo == hi then 0 else |texts[lo]| + SizeOf(texts, lo + 1, hi)
  }

  lemma {:induction false} SizeSplit(texts: seq<Text>, lo: nat, mid: nat, hi: nat)
    requires lo <= mid <= hi <= |texts|
    ensures SizeOf(texts, lo, hi) == SizeOf(texts, lo, mid) + SizeOf(texts, mid, hi)
    decreases mid - lo
  {
    if lo < mid {
      SizeSplit(texts, lo + 1, mid, hi);
    }
  }

  /** Where a request of `size` bytes that is about to take text i ends. */
  function Grow(texts: seq<Text>, i: nat, size: nat): (hi: nat)
    requires i <= |texts|
    ensures i <= hi <= |texts|
    decreases |texts| - i
  {
    if i == |texts| || size + |texts[i]| > MAX_BATCH_SIZE then i else Grow(texts, i + 1, size + |texts[i]|)
  }

  function Pieces(texts: seq<Text>, lo: nat): seq<Piece>
    requires lo <= |texts|
    decreases |texts| - lo
  {
    if lo == |texts| then []
    else if |texts[lo]| > MAX_BATCH_SIZE then [TooLong(lo)] + Pieces(texts, lo + 1)
    else
      var hi := Grow(texts, lo + 1, |texts[lo]|);
      [Batch(lo, hi)] + Pieces(texts, hi)
  }

  predicate Fits(texts: seq<Text>, pieces: seq<Piece>) {
    forall i :: 0 <= i < |pieces| && pieces[i].Batch? ==> pieces[i].lo <= pieces[i].hi <= |texts|
  }

  /** Working through the pieces with `vectors` gathered and `sent` requests made so far: the first request
      that fails ends the call. */
  function Work(texts: seq<Text>, pieces: seq<Piece>, server: Server, vectors: seq<Slice>, sent: seq<seq<Text>>)
    : (Result, seq<seq<Text>>)
    requires Fits(texts, pieces)
    decreases |pieces|
  {
    if pieces == [] then (Ok(vectors), sent)
    else
      assert Fits(texts, pieces[1..]);
      match pieces[0]
      case TooLong(_) => Work(texts, pieces[1..], server, vectors + [Some([])], sent)
      case Batch(lo, hi) =>
        var batch := texts[lo..hi];
        match server(|sent|, batch)
        case None => (Err(lo, hi), sent + [batch])
        case Some(chunk) => Work(texts, pieces[1..], server, vectors + DecodeAll(chunk), sent + [batch])
  }

  lemma {:induction false} PiecesFit(texts: seq<Text>, lo: nat)
    requires lo <= |texts|
    ensures Fits(texts, Pieces(texts, lo))
    decreases |texts| - lo
  {
    if lo < |texts| {
      if |texts[lo]| > MAX_BATCH_SIZE {
        PiecesFit(texts, lo + 1);
      } else {
        PiecesFit(texts, Grow(texts, lo + 1, |texts[lo]|));
      }
    }
  }

  /** What a call returns, and the requests made by then. */
  function Embedded(texts: seq<Text>, server: Server, sent: seq<seq<Text>>): (Result, seq<seq<Text>>) {
    PiecesFit(texts, 0);
    Work(texts, Pieces(texts, 0), server, [], sent)
  }

  class Embedder {
    /** The requests made, in order. */
    var sent: seq<seq<Text>>

    constructor ()
      ensures sent == []
    {
      sent := [];
    }

    /** embedBatch: one request, and the values of the reply one by one. */
    method Send(batch: seq<Text>, server: Server) returns (chunk: Option<seq<Slice>>)
      modifies this
      ensures sent == old(sent) + [batch]
      ensures var reply := server(|old(sent)|, batch);
              chunk == if reply.None? then None else Some(DecodeAll(reply.value))
    {
      var reply := server(|sent|, batch);
      sent := sent + [batch];
      if reply.None? {
        return None;
      }
      var vectors: seq<Slice> := [];
      for i := 0 to |reply.value|
        invariant |vectors| == i && forall k :: 0 <= k < i ==> vectors[k] == Decoded(reply.value[k])
      {
        vectors := vectors + [Decoded(reply.value[i])];
      }
      assert vectors == DecodeAll(reply.value);
      chunk := Some(vectors);
    }

    /** The flushing branch does not advance i; it moves start up to i instead. */
    method EmbedBatch(texts: seq<Text>, server: Server) returns (r: Result)
      modifies this
      ensures (r, sent) == Embedded(texts, server, old(sent))
    {
      PiecesFit(texts, 0);
      if |texts| == 0 {
        return Ok([]);
      }
      ghost var result := Work(texts, Pieces(texts, 0), server, [], sent);
      var vectors: seq<Slice> := [];
      var curBatchSize: nat, start: nat, i: nat := 0, 0, 0;
      while i < |texts|
        invariant 0 <= start <= i <= |texts|
        invariant start == i ==> curBatchSize == 0
        invariant start < i ==> |texts[start]| <= MAX_BATCH_SIZE
        invariant start < i ==> Grow(texts, start + 1, |texts[start]|) == Grow(texts, i, curBatchSize)
        invariant Fits(texts, Pieces(texts, start))
        invariant Work(texts, Pieces(texts, start), server, vectors, sent) == result
        decreases |texts| - i, i - start
      {
        var textSize := |texts[i]|;
        if curBatchSize + textSize > MAX_BATCH_SIZE && start == i {
          PiecesFit(texts, start + 1);
          assert Pieces(texts, start)[1..] == Pieces(texts, start + 1);
          vectors := vectors + [Some([])];
          i := i + 1;
          start := i;
        } else if curBatchSize + textSize > MAX_BATCH_SIZE {
          PiecesFit(texts, i);
          assert Pieces(texts, start) == [Batch(start, i)] + Pieces(texts, i);
          var chunk := Send(texts[start..i], server);
          if chunk.None? {
            return Err(start, i);
          }
          vectors := vectors + chunk.value;
          start := i;
          curBatchSize := 0;
        } else {
          curBatchSize := curBatchSize + textSize;
          i := i + 1;
        }
      }
      if start < |texts| {
        assert Pieces(texts, start) == [Batch(start, |texts|)] + Pieces(texts, |texts|);
        assert texts[start..] == texts[start..|texts|];
        var chunk := Send(texts[start..], server);
        if chunk.None? {
          return Err(start, |texts|);
        }
        vectors := vectors + chunk.value;
      }
      return Ok(vectors);
    }
  }

  // ----- what the result is -----

  /** A server that, when it answers, returns one vector per text, in order. */
  ghost predicate Honest(server: Server, embed: Text -> Vector) {
    forall k, batch: seq<Text> :: server(k, batch).Some? ==>
      server(k, batch).value == Each(batch, embed)
  }

  function Each<T>(texts: seq<Text>, embed: Text -> T): (r: seq<T>)
    ensures |r| == |texts| && forall i :: 0 <= i < |r| ==> r[i] == embed(texts[i])
  {
    seq(|texts|, i requires 0 <= i < |texts| => embed(texts[i]))
  }

  /** One text at a time: its own embedding, or the empty vector when it alone exceeds the limit. An empty
      embedding is not that vector, but nil. */
  function EmbedOne(text: Text, embed: Text -> Vector): Slice {
    if |text| > MAX_BATCH_SIZE then Some([]) else Decoded(embed(text))
  }

  lemma {:induction false} GrowBounds(texts: seq<Text>, i: nat, size: nat)
    requires i <= |texts| && size <= MAX_BATCH_SIZE
    ensures var hi := Grow(texts, i, size);
            && size + SizeOf(texts, i, hi) <= MAX_BATCH_SIZE
            && (hi < |texts| ==> size + SizeOf(texts, i, hi + 1) > MAX_BATCH_SIZE)
            && forall k :: i <= k < hi ==> |texts[k]| <= MAX_BATCH_SIZE
    decreases |texts| - i
  {
    if i < |texts| && size + |texts[i]| <= MAX_BATCH_SIZE {
      GrowBounds(texts, i + 1, size + |texts[i]|);
    }
  }

  /** The request that starts at lo: as long as the limit allows. */
  lemma FirstBatch(texts: seq<Text>, lo: nat)
    requires lo < |texts| && |texts[lo]| <= MAX_BATCH_SIZE
    ensures var hi := Grow(texts, lo + 1, |texts[lo]|);
            && lo < hi <= |texts| && SizeOf(texts, lo, hi) <= MAX_BATCH_SIZE
            && (hi < |texts| ==> SizeOf(texts, lo, hi + 1) > MAX_BATCH_SIZE)
            && forall k :: lo <= k < hi ==> |texts[k]| <= MAX_BATCH_SIZE
  {
    GrowBounds(texts, lo + 1, |texts[lo]|);
  }

  ghost function OneByOne(embed: Text -> Vector): Text -> Slice {
    t => EmbedOne(t, embed)
  }

  lemma EachSplit(texts: seq<Text>, lo: nat, hi: nat, f: Text -> Slice)
    requires lo <= hi <= |texts|
    ensures Each(texts[lo..], f) == Each(texts[lo..hi], f) + Each(texts[hi..], f)
  {
  }

  lemma EachFits(texts: seq<Text>, embed: Text -> Vector)
    requires forall i :: 0 <= i < |texts| ==> |texts[i]| <= MAX_BATCH_SIZE
    ensures Each(texts, OneByOne(embed)) == DecodeAll(Each(texts, embed))
  {
  }

  /** From lo on, a call that succeeds appends each text's own result, whatever the packing. */
  lemma {:induction false} WorkPointwise(
    texts: seq<Text>, lo: nat, server: Server, embed: Text -> Vector, vectors: seq<Slice>, sent: seq<seq<Text>>)
    requires lo <= |texts| && Honest(server, embed) && Fits(texts, Pieces(texts, lo))
    ensures var r := Work(texts, Pieces(texts, lo), server, vectors, sent).0;
            r.Ok? ==> r.vectors == vectors + Each(texts[lo..], OneByOne(embed))
    decreases |texts| - lo
  {
    var f := OneByOne(embed);
    if lo < |texts| {
      if |texts[lo]| > MAX_BATCH_SIZE {
        var hi := lo + 1;
        assert Pieces(texts, lo)[1..] == Pieces(texts, hi);
        WorkPointwise(texts, hi, server, embed, vectors + [Some([])], sent);
        EachSplit(texts, lo, hi, f);
        assert Each(texts[lo..hi], f) == [Some([])];
        Regroup(vectors, [Some([])], Each(texts[hi..], f));
      } else {
        BatchPointwise(texts, lo, server, embed, vectors, sent);
      }
    }
  }

  lemma Regroup<T>(a: seq<T>, b: seq<T>, c: seq<T>)
    ensures a + (b + c) == (a + b) + c
  {
  }

  lemma {:induction false} BatchPointwise(
    texts: seq<Text>, lo: nat, server: Server, embed: Text -> Vector, vectors: seq<Slice>, sent: seq<seq<Text>>)
    requires lo < |texts| && |texts[lo]| <= MAX_BATCH_SIZE
    requires Honest(server, embed) && Fits(texts, Pieces(texts, lo))
    ensures var r := Work(texts, Pieces(texts, lo), server, vectors, sent).0;
            r.Ok? ==> r.vectors == vectors + Each(texts[lo..], OneByOne(embed))
    decreases |texts| - lo, 0
  {
    FirstBatch(texts, lo);
    var f, hi := OneByOne(embed), Grow(texts, lo + 1, |texts[lo]|);
    assert Pieces(texts, lo)[1..] == Pieces(texts, hi);
    var batch := texts[lo..hi];
    var reply := server(|sent|, batch);
    if reply.Some? {
      WorkPointwise(texts, hi, server, embed, vectors + DecodeAll(reply.value), sent + [batch]);
      EachFits(batch, embed);
      EachSplit(texts, lo, hi, f);
      Regroup(vectors, DecodeAll(reply.value), Each(texts[hi..], f));
    }
  }

  lemma EachOne(texts: seq<Text>, embed: Text -> Vector, vectors: seq<Slice>)
    requires vectors == [] + Each(texts[0..], OneByOne(embed))
    ensures |vectors| == |texts| && forall i :: 0 <= i < |texts| ==> vectors[i] == EmbedOne(texts[i], embed)
  {
    var f := OneByOne(embed);
    assert texts[0..] == texts;
    assert vectors == Each(texts, f);
    forall i | 0 <= i < |texts| ensures vectors[i] == EmbedOne(texts[i], embed) {
      assert vectors[i] == f(texts[i]);
    }
  }

  /** EmbedBatch is a map over the texts. */
  lemma EmbedBatchIsMap(texts: seq<Text>, server: Server, embed: Text -> Vector, sent: seq<seq<Text>>)
    requires Honest(server, embed)
    ensures var r := Embedded(texts, server, sent).0;
            r.Ok? ==> |r.vectors| == |texts| &&
                      forall i :: 0 <= i < |texts| ==> r.vectors[i] == EmbedOne(texts[i], embed)
  {
    PiecesFit(texts, 0);
    WorkPointwise(texts, 0, server, embed, [], sent);
    var r := Embedded(texts, server, sent).0;
    if r.Ok? {
      EachOne(texts, embed, r.vectors);
    }
  }

  function Batches(pieces: seq<Piece>): seq<(nat, nat)> {
    if pieces == [] then []
    else (if pieces[0].Batch? then [(pieces[0].lo, pieces[0].hi)] else []) + Batches(pieces[1..])
  }

  // ----- fewest requests -----

  /** A way to cover the texts from `from` on by slices within the limit, in order, that leaves out nothing
      but texts too long to be sent. */
  ghost predicate IsSplit(texts: seq<Text>, from: nat, cuts: seq<(nat, nat)>)
    requires from <= |texts|
    decreases |cuts|
  {
    if cuts == [] then forall k :: from <= k < |texts| ==> |texts[k]| > MAX_BATCH_SIZE
    else
      var (lo, hi) := cuts[0];
      && from <= lo < hi <= |texts|
      && (forall k :: from <= k < lo ==> |texts[k]| > MAX_BATCH_SIZE)
      && SizeOf(texts, lo, hi) <= MAX_BATCH_SIZE
      && IsSplit(texts, hi, cuts[1..])
  }

  ghost function Requests(texts: seq<Text>, lo: nat): nat
    requires lo <= |texts|
  {
    |Batches(Pieces(texts, lo))|
  }

  /** The batches from lo on, one greedy step at a time. */
  lemma BatchesStep(texts: seq<Text>, lo: nat)
    requires lo < |texts|
    ensures |texts[lo]| > MAX_BATCH_SIZE ==> Batches(Pieces(texts, lo)) == Batches(Pieces(texts, lo + 1))
    ensures |texts[lo]| <= MAX_BATCH_SIZE ==>
              var hi := Grow(texts, lo + 1, |texts[lo]|);
              Batches(Pieces(texts, lo)) == [(lo, hi)] + Batches(Pieces(texts, hi))
  {
    if |texts[lo]| > MAX_BATCH_SIZE {
      assert Pieces(texts, lo)[1..] == Pieces(texts, lo + 1);
    } else {
      assert Pieces(texts, lo)[1..] == Pieces(texts, Grow(texts, lo + 1, |texts[lo]|));
    }
  }

  /** The next step of the greedy packing, counted. */
  lemma RequestsStep(texts: seq<Text>, lo: nat)
    requires lo < |texts|
    ensures |texts[lo]| > MAX_BATCH_SIZE ==> Requests(texts, lo) == Requests(texts, lo + 1)
    ensures |texts[lo]| <= MAX_BATCH_SIZE ==>
              Requests(texts, lo) == 1 + Requests(texts, Grow(texts, lo + 1, |texts[lo]|))
  {
    BatchesStep(texts, lo);
  }

  /** The slice from lo that fits cannot reach beyond the greedy one. */
  lemma GreedyReachesFurthest(texts: seq<Text>, lo: nat, hi: nat)
    requires lo < hi <= |texts| && SizeOf(texts, lo, hi) <= MAX_BATCH_SIZE
    ensures |texts[lo]| <= MAX_BATCH_SIZE && hi <= Grow(texts, lo + 1, |texts[lo]|)
  {
    SizeSplit(texts, lo, lo + 1, hi);
    FirstBatch(texts, lo);
    var g := Grow(texts, lo + 1, |texts[lo]|);
    if g < hi {
      SizeSplit(texts, lo, g + 1, hi);
    }
  }

  /** Starting later never needs more requests. */
  lemma {:induction false} LaterIsCheaper(texts: seq<Text>, lo: nat, from: nat)
    requires lo <= from <= |texts|
    ensures Requests(texts, from) <= Requests(texts, lo)
    decreases |texts| - lo, from - lo
  {
    if lo < from {
      RequestsStep(texts, lo);
      if |texts[lo]| > MAX_BATCH_SIZE {
        LaterIsCheaper(texts, lo + 1, from);
      } else {
        var g := Grow(texts, lo + 1, |texts[lo]|);
        if g <= from {
          LaterIsCheaper(texts, g, from);
        } else {
          FirstBatch(texts, lo);
          assert |texts[from]| <= MAX_BATCH_SIZE;
          RequestsStep(texts, from);
          SizeSplit(texts, lo, from, g);
          GreedyReachesFurthest(texts, from, g);
          LaterIsCheaper(texts, g, Grow(texts, from + 1, |texts[from]|));
        }
      }
    }
  }

  /** No split of the texts into requests uses fewer than the greedy loop. */
  lemma {:induction false} GreedyIsFewest(texts: seq<Text>, from: nat, cuts: seq<(nat, nat)>)
    requires from <= |texts| && IsSplit(texts, from, cuts)
    ensures Requests(texts, from) <= |cuts|
    decreases |cuts|, |texts| - from
  {
    if from < |texts| {
      RequestsStep(texts, from);
      if |texts[from]| > MAX_BATCH_SIZE {
        if cuts != [] {
          SizeSplit(texts, cuts[0].0, cuts[0].0 + 1, cuts[0].1);
        }
        GreedyIsFewest(texts, from + 1, cuts);
      } else {
        var (lo, hi) := cuts[0];
        assert lo == from;
        GreedyReachesFurthest(texts, from, hi);
        GreedyIsFewest(texts, hi, cuts[1..]);
        LaterIsCheaper(texts, hi, Grow(texts, from + 1, |texts[from]|));
      }
    }
  }

  lemma SkipLong(texts: seq<Text>, from: nat, cuts: seq<(nat, nat)>)
    requires from < |texts| && |texts[from]| > MAX_BATCH_SIZE && IsSplit(texts, from + 1, cuts)
    ensures IsSplit(texts, from, cuts)
  {
  }

  lemma AddSlice(texts: seq<Text>, lo: nat, hi: nat, cuts: seq<(nat, nat)>)
    requires lo < hi <= |texts| && SizeOf(texts, lo, hi) <= MAX_BATCH_SIZE && IsSplit(texts, hi, cuts)
    ensures IsSplit(texts, lo, [(lo, hi)] + cuts)
  {
    assert ([(lo, hi)] + cuts)[1..] == cuts;
  }

  /** And the greedy packing is such a split: every request is non-empty and within the limit, and only
      texts too long to be sent are left out. */
  lemma {:induction false} GreedyIsSplit(texts: seq<Text>, from: nat)
    requires from <= |texts|
    ensures IsSplit(texts, from, Batches(Pieces(texts, from)))
    decreases |texts| - from
  {
    if from < |texts| {
      BatchesStep(texts, from);
      if |texts[from]| > MAX_BATCH_SIZE {
        GreedyIsSplit(texts, from + 1);
        SkipLong(texts, from, Batches(Pieces(texts, from + 1)));
      } else {
        FirstBatch(texts, from);
        var hi := Grow(texts, from + 1, |texts[from]|);
        GreedyIsSplit(texts, hi);
        AddSlice(texts, from, hi, Batches(Pieces(texts, hi)));
      }
    }
  }

  /** The slices themselves. */
  function Slices(texts: seq<Text>, cuts: seq<(nat, nat)>): seq<seq<Text>> {
    if cuts == [] then []
    else
      var (lo, hi) := cuts[0];
      (if lo <= hi <= |texts| then [texts[lo..hi]] else []) + Slices(texts, cuts[1..])
  }

  lemma SlicesCons(texts: seq<Text>, lo: nat, hi: nat, cuts: seq<(nat, nat)>)
    requires lo <= hi <= |texts|
    ensures Slices(texts, [(lo, hi)] + cuts) == [texts[lo..hi]] + Slices(texts, cuts)
  {
    assert ([(lo, hi)] + cuts)[1..] == cuts;
  }

  lemma SentStep(sent: seq<seq<Text>>, batch: seq<Text>, rest: seq<seq<Text>>)
    ensures sent + ([batch] + rest) == (sent + [batch]) + rest
  {
  }

  /** The requests of a call are greedy slices, in order and from the first one on; all of them when the call
      succeeds. */
  lemma {:induction false} SentInOrder(
    texts: seq<Text>, lo: nat, server: Server, vectors: seq<Slice>, sent: seq<seq<Text>>)
    requires lo <= |texts| && Fits(texts, Pieces(texts, lo))
    ensures var (r, requests) := Work(texts, Pieces(texts, lo), server, vectors, sent);
            var all := sent + Slices(texts, Batches(Pieces(texts, lo)));
            sent <= requests <= all && (r.Ok? ==> requests == all)
    decreases |texts| - lo
  {
    if lo < |texts| {
      BatchesStep(texts, lo);
      if |texts[lo]| > MAX_BATCH_SIZE {
        assert Pieces(texts, lo)[1..] == Pieces(texts, lo + 1);
        SentInOrder(texts, lo + 1, server, vectors + [Some([])], sent);
      } else {
        var hi := Grow(texts, lo + 1, |texts[lo]|);
        var batch := texts[lo..hi];
        assert Pieces(texts, lo)[1..] == Pieces(texts, hi);
        SlicesCons(texts, lo, hi, Batches(Pieces(texts, hi)));
        SentStep(sent, batch, Slices(texts, Batches(Pieces(texts, hi))));
        var reply := server(|sent|, batch);
        if reply.Some? {
          SentInOrder(texts, hi, server, vectors + DecodeAll(reply.value), sent + [batch]);
        }
      }
    }
  }

  lemma {:induction false} SizeOfSlice(texts: seq<Text>, lo: nat, hi: nat, k: nat)
    requires lo <= hi <= |texts| && k <= hi - lo
    ensures SizeOf(texts[lo..hi], k, hi - lo) == SizeOf(texts, lo + k, hi)
    decreases hi - lo - k
  {
    if k < hi - lo {
      SizeOfSlice(texts, lo, hi, k + 1);
    }
  }

  /** A request that may be sent. */
  predicate Sendable(batch: seq<Text>) {
    batch != [] && SizeOf(batch, 0, |batch|) <= MAX_BATCH_SIZE
  }

  lemma {:induction false} SlicesSendable(texts: seq<Text>, from: nat, cuts: seq<(nat, nat)>)
    requires from <= |texts| && IsSplit(texts, from, cuts)
    ensures forall k :: 0 <= k < |Slices(texts, cuts)| ==> Sendable(Slices(texts, cuts)[k])
    decreases |cuts|
  {
    if cuts != [] {
      var (lo, hi) := cuts[0];
      SizeOfSlice(texts, lo, hi, 0);
      SlicesSendable(texts, hi, cuts[1..]);
    }
  }

  /** However a call ends, on the first failing request or with success: each request it made is non-empty and
      within the limit. */
  lemma RequestsWithinLimit(texts: seq<Text>, server: Server, sent: seq<seq<Text>>, k: nat)
    ensures var requests := Embedded(texts, server, sent).1;
            |sent| <= k < |requests| ==> Sendable(requests[k])
  {
    PiecesFit(texts, 0);
    var requests := Embedded(texts, server, sent).1;
    var slices := Slices(texts, Batches(Pieces(texts, 0)));
    SentInOrder(texts, 0, server, [], sent);
    GreedyIsSplit(texts, 0);
    SlicesSendable(texts, 0, Batches(Pieces(texts, 0)));
    if |sent| <= k < |requests| {
      assert requests[k] == (sent + slices)[k] == slices[k - |sent|];
    }
  }

  // ----- when a call succeeds -----

  /** Every slice is answered when its turn comes, after `made` earlier requests. */
  predicate Answered(server: Server, slices: seq<seq<Text>>, made: nat) {
    forall k :: 0 <= k < |slices| ==> server(made + k, slices[k]).Some?
  }

  /** Slice k is the first that is not answered. */
  predicate FirstUnanswered(server: Server, slices: seq<seq<Text>>, made: nat, k: nat) {
    && k < |slices| && server(made + k, slices[k]).None?
    && forall j :: 0 <= j < k ==> server(made + j, slices[j]).Some?
  }

  function Greedy(texts: seq<Text>, lo: nat): seq<seq<Text>>
    requires lo <= |texts|
  {
    Slices(texts, Batches(Pieces(texts, lo)))
  }

  lemma AnsweredCons(server: Server, slice: seq<Text>, rest: seq<seq<Text>>, made: nat)
    ensures Answered(server, [slice] + rest, made) <==> server(made, slice).Some? && Answered(server, rest, made + 1)
  {
    var all := [slice] + rest;
    if Answered(server, all, made) {
      assert server(made + 0, all[0]).Some?;
      forall k | 0 <= k < |rest| ensures server(made + 1 + k, rest[k]).Some? {
        assert server(made + (k + 1), all[k + 1]).Some?;
      }
    }
    if server(made, slice).Some? && Answered(server, rest, made + 1) {
      forall k | 0 <= k < |all| ensures server(made + k, all[k]).Some? {
        if k > 0 { assert server(made + 1 + (k - 1), rest[k - 1]).Some?; }
      }
    }
  }

  /** The slices from lo on, one greedy step at a time. */
  lemma GreedyStep(texts: seq<Text>, lo: nat)
    requires lo < |texts|
    ensures |texts[lo]| > MAX_BATCH_SIZE ==> Greedy(texts, lo) == Greedy(texts, lo + 1)
    ensures |texts[lo]| <= MAX_BATCH_SIZE ==>
              var hi := Grow(texts, lo + 1, |texts[lo]|);
              Greedy(texts, lo) == [texts[lo..hi]] + Greedy(texts, hi)
  {
    BatchesStep(texts, lo);
    if |texts[lo]| <= MAX_BATCH_SIZE {
      var hi := Grow(texts, lo + 1, |texts[lo]|);
      SlicesCons(texts, lo, hi, Batches(Pieces(texts, hi)));
    }
  }

  lemma WorkStep(texts: seq<Text>, lo: nat, server: Server, vectors: seq<Slice>, sent: seq<seq<Text>>)
    requires lo < |texts| && Fits(texts, Pieces(texts, lo))
    ensures |texts[lo]| > MAX_BATCH_SIZE ==>
              && Fits(texts, Pieces(texts, lo + 1))
              && Work(texts, Pieces(texts, lo), server, vectors, sent) ==
                 Work(texts, Pieces(texts, lo + 1), server, vectors + [Some([])], sent)
    ensures |texts[lo]| <= MAX_BATCH_SIZE ==>
              var hi := Grow(texts, lo + 1, |texts[lo]|); var reply := server(|sent|, texts[lo..hi]);
              && Fits(texts, Pieces(texts, hi))
              && Work(texts, Pieces(texts, lo), server, vectors, sent) ==
                 if reply.None? then (Err(lo, hi), sent + [texts[lo..hi]])
                 else Work(texts, Pieces(texts, hi), server, vectors + DecodeAll(reply.value), sent + [texts[lo..hi]])
  {
    PiecesFit(texts, if |texts[lo]| > MAX_BATCH_SIZE then lo + 1 else Grow(texts, lo + 1, |texts[lo]|));
    if |texts[lo]| > MAX_BATCH_SIZE {
      assert Pieces(texts, lo)[1..] == Pieces(texts, lo + 1);
    } else {
      assert Pieces(texts, lo)[1..] == Pieces(texts, Grow(texts, lo + 1, |texts[lo]|));
    }
  }

  /** A call succeeds exactly when every greedy slice is answered when its turn comes. Texts that are too long
      never make it fail. */
  lemma {:induction false} OkIffAnswered(
    texts: seq<Text>, lo: nat, server: Server, vectors: seq<Slice>, sent: seq<seq<Text>>)
    requires lo <= |texts| && Fits(texts, Pieces(texts, lo))
    ensures Work(texts, Pieces(texts, lo), server, vectors, sent).0.Ok? <==> Answered(server, Greedy(texts, lo), |sent|)
    decreases |texts| - lo
  {
    if lo < |texts| {
      GreedyStep(texts, lo);
      WorkStep(texts, lo, server, vectors, sent);
      if |texts[lo]| > MAX_BATCH_SIZE {
        OkIffAnswered(texts, lo + 1, server, vectors + [Some([])], sent);
      } else {
        var hi := Grow(texts, lo + 1, |texts[lo]|);
        var reply := server(|sent|, texts[lo..hi]);
        AnsweredCons(server, texts[lo..hi], Greedy(texts, hi), |sent|);
        if reply.Some? {
          OkIffAnswered(texts, hi, server, vectors + DecodeAll(reply.value), sent + [texts[lo..hi]]);
        }
      }
    }
  }

  lemma FirstUnansweredCons(server: Server, slice: seq<Text>, rest: seq<seq<Text>>, made: nat, k: nat)
    requires server(made, slice).Some? && FirstUnanswered(server, rest, made + 1, k)
    ensures FirstUnanswered(server, [slice] + rest, made, k + 1)
  {
    var all := [slice] + rest;
    assert all[k + 1] == rest[k] && made + (k + 1) == made + 1 + k;
    forall j | 0 <= j < k + 1 ensures server(made + j, all[j]).Some? {
      if j > 0 { assert all[j] == rest[j - 1] && made + j == made + 1 + (j - 1); }
    }
  }

  /** Otherwise the error names the first slice that is not answered, and that slice is the last request made. */
  lemma {:induction false} ErrNamesFirst(
    texts: seq<Text>, lo: nat, server: Server, vectors: seq<Slice>, sent: seq<seq<Text>>) returns (k: nat)
    requires lo <= |texts| && Fits(texts, Pieces(texts, lo))
    requires Work(texts, Pieces(texts, lo), server, vectors, sent).0.Err?
    ensures FirstUnanswered(server, Greedy(texts, lo), |sent|, k)
    ensures var (r, requests) := Work(texts, Pieces(texts, lo), server, vectors, sent);
            && r.lo < r.hi <= |texts| && texts[r.lo..r.hi] == Greedy(texts, lo)[k]
            && requests == sent + Greedy(texts, lo)[..k + 1]
    decreases |texts| - lo
  {
    GreedyStep(texts, lo);
    WorkStep(texts, lo, server, vectors, sent);
    if |texts[lo]| > MAX_BATCH_SIZE {
      k := ErrNamesFirst(texts, lo + 1, server, vectors + [Some([])], sent);
    } else {
      var hi := Grow(texts, lo + 1, |texts[lo]|);
      var slice, rest := texts[lo..hi], Greedy(texts, hi);
      var reply := server(|sent|, slice);
      if reply.None? {
        k := 0;
        assert ([slice] + rest)[..1] == [slice];
      } else {
        var j := ErrNamesFirst(texts, hi, server, vectors + DecodeAll(reply.value), sent + [slice]);
        FirstUnansweredCons(server, slice, rest, |sent|, j);
        k := j + 1;
        assert ([slice] + rest)[..j + 2] == [slice] + rest[..j + 1];
        SentStep(sent, slice, rest[..j + 1]);
      }
    }
  }

  /** EmbedBatch succeeds if and only if every greedy slice is answered when its turn comes. Otherwise its error names
      the bounds of the first slice that is not, and that slice is the last request made. A text that is too long
      never makes it fail. */
  lemma EmbedBatchOkIff(texts: seq<Text>, server: Server, sent: seq<seq<Text>>)
    ensures var (r, requests) := Embedded(texts, server, sent); var slices := Greedy(texts, 0);
            && (r.Ok? <==> Answered(server, slices, |sent|))
            && (r.Ok? ==> requests == sent + slices)
            && (r.Err? ==> exists k: nat ::
                  && FirstUnanswered(server, slices, |sent|, k)
                  && r.lo < r.hi <= |texts| && texts[r.lo..r.hi] == slices[k]
                  && requests == sent + slices[..k + 1])
  {
    PiecesFit(texts, 0);
    OkIffAnswered(texts, 0, server, [], sent);
    SentInOrder(texts, 0, server, [], sent);
    if Embedded(texts, server, sent).0.Err? {
      var k := ErrNamesFirst(texts, 0, server, [], sent);
    }
  }

  /** Each slice goes as far as the limit allows: with IsSplit, this leaves no other packing. */
  lemma {:induction false} GreedyIsMaximal(texts: seq<Text>, from: nat, k: nat)
    requires from <= |texts| && k < |Batches(Pieces(texts, from))|
    ensures var (lo, hi) := Batches(Pieces(texts, from))[k];
            lo < hi <= |texts| && (hi < |texts| ==> SizeOf(texts, lo, hi + 1) > MAX_BATCH_SIZE)
    decreases |texts| - from
  {
    BatchesStep(texts, from);
    if |texts[from]| > MAX_BATCH_SIZE {
      GreedyIsMaximal(texts, from + 1, k);
    } else {
      FirstBatch(texts, from);
      if k > 0 {
        GreedyIsMaximal(texts, Grow(texts, from + 1, |texts[from]|), k - 1);
      }
    }
  }
}
