/** The download service worker (web/sw.ts): the page posts a download's metadata, its data and its
    end, the browser asks for it with one GET, and neither knows when the other comes. What follows
    is about one download id; the handlers touch nothing of another. */
module ServiceWorker {
  import opened Protocol
  import opened Words
  import opened Files

  /** A Stream object: how much it got, what it has enqueued for the response, and the two flags by
      which the handlers of the end and of the GET find out which of them is the second. */
  datatype Stream = Stream(size: nat, offset: nat, enqueued: Bytes, closed: bool,
                           requestHandled: bool, streamHandled: bool)

  /** What streams.get(id) finds: nothing, the two functions of a promise, or the stream. */
  datatype Entry = Absent | Promised | Registered

  /** The GET: not yet come, awaiting the metadata, its promise resolved, answered with the stream. */
  datatype Get = Unasked | Awaiting | Resolved | Answered

  datatype Cell = Cell(entry: Entry, get: Get, stream: Option<Stream>)

  const Fresh := Cell(Absent, Unasked, None)

  datatype Post = Metadata(size: nat) | Data(data: Bytes, offset: nat) | End | Failure

  datatype Event = Posted(post: Post) | Fetch | Resume

  /** Resume is the rest of streamDownload after its await, which may come as late as it likes. */
  predicate Enabled(c: Cell, e: Event) {
    match e
    case Posted(_) => true
    case Fetch => c.get == Unasked
    case Resume => c.get == Resolved && c.stream.Some?
  }

  /** The part of streamDownload that has the stream. */
  function Answer(c: Cell): Cell
    requires c.stream.Some?
  {
    if c.stream.value.streamHandled then c.(entry := Absent, get := Answered)
    else c.(get := Answered, stream := Some(c.stream.value.(requestHandled := true)))
  }

  /** The handler throws: without an entry, at what a promise cannot do, or at a closed stream. */
  predicate Throws(c: Cell, p: Post) {
    match p
    case Metadata(_) => c.entry == Registered
    case Data(_, offset) =>
      c.entry == Absent || (HasStream(c) && c.stream.value.offset == offset && c.stream.value.closed)
    case End => !HasStream(c) || c.stream.value.closed
    case Failure => !HasStream(c)
  }

  predicate HasStream(c: Cell) {
    c.entry == Registered && c.stream.Some?
  }

  /** What throws changes nothing. Data for a promise is taken to be out of order, so the promise is
      forgotten and nothing will resolve it. */
  function Handle(c: Cell, p: Post): Cell {
    if Throws(c, p) then c
    else
      match p
      case Metadata(size) =>
        c.(entry := Registered, stream := Some(Stream(size, 0, [], false, false, false)),
           get := if c.entry == Promised then Resolved else c.get)
      case Data(data, offset) =>
        if !HasStream(c) || offset != c.stream.value.offset then c.(entry := Absent)
        else
          var s := c.stream.value;
          c.(stream := Some(s.(offset := s.offset + |data|, enqueued := s.enqueued + data)))
      case End =>
        var s := c.stream.value;
        if s.requestHandled then c.(entry := Absent, stream := Some(s.(closed := true)))
        else c.(stream := Some(s.(closed := true, streamHandled := true)))
      case Failure => c
  }

  function Apply(c: Cell, e: Event): Cell
    requires Enabled(c, e)
  {
    match e
    case Fetch =>
      if HasStream(c) then Answer(c)
      else c.(entry := Promised, get := Awaiting)
    case Resume => Answer(c)
    case Posted(p) => Handle(c, p)
  }

  predicate IsRun(c: Cell, es: seq<Event>)
    decreases |es|
  {
    |es| > 0 ==> Enabled(c, es[0]) && IsRun(Apply(c, es[0]), es[1..])
  }

  function After(c: Cell, es: seq<Event>): Cell
    requires IsRun(c, es)
    decreases |es|
  {
    if |es| == 0 then c else After(Apply(c, es[0]), es[1..])
  }

  /** A GET whose promise is forgotten is never answered. */
  lemma {:induction false} ForgottenForGood(c: Cell, es: seq<Event>)
    requires IsRun(c, es) && c.get == Awaiting && c.entry != Promised
    ensures After(c, es).get == Awaiting
    decreases |es|
  {
    if |es| > 0 {
      ForgottenForGood(Apply(c, es[0]), es[1..]);
    }
  }

  /** The messages of a run, without the request's part. */
  function Posts(es: seq<Event>): (ps: seq<Post>) {
    if |es| == 0 then []
    else (if es[0].Posted? then [es[0].post] else []) + Posts(es[1..])
  }

  /** What a page posts for a download: the metadata, the chunks with their offsets, the end. */
  function DataPosts(chunks: seq<Bytes>, offset: nat): (ps: seq<Post>)
    ensures |ps| == |chunks|
  {
    if |chunks| == 0 then [] else [Data(chunks[0], offset)] + DataPosts(chunks[1..], offset + |chunks[0]|)
  }

  function Script(size: nat, chunks: seq<Bytes>): (ps: seq<Post>)
    ensures |ps| == |chunks| + 2
  {
    [Metadata(size)] + DataPosts(chunks, 0) + [End]
  }

  lemma {:induction false} DataPostAt(chunks: seq<Bytes>, offset: nat, i: nat)
    requires i < |chunks|
    ensures DataPosts(chunks, offset)[i] == Data(chunks[i], offset + |Flat(chunks[..i])|)
  {
    if i > 0 {
      DataPostAt(chunks[1..], offset + |chunks[0]|, i - 1);
      assert chunks[..i][1..] == chunks[1..][..i - 1];
    }
  }

  lemma FlatSnoc(chunks: seq<Bytes>, i: nat)
    requires i < |chunks|
    ensures Flat(chunks[..i + 1]) == Flat(chunks[..i]) + chunks[i]
  {
    assert chunks[..i + 1] == chunks[..i] + [chunks[i]];
    FlatConcat(chunks[..i], [chunks[i]]);
    assert Flat([chunks[i]][1..]) == [];
    assert Flat([chunks[i]]) == chunks[i];
  }

  /** After n of the script's messages: before the metadata there is at most the promise of an early
      GET; after it the stream has enqueued exactly the data so far, in order, it is closed exactly
      after the end, and its entry is gone exactly when the end and the GET are both handled. */
  predicate CellOk(c: Cell, size: nat, chunks: seq<Bytes>, n: nat)
    requires n <= |chunks| + 2
  {
    if n == 0 then
      && c.stream == None && (c.get == Unasked || c.get == Awaiting)
      && (c.entry == if c.get == Awaiting then Promised else Absent)
    else
      var d := if n <= |chunks| + 1 then n - 1 else |chunks|;
      && c.stream.Some? && c.get != Awaiting
      && c.stream.value.size == size
      && c.stream.value.enqueued == Flat(chunks[..d])
      && c.stream.value.offset == |Flat(chunks[..d])|
      && c.stream.value.closed == (n == |chunks| + 2)
      && (c.entry == if n == |chunks| + 2 && c.get == Answered then Absent else Registered)
      && (c.entry == Registered ==> c.stream.value.requestHandled == (c.get == Answered))
      && (c.entry == Registered ==> c.stream.value.streamHandled == (n == |chunks| + 2))
  }

  lemma PostKeeps(c: Cell, size: nat, chunks: seq<Bytes>, n: nat)
    requires n < |chunks| + 2 && CellOk(c, size, chunks, n)
    ensures CellOk(Apply(c, Posted(Script(size, chunks)[n])), size, chunks, n + 1)
  {
    if n == 0 {
      assert chunks[..0] == [];
    } else if n <= |chunks| {
      assert Script(size, chunks)[n] == DataPosts(chunks, 0)[n - 1];
      DataPostAt(chunks, 0, n - 1);
      FlatSnoc(chunks, n - 1);
    } else {
      assert Script(size, chunks)[n] == End;
    }
  }

  lemma {:induction false} RunKeeps(c: Cell, es: seq<Event>, size: nat, chunks: seq<Bytes>, n: nat)
    requires n <= |chunks| + 2 && CellOk(c, size, chunks, n) && IsRun(c, es)
    requires Posts(es) <= Script(size, chunks)[n..]
    ensures n + |Posts(es)| <= |chunks| + 2 && CellOk(After(c, es), size, chunks, n + |Posts(es)|)
    decreases |es|
  {
    if |es| > 0 {
      var d := Apply(c, es[0]);
      if es[0].Posted? {
        PostKeeps(c, size, chunks, n);
        RunKeeps(d, es[1..], size, chunks, n + 1);
      } else {
        RunKeeps(d, es[1..], size, chunks, n);
      }
    }
  }

  /** In every interleaving of the page's messages with one GET and the resumption of its await: the
      stream has the data so far in order and nothing else, is closed exactly by the end, and once
      registered its entry is deleted precisely when both the end and the GET have been handled. */
  lemma StreamGetsData(es: seq<Event>, size: nat, chunks: seq<Bytes>)
    requires IsRun(Fresh, es) && Posts(es) <= Script(size, chunks)
    ensures var c, n := After(Fresh, es), |Posts(es)|;
            && (c.stream.Some? <==> n > 0)
            && (n > 0 ==> c.stream.value.enqueued == Flat(chunks[..if n <= |chunks| + 1 then n - 1 else |chunks|]))
            && (n > 0 ==> (c.stream.value.closed <==> n == |chunks| + 2))
            && (n > 0 ==> (c.entry == Absent <==> n == |chunks| + 2 && c.get == Answered))
            && (n > 0 ==> c.entry != Promised)
  {
    assert Script(size, chunks)[0..] == Script(size, chunks);
    RunKeeps(Fresh, es, size, chunks, 0);
  }

  /** With everything posted and the GET answered, the response is the whole file and no entry is
      left behind. */
  lemma AllDone(es: seq<Event>, size: nat, chunks: seq<Bytes>)
    requires IsRun(Fresh, es) && Posts(es) == Script(size, chunks) && After(Fresh, es).get == Answered
    ensures var c := After(Fresh, es);
            c.entry == Absent && c.stream.Some? && c.stream.value.closed && c.stream.value.enqueued == Flat(chunks)
  {
    StreamGetsData(es, size, chunks);
    assert chunks[..|chunks|] == chunks;
  }
}
