/** The page's side of a transfer (web/main.ts) as objects that are changed in place: the chunking
    writer, uploads, the two kinds of download and the page's receive function, each proved against
    Files; and what a download posts to the service worker. */
module FilesPage {
  import opened Protocol
  import opened Words
  import opened Files
  import W = ServiceWorker

  // ---- Sending ----

  class Channel {
    var sent: seq<Bytes>

    constructor ()
      ensures sent == []
    {
      sent := [];
    }

    method Send(m: Bytes)
      modifies this
      ensures sent == old(sent) + [m]
    {
      sent := sent + [m];
    }
  }

  class DataChannelWriter {
    const dc: Channel

    constructor (dc: Channel)
      ensures this.dc == dc
    {
      this.dc := dc;
    }

    /** Waiting for the channel's buffer to drain only delays the sends. */
    method Write(buf: Bytes)
      modifies dc
      ensures dc.sent == old(dc.sent) + Pieces(buf, CHUNK)
    {
      var offset := 0;
      assert buf[0..] == buf;
      while offset < |buf|
        invariant 0 <= offset
        invariant dc.sent + Rest(buf, offset, CHUNK) == old(dc.sent) + Pieces(buf, CHUNK)
        decreases |buf| - offset
      {
        var end := offset + CHUNK;
        if end > |buf| {
          end := |buf|;
        }
        RestStep(buf, offset, end, CHUNK, dc.sent);
        dc.Send(buf[offset..end]);
        offset := offset + CHUNK;
      }
    }
  }

  /** The pieces from an offset on. */
  function Rest(buf: Bytes, offset: nat, n: nat): seq<Bytes>
    requires n > 0
  {
    if offset < |buf| then Pieces(buf[offset..], n) else []
  }

  lemma RestStep(buf: Bytes, offset: nat, end: nat, n: nat, before: seq<Bytes>)
    requires n > 0 && offset < |buf| && end == if offset + n > |buf| then |buf| else offset + n
    ensures before + Rest(buf, offset, n) == before + [buf[offset..end]] + Rest(buf, offset + n, n)
    ensures Rest(buf, end, n) == Rest(buf, offset + n, n)
  {
    RestHead(buf, offset, end, n);
    Associate(before, [buf[offset..end]], Rest(buf, offset + n, n));
  }

  lemma RestHead(buf: Bytes, offset: nat, end: nat, n: nat)
    requires n > 0 && offset < |buf| && end == if offset + n > |buf| then |buf| else offset + n
    ensures Rest(buf, offset, n) == [buf[offset..end]] + Rest(buf, offset + n, n)
    ensures Rest(buf, end, n) == Rest(buf, offset + n, n)
  {
    var rest := buf[offset..];
    if |rest| > n {
      assert rest[..n] == buf[offset..end] && rest[n..] == buf[end..];
    } else {
      assert end == |buf| && buf[offset..end] == rest;
    }
  }

  /** The slices of a blob that make up a size, the last one as long as the blob allows. */
  function BlobSlices(blob: Bytes, size: nat, offset: nat): seq<Bytes>
    requires size <= |blob| && offset <= |blob|
    decreases |blob| - offset
  {
    if offset >= size then []
    else
      var end := if offset + BLOB_CHUNK > |blob| then |blob| else offset + BLOB_CHUNK;
      [blob[offset..end]] + BlobSlices(blob, size, end)
  }

  /** They are a beginning of the blob, at least as long as the size; the blob if it has that size. */
  lemma {:induction false} SlicesCover(blob: Bytes, size: nat, offset: nat)
    requires size <= |blob| && offset <= |blob|
    ensures Flat(BlobSlices(blob, size, offset)) <= blob[offset..]
    ensures offset + |Flat(BlobSlices(blob, size, offset))| >= size
    ensures size == |blob| ==> Flat(BlobSlices(blob, size, offset)) == blob[offset..]
    decreases |blob| - offset
  {
    if offset < size {
      var end := if offset + BLOB_CHUNK > |blob| then |blob| else offset + BLOB_CHUNK;
      SlicesCover(blob, size, end);
      assert BlobSlices(blob, size, offset)[1..] == BlobSlices(blob, size, end);
      assert blob[offset..] == blob[offset..end] + blob[end..];
    }
  }

  class UploadTask {
    const header: Header
    /** The reads of the blob's stream, on browsers that have one. */
    const stream: Option<seq<Bytes>>
    const blob: Bytes
    var offset: nat

    constructor (header: Header, stream: Option<seq<Bytes>>, blob: Bytes)
      ensures this.header == header && this.stream == stream && this.blob == blob && offset == 0
    {
      this.header, this.stream, this.blob, offset := header, stream, blob, 0;
    }

    function Parts(): seq<Bytes>
      requires stream.None? ==> header.size <= |blob|
    {
      if stream.Some? then stream.value else BlobSlices(blob, header.size, 0)
    }

    /** send: the header, then the stream's reads or, without a stream, slices of the blob. For a blob
        shorter than its header says the latter would never end. */
    method Send(c: Codec, dc: Channel)
      requires offset == 0 && (stream.None? ==> header.size <= |blob|)
      modifies this, dc
      ensures dc.sent == old(dc.sent) + Sends(c, header, Parts())
      ensures offset == |Flat(Parts())|
    {
      Associate(dc.sent, [c.enc(header)], Chunks(Parts()));
      dc.Send(c.enc(header));
      var writer := new DataChannelWriter(dc);
      if stream.Some? {
        SendStream(writer, stream.value);
      } else {
        SendBlob(writer);
      }
    }

    method SendStream(writer: DataChannelWriter, parts: seq<Bytes>)
      requires offset == 0
      modifies this, writer.dc
      ensures writer.dc.sent == old(writer.dc.sent) + Chunks(parts) && offset == |Flat(parts)|
    {
      ghost var before := writer.dc.sent;
      assert before + [] == before;
      for i := 0 to |parts|
        invariant writer.dc.sent == before + Chunks(parts[..i]) && offset == |Flat(parts[..i])|
      {
        ChunksSnoc(parts, i);
        Associate(before, Chunks(parts[..i]), Pieces(parts[i], CHUNK));
        writer.Write(parts[i]);
        offset := offset + |parts[i]|;
      }
      assert parts[..|parts|] == parts;
    }

    method SendBlob(writer: DataChannelWriter)
      requires offset == 0 && header.size <= |blob|
      modifies this, writer.dc
      ensures var parts := BlobSlices(blob, header.size, 0);
              writer.dc.sent == old(writer.dc.sent) + Chunks(parts) && offset == |Flat(parts)|
    {
      ghost var parts: seq<Bytes> := [];
      ghost var before := writer.dc.sent;
      assert before + [] == before;
      while offset < header.size
        invariant offset <= |blob| && offset == |Flat(parts)|
        invariant writer.dc.sent == before + Chunks(parts)
        invariant parts + BlobSlices(blob, header.size, offset) == BlobSlices(blob, header.size, 0)
        decreases header.size - offset
      {
        var end := offset + BLOB_CHUNK;
        if end > |blob| {
          end := |blob|;
        }
        var slice := blob[offset..end];
        Associate(parts, [slice], BlobSlices(blob, header.size, end));
        ChunksPlus(parts, slice);
        Associate(before, Chunks(parts), Pieces(slice, CHUNK));
        writer.Write(slice);
        parts := parts + [slice];
        offset := end;
      }
      assert parts + [] == parts;
    }
  }

  lemma ChunksPlus(parts: seq<Bytes>, last: Bytes)
    ensures Chunks(parts + [last]) == Chunks(parts) + Pieces(last, CHUNK)
    ensures |Flat(parts + [last])| == |Flat(parts)| + |last|
  {
    var all := parts + [last];
    ChunksSnoc(all, |parts|);
    assert all[..|parts|] == parts && all[..|parts| + 1] == all;
  }

  lemma ChunksSnoc(parts: seq<Bytes>, i: nat)
    requires i < |parts|
    ensures Chunks(parts[..i + 1]) == Chunks(parts[..i]) + Pieces(parts[i], CHUNK)
    ensures Flat(parts[..i + 1]) == Flat(parts[..i]) + parts[i]
  {
    assert parts[..i + 1] == parts[..i] + [parts[i]];
    ChunksConcat(parts[..i], [parts[i]]);
    var last := [parts[i]];
    assert last[1..] == [];
    assert Chunks(last) == Pieces(parts[i], CHUNK) + [];
    W.FlatSnoc(parts, i);
  }

  // ---- What a download posts to the service worker ----

  /** A post with the number of its download. */
  datatype Posted = Posted(id: nat, post: W.Post)

  function Tagged(id: nat, ps: seq<W.Post>): (ts: seq<Posted>)
    ensures |ts| == |ps|
  {
    seq(|ps|, i requires 0 <= i < |ps| => Posted(id, ps[i]))
  }

  /** Whether a message starts a download. */
  predicate Starts(c: Codec, r: Receiver, msg: Bytes) {
    r.receiving.None? && Receive(c, r, msg).receiving.Some?
  }

  /** The posts made for one message, after so many downloads were started. */
  function PostsFor(c: Codec, r: Receiver, started: nat, msg: Bytes): seq<Posted>
    requires r.receiving.Some? ==> started > 0
  {
    match r.receiving
    case Some(d) =>
      var id := started - 1;
      if |d.got| + |msg| > d.header.size then [Posted(id, W.Failure)]
      else [Posted(id, W.Data(msg, |d.got|))] + (if |d.got| + |msg| == d.header.size then [Posted(id, W.End)] else [])
    case None =>
      match Receive(c, r, msg).receiving
      case Some(d) => [Posted(started, W.Metadata(d.header.size))]
      case None => []
  }

  function PostsForAll(c: Codec, r: Receiver, started: nat, msgs: seq<Bytes>): seq<Posted>
    requires r.receiving.Some? ==> started > 0
    decreases |msgs|
  {
    if |msgs| == 0 then []
    else PostsFor(c, r, started, msgs[0]) +
         PostsForAll(c, Receive(c, r, msgs[0]), if Starts(c, r, msgs[0]) then started + 1 else started, msgs[1..])
  }

  lemma {:induction false} DataIsPosted(c: Codec, r: Receiver, started: nat, chunks: seq<Bytes>)
    requires r.receiving.Some? && started > 0 && |chunks| > 0 && forall k | k in chunks :: |k| > 0
    requires var d := r.receiving.value; |d.got| + |Flat(chunks)| == d.header.size
    ensures PostsForAll(c, r, started, chunks) ==
            Tagged(started - 1, W.DataPosts(chunks, |r.receiving.value.got|) + [W.End])
    decreases |chunks|
  {
    var d, rest := r.receiving.value, chunks[1..];
    var next := Receive(c, r, chunks[0]);
    if |rest| == 0 {
      assert Flat(rest) == [];
      assert Flat(chunks) == chunks[0];
      assert W.DataPosts(chunks, |d.got|) == [W.Data(chunks[0], |d.got|)];
      assert PostsForAll(c, next, started, rest) == [];
    } else {
      assert |Flat(rest)| > 0 by {
        assert rest[0] in chunks;
      }
      DataIsPosted(c, next, started, rest);
    }
  }

  lemma HeaderIsPosted(c: Codec, r: Receiver, started: nat, h: Header)
    requires CodecOk(c) && r.receiving == None && h.filetype != TEXT_TYPE
    ensures Receive(c, r, c.enc(h)).receiving == Some(Download(h, [])) && Starts(c, r, c.enc(h))
    ensures PostsFor(c, r, started, c.enc(h)) == [Posted(started, W.Metadata(h.size))]
  {
    assert c.dec(c.enc(h)) == Some(h);
  }

  lemma TaggedScript(id: nat, size: nat, chunks: seq<Bytes>)
    ensures Tagged(id, W.Script(size, chunks)) ==
            [Posted(id, W.Metadata(size))] + Tagged(id, W.DataPosts(chunks, 0) + [W.End])
  {
    var rest := W.DataPosts(chunks, 0) + [W.End];
    assert W.Script(size, chunks) == [W.Metadata(size)] + rest;
  }

  lemma PostsCons(c: Codec, r: Receiver, started: nat, msg: Bytes, rest: seq<Bytes>)
    requires Starts(c, r, msg)
    ensures PostsForAll(c, r, started, [msg] + rest) ==
            PostsFor(c, r, started, msg) + PostsForAll(c, Receive(c, r, msg), started + 1, rest)
  {
    assert ([msg] + rest)[1..] == rest;
  }

  /** A file's download posts the service worker's script for its chunks and nothing else. */
  lemma FileIsPosted(c: Codec, r: Receiver, started: nat, u: Upload)
    requires CodecOk(c) && UploadOk(u) && r.receiving == None
    requires u.header.filetype != TEXT_TYPE && u.header.size > 0
    ensures PostsForAll(c, r, started, Messages(c, u)) == Tagged(started, W.Script(u.header.size, Chunks(u.parts)))
  {
    var m, chunks := c.enc(u.header), Chunks(u.parts);
    EmptyData(u);
    ChunksWhole(u.parts);
    HeaderIsPosted(c, r, started, u.header);
    PostsCons(c, r, started, m, chunks);
    DataIsPosted(c, Receive(c, r, m), started + 1, chunks);
    TaggedScript(started, u.header.size, chunks);
  }

  /** From the sender's file to the browser's response: with the posts of a file's download in any
      interleaving with the GET, the response is the file. */
  lemma FileIsSaved(c: Codec, u: Upload, started: nat, es: seq<W.Event>)
    requires CodecOk(c) && UploadOk(u) && u.header.filetype != TEXT_TYPE && u.header.size > 0
    requires W.IsRun(W.Fresh, es)
    ensures W.After(W.Fresh, es).get == W.Answered
            && Tagged(started, W.Posts(es)) == PostsForAll(c, Idle, started, Messages(c, u)) ==>
              var cell := W.After(W.Fresh, es);
              cell.entry == W.Absent && cell.stream.Some? && cell.stream.value.closed
              && cell.stream.value.enqueued == Flat(u.parts)
  {
    if W.After(W.Fresh, es).get == W.Answered
       && Tagged(started, W.Posts(es)) == PostsForAll(c, Idle, started, Messages(c, u)) {
      FileIsPosted(c, Idle, started, u);
      TaggedInjective(started, W.Posts(es), W.Script(u.header.size, Chunks(u.parts)));
      W.AllDone(es, u.header.size, Chunks(u.parts));
      ChunksWhole(u.parts);
    }
  }

  lemma TaggedInjective(id: nat, ps: seq<W.Post>, qs: seq<W.Post>)
    requires Tagged(id, ps) == Tagged(id, qs)
    ensures ps == qs
  {
    assert |ps| == |qs|;
    forall i | 0 <= i < |ps|
      ensures ps[i] == qs[i]
    {
      assert Tagged(id, ps)[i] == Tagged(id, qs)[i];
    }
  }

  // ---- Receiving ----

  class PostLog {
    var posts: seq<Posted>

    constructor ()
      ensures posts == []
    {
      posts := [];
    }

    method PostMessage(id: nat, post: W.Post)
      modifies this
      ensures posts == old(posts) + [Posted(id, post)]
    {
      posts := posts + [Posted(id, post)];
    }
  }

  class ArrayBufferDownload {
    const header: Header
    const data: array<byte>
    var offset: nat

    constructor (header: Header)
      ensures this.header == header && fresh(data) && data.Length == header.size && offset == 0
    {
      this.header := header;
      data := new byte[header.size];
      offset := 0;
    }

    ghost function Value(): Download
      requires offset <= data.Length
      reads this, data
    {
      Download(header, data[..offset])
    }

    /** receive: what does not fit is refused, the rest copied to its place. */
    method Receive(msg: Bytes) returns (threw: bool)
      requires offset <= data.Length == header.size
      modifies this, data
      ensures threw == (old(offset) + |msg| > header.size)
      ensures offset == old(offset) + (if threw then 0 else |msg|) <= data.Length
      ensures Value().got == if threw then old(Value().got) else old(Value().got) + msg
    {
      if offset + |msg| > header.size {
        return true;
      }
      ghost var got := data[..offset];
      forall i | 0 <= i < |msg| {
        data[offset + i] := msg[i];
      }
      assert data[..offset + |msg|] == got + msg;
      offset := offset + |msg|;
      return false;
    }
  }

  class ServiceWorkerDownload {
    const header: Header
    const id: nat
    const sw: PostLog
    var offset: nat
    /** The bytes passed on, which the page itself does not keep. */
    ghost var got: Bytes

    constructor (sw: PostLog, id: nat, header: Header)
      modifies sw
      ensures this.header == header && this.id == id && this.sw == sw && offset == 0 && got == []
      ensures sw.posts == old(sw.posts) + [Posted(id, W.Metadata(header.size))]
    {
      this.sw, this.id, this.header := sw, id, header;
      offset, got := 0, [];
      new;
      sw.PostMessage(id, W.Metadata(header.size));
    }

    ghost predicate Valid()
      reads this
    {
      offset == |got|
    }

    ghost function Value(): Download
      reads this
    {
      Download(header, got)
    }

    method Receive(msg: Bytes) returns (threw: bool)
      requires Valid()
      modifies this, sw
      ensures Valid() && threw == (old(offset) + |msg| > header.size)
      ensures got == if threw then old(got) else old(got) + msg
      ensures sw.posts == old(sw.posts) +
              (if threw then [Posted(id, W.Failure)]
               else [Posted(id, W.Data(msg, old(offset)))]
                    + (if offset == header.size then [Posted(id, W.End)] else []))
    {
      if offset + |msg| > header.size {
        sw.PostMessage(id, W.Failure);
        return true;
      }
      sw.PostMessage(id, W.Data(msg, offset));
      got := got + msg;
      offset := offset + |msg|;
      if offset == header.size {
        sw.PostMessage(id, W.End);
      }
      return false;
    }
  }

  datatype Receiving = Nothing | InMemory(a: ArrayBufferDownload) | ByWorker(s: ServiceWorkerDownload)

  class Page {
    const codec: Codec
    const serviceworker: Option<PostLog>
    var receiving: Receiving
    /** Texts shown and files saved from memory, in order. */
    var shown: seq<Item>
    var thrown: nat
    var started: nat
    /** The same with the files handed to the service worker. */
    ghost var items: seq<Item>

    constructor (codec: Codec, serviceworker: Option<PostLog>)
      ensures Valid() && State() == Idle && started == 0
      ensures this.codec == codec && this.serviceworker == serviceworker
    {
      this.codec, this.serviceworker := codec, serviceworker;
      receiving, shown, thrown, started, items := Nothing, [], 0, 0, [];
    }

    ghost function Objects(): set<object>
      reads this
    {
      match receiving
      case Nothing => {}
      case InMemory(a) => {a, a.data}
      case ByWorker(s) => {s}
    }

    ghost predicate Valid()
      reads this, Objects()
    {
      && (serviceworker.None? ==> shown == items)
      && (receiving != Nothing ==> started > 0)
      && match receiving
         case Nothing => true
         case InMemory(a) => serviceworker.None? && a.offset <= a.data.Length == a.header.size
         case ByWorker(s) => serviceworker == Some(s.sw) && s.Valid() && s.id == started - 1
    }

    ghost function State(): Receiver
      requires Valid()
      reads this, Objects()
    {
      Receiver(match receiving
               case Nothing => None
               case InMemory(a) => Some(a.Value())
               case ByWorker(s) => Some(s.Value()),
               items, thrown)
    }

    /** receive, the channel's message handler. */
    method OnMessage(msg: Bytes)
      requires Valid()
      requires serviceworker.Some? ==> serviceworker.value !in Objects()
      modifies this, Objects(), if serviceworker.Some? then {serviceworker.value} else {}
      ensures Valid() && fresh(Objects() - old(Objects()))
      ensures State() == Receive(codec, old(State()), msg)
      ensures started == old(started) + if Starts(codec, old(State()), msg) then 1 else 0
      ensures serviceworker.Some? ==>
                serviceworker.value.posts ==
                old(serviceworker.value.posts) + PostsFor(codec, old(State()), old(started), msg)
    {
      match receiving {
        case InMemory(a) => ReceiveInMemory(a, msg);
        case ByWorker(s) => ReceiveByWorker(s, msg);
        case Nothing =>
          var h := codec.dec(msg);
          if h.None? {
            thrown := thrown + 1;
          } else if h.value.filetype == TEXT_TYPE {
            shown := shown + [Text(h.value.name)];
            items := items + [Text(h.value.name)];
          } else {
            match serviceworker {
              case Some(sw) =>
                var d := new ServiceWorkerDownload(sw, started, h.value);
                receiving := ByWorker(d);
              case None =>
                var d := new ArrayBufferDownload(h.value);
                receiving := InMemory(d);
            }
            started := started + 1;
          }
      }
    }

    /** What disconnected() does about a download in progress: it is cancelled, which the service
        worker is told, and forgotten, so the next message is a header again. */
    method Disconnected()
      requires Valid()
      modifies this, if serviceworker.Some? then {serviceworker.value} else {}
      ensures Valid() && started == old(started)
      ensures State() == old(State()).(receiving := None)
      ensures serviceworker.Some? ==>
                serviceworker.value.posts ==
                old(serviceworker.value.posts)
                + if old(State()).receiving.Some? then [Posted(started - 1, W.Failure)] else []
    {
      if receiving.ByWorker? {
        receiving.s.sw.PostMessage(receiving.s.id, W.Failure);
      }
      receiving := Nothing;
    }

    method ReceiveInMemory(a: ArrayBufferDownload, msg: Bytes)
      requires Valid() && receiving == InMemory(a)
      modifies this, a, a.data
      ensures Valid() && started == old(started) && (receiving == Nothing || receiving == InMemory(a))
      ensures State() == Receive(codec, old(State()), msg)
    {
      var threw := a.Receive(msg);
      if threw {
        thrown := thrown + 1;
      } else if a.offset == a.header.size {
        shown := shown + [File(a.header, a.data[..])];
        items := items + [File(a.header, a.data[..])];
        assert a.data[..] == a.data[..a.offset];
        receiving := Nothing;
      }
    }

    method ReceiveByWorker(s: ServiceWorkerDownload, msg: Bytes)
      requires Valid() && receiving == ByWorker(s)
      modifies this, s, s.sw
      ensures Valid() && started == old(started) && (receiving == Nothing || receiving == ByWorker(s))
      ensures State() == Receive(codec, old(State()), msg)
      ensures s.sw.posts == old(s.sw.posts) + PostsFor(codec, old(State()), old(started), msg)
    {
      var threw := s.Receive(msg);
      if threw {
        thrown := thrown + 1;
      } else if s.offset == s.header.size {
        items := items + [File(s.header, s.got)];
        receiving := Nothing;
      }
    }
  }
}
