/** Files and texts over a data channel (web/main.ts): each is a header message followed by its data
    in chunks; the receiver tells headers and data apart by how many bytes are still to come. */
module Files {
  import opened Protocol
  import opened Words

  type Bytes = seq<byte>

  const CHUNK := 0x8000
  const BLOB_CHUNK := 0x1_0000
  const TEXT_TYPE := "application/webwormhole-text"

  datatype Header = Header(name: string, filetype: string, size: nat)

  /** The header's JSON text as bytes, and JSON.parse of a message; the latter fails on what is not a
      header. Writing never gives the empty string and reading undoes it. */
  datatype Codec = Codec(enc: Header -> Bytes, dec: Bytes -> Option<Header>)

  ghost predicate CodecOk(c: Codec) {
    forall h: Header {:trigger c.enc(h)} :: |c.enc(h)| > 0 && c.dec(c.enc(h)) == Some(h)
  }

  function Flat(bs: seq<Bytes>): Bytes {
    if |bs| == 0 then [] else bs[0] + Flat(bs[1..])
  }

  lemma {:induction false} FlatConcat(a: seq<Bytes>, b: seq<Bytes>)
    ensures Flat(a + b) == Flat(a) + Flat(b)
  {
    if |a| == 0 {
      assert a + b == b;
    } else {
      FlatConcat(a[1..], b);
      assert (a + b)[0] == a[0] && (a + b)[1..] == a[1..] + b;
      Associate(a[0], Flat(a[1..]), Flat(b));
    }
  }

  // ---- Sending ----

  /** A buffer cut into pieces of n bytes, the last one shorter. */
  function Pieces(buf: Bytes, n: nat): (ps: seq<Bytes>)
    requires n > 0
    ensures forall p | p in ps :: 0 < |p| <= n
  {
    if |buf| == 0 then []
    else if |buf| <= n then [buf]
    else [buf[..n]] + Pieces(buf[n..], n)
  }

  lemma {:induction false} PiecesWhole(buf: Bytes, n: nat)
    requires n > 0
    ensures Flat(Pieces(buf, n)) == buf
    decreases |buf|
  {
    if |buf| > n {
      PiecesWhole(buf[n..], n);
      assert Pieces(buf, n)[1..] == Pieces(buf[n..], n);
      assert buf == buf[..n] + buf[n..];
    } else if |buf| > 0 {
      assert [buf][1..] == [];
    }
  }

  /** Something to send: the header, the data as the stream hands it out, part by part, and whether
      the user sent a text (sendtext) or a file (sendfile). */
  datatype Upload = Upload(header: Header, parts: seq<Bytes>, text: bool)

  function Chunks(parts: seq<Bytes>): (cs: seq<Bytes>)
    ensures forall c | c in cs :: 0 < |c| <= CHUNK
  {
    if |parts| == 0 then [] else Pieces(parts[0], CHUNK) + Chunks(parts[1..])
  }

  function Sends(c: Codec, header: Header, parts: seq<Bytes>): (ms: seq<Bytes>)
    ensures |ms| > 0
  {
    [c.enc(header)] + Chunks(parts)
  }

  function Messages(c: Codec, u: Upload): (ms: seq<Bytes>)
    ensures |ms| > 0
  {
    Sends(c, u.header, u.parts)
  }

  lemma {:induction false} ChunksWhole(parts: seq<Bytes>)
    ensures Flat(Chunks(parts)) == Flat(parts)
  {
    if |parts| > 0 {
      ChunksWhole(parts[1..]);
      PiecesWhole(parts[0], CHUNK);
      FlatConcat(Pieces(parts[0], CHUNK), Chunks(parts[1..]));
    }
  }

  lemma {:induction false} ChunksConcat(a: seq<Bytes>, b: seq<Bytes>)
    ensures Chunks(a + b) == Chunks(a) + Chunks(b)
  {
    if |a| == 0 {
      assert a + b == b;
    } else {
      ChunksConcat(a[1..], b);
      assert (a + b)[1..] == a[1..] + b;
      Associate(Pieces(a[0], CHUNK), Chunks(a[1..]), Chunks(b));
    }
  }

  // ---- Receiving ----

  /** A download in progress: its header and the bytes it has so far. */
  datatype Download = Download(header: Header, got: Bytes)

  /** What the user ends up with. */
  datatype Item = Text(name: string) | File(header: Header, data: Bytes)

  /** The receiver: the download in progress, the finished items, the exceptions thrown. */
  datatype Receiver = Receiver(receiving: Option<Download>, items: seq<Item>, thrown: nat)

  const Idle := Receiver(None, [], 0)

  /** One message. Whether a download is done is only looked at after data. */
  function Receive(c: Codec, r: Receiver, msg: Bytes): Receiver {
    match r.receiving
    case Some(d) =>
      if |d.got| + |msg| > d.header.size then r.(thrown := r.thrown + 1)
      else if |d.got| + |msg| == d.header.size then
        r.(receiving := None, items := r.items + [File(d.header, d.got + msg)])
      else r.(receiving := Some(d.(got := d.got + msg)))
    case None =>
      match c.dec(msg)
      case None => r.(thrown := r.thrown + 1)
      case Some(h) =>
        if h.filetype == TEXT_TYPE then r.(items := r.items + [Text(h.name)])
        else r.(receiving := Some(Download(h, [])))
  }

  function ReceiveAll(c: Codec, r: Receiver, msgs: seq<Bytes>): Receiver
    decreases |msgs|
  {
    if |msgs| == 0 then r else ReceiveAll(c, Receive(c, r, msgs[0]), msgs[1..])
  }

  lemma {:induction false} ReceiveConcat(c: Codec, r: Receiver, a: seq<Bytes>, b: seq<Bytes>)
    ensures ReceiveAll(c, r, a + b) == ReceiveAll(c, ReceiveAll(c, r, a), b)
    decreases |a|
  {
    if |a| == 0 {
      assert a + b == b;
    } else {
      ReceiveConcat(c, Receive(c, r, a[0]), a[1..], b);
      assert (a + b)[1..] == a[1..] + b;
    }
  }

  /** Data in non-empty messages completes a download exactly with its last byte. */
  lemma {:induction false} DataCompletes(c: Codec, r: Receiver, chunks: seq<Bytes>)
    requires r.receiving.Some? && |chunks| > 0 && forall k | k in chunks :: |k| > 0
    requires var d := r.receiving.value; |d.got| + |Flat(chunks)| == d.header.size
    ensures var d := r.receiving.value;
            ReceiveAll(c, r, chunks) == r.(receiving := None, items := r.items + [File(d.header, d.got + Flat(chunks))])
    decreases |chunks|
  {
    var d := r.receiving.value;
    var rest := chunks[1..];
    var next := Receive(c, r, chunks[0]);
    if |rest| == 0 {
      assert Flat(rest) == [];
      assert Flat(chunks) == chunks[0];
    } else {
      assert |Flat(rest)| > 0 by {
        assert rest[0] in chunks;
      }
      DataCompletes(c, next, rest);
      assert d.got + chunks[0] + Flat(rest) == d.got + Flat(chunks);
    }
  }

  // ---- The round trip ----

  /** As sendtext and sendfile make them: the header's size is that of the data; a text has the
      reserved type and no data. */
  predicate UploadOk(u: Upload) {
    && |Flat(u.parts)| == u.header.size
    && (u.text ==> u.header.filetype == TEXT_TYPE && u.header.size == 0)
  }

  function ItemOf(u: Upload): Item {
    if u.text then Text(u.header.name) else File(u.header, Flat(u.parts))
  }

  function AllMessages(c: Codec, us: seq<Upload>): seq<Bytes> {
    if |us| == 0 then [] else Messages(c, us[0]) + AllMessages(c, us[1..])
  }

  function ItemsOf(us: seq<Upload>): (items: seq<Item>)
    ensures |items| == |us|
  {
    seq(|us|, i requires 0 <= i < |us| => ItemOf(us[i]))
  }

  /** Texts, and the files that are not empty and not of the type reserved for texts. */
  predicate Arrives(u: Upload) {
    u.text || (u.header.filetype != TEXT_TYPE && u.header.size > 0)
  }

  lemma EmptyData(u: Upload)
    requires UploadOk(u)
    ensures u.header.size == 0 <==> Chunks(u.parts) == []
  {
    ChunksWhole(u.parts);
    if |Chunks(u.parts)| > 0 {
      assert Chunks(u.parts)[0] in Chunks(u.parts);
    } else {
      assert Flat(Chunks(u.parts)) == [];
    }
  }

  /** One upload, to an idle receiver. */
  lemma OneArrives(c: Codec, r: Receiver, u: Upload)
    requires CodecOk(c) && UploadOk(u) && r.receiving == None && (u.text || u.header.filetype != TEXT_TYPE)
    ensures Arrives(u) ==> ReceiveAll(c, r, Messages(c, u)) == r.(items := r.items + [ItemOf(u)])
    ensures !Arrives(u) ==> ReceiveAll(c, r, Messages(c, u)) == r.(receiving := Some(Download(u.header, [])))
  {
    var ms := Messages(c, u);
    var chunks := Chunks(u.parts);
    assert ms[1..] == chunks;
    EmptyData(u);
    ChunksWhole(u.parts);
    var next := Receive(c, r, ms[0]);
    assert c.enc(u.header) == ms[0];
    if u.header.filetype != TEXT_TYPE && |chunks| > 0 {
      DataCompletes(c, next, chunks);
      assert [] + Flat(chunks) == Flat(u.parts);
    }
  }

  /** A receiver that waits for the data of an empty file takes no further message. */
  lemma {:induction false} StuckOnEmpty(c: Codec, r: Receiver, msgs: seq<Bytes>)
    requires r.receiving.Some? && r.receiving.value.header.size == 0 && r.receiving.value.got == []
    requires forall m | m in msgs :: |m| > 0
    ensures ReceiveAll(c, r, msgs) == r.(thrown := r.thrown + |msgs|)
    decreases |msgs|
  {
    if |msgs| > 0 {
      assert msgs[0] in msgs;
      StuckOnEmpty(c, Receive(c, r, msgs[0]), msgs[1..]);
    }
  }

  lemma {:induction false} AllNonEmpty(c: Codec, us: seq<Upload>)
    requires CodecOk(c)
    ensures forall m | m in AllMessages(c, us) :: |m| > 0
  {
    if |us| > 0 {
      AllNonEmpty(c, us[1..]);
      assert |c.enc(us[0].header)| > 0;
    }
  }

  lemma ItemsCons(items: seq<Item>, us: seq<Upload>)
    requires |us| > 0
    ensures items + [ItemOf(us[0])] + ItemsOf(us[1..]) == items + ItemsOf(us)
  {
  }

  lemma {:induction false} AllArrive(c: Codec, r: Receiver, us: seq<Upload>)
    requires CodecOk(c) && r.receiving == None && forall u | u in us :: UploadOk(u)
    requires forall u | u in us :: u.text || u.header.filetype != TEXT_TYPE
    ensures (forall u | u in us :: Arrives(u)) ==>
              ReceiveAll(c, r, AllMessages(c, us)) == r.(items := r.items + ItemsOf(us))
    ensures (exists u | u in us :: !Arrives(u)) ==>
              ReceiveAll(c, r, AllMessages(c, us)).receiving.Some?
    decreases |us|
  {
    if |us| == 0 {
      assert r.items + ItemsOf(us) == r.items;
    } else {
      var rest := us[1..];
      var mid := ReceiveAll(c, r, Messages(c, us[0]));
      ReceiveConcat(c, r, Messages(c, us[0]), AllMessages(c, rest));
      assert us[0] in us;
      OneArrives(c, r, us[0]);
      if Arrives(us[0]) {
        AllArrive(c, mid, rest);
        ItemsCons(r.items, us);
      } else {
        AllNonEmpty(c, rest);
        StuckOnEmpty(c, mid, AllMessages(c, rest));
      }
    }
  }

  /** A receiver never takes a file of the reserved type for a file. */
  predicate NoReserved(r: Receiver) {
    && (r.receiving.Some? ==> r.receiving.value.header.filetype != TEXT_TYPE)
    && forall i | 0 <= i < |r.items| :: r.items[i].File? ==> r.items[i].header.filetype != TEXT_TYPE
  }

  lemma {:induction false} NeverReserved(c: Codec, r: Receiver, msgs: seq<Bytes>)
    requires NoReserved(r)
    ensures NoReserved(ReceiveAll(c, r, msgs))
    decreases |msgs|
  {
    if |msgs| > 0 {
      NeverReserved(c, Receive(c, r, msgs[0]), msgs[1..]);
    }
  }

  /** Texts and files, in any split into stream reads and chunks, arrive complete, unchanged and in
      order, with nothing left being received, exactly if no file is empty or of the reserved type:
      after the header of an empty file the receiver waits for data that never comes, and the header
      of a file of the reserved type is taken for a text. */
  lemma StreamRoundTrip(c: Codec, us: seq<Upload>)
    requires CodecOk(c) && forall u | u in us :: UploadOk(u)
    ensures ReceiveAll(c, Idle, AllMessages(c, us)) == Receiver(None, ItemsOf(us), 0) <==>
            forall u | u in us :: Arrives(u)
  {
    if u :| u in us && !u.text && u.header.filetype == TEXT_TYPE {
      NeverReserved(c, Idle, AllMessages(c, us));
      ReservedItem(us, u);
    } else {
      AllArrive(c, Idle, us);
      assert [] + ItemsOf(us) == ItemsOf(us);
    }
  }

  lemma ReservedItem(us: seq<Upload>, u: Upload)
    requires u in us && !u.text && u.header.filetype == TEXT_TYPE
    ensures exists i | 0 <= i < |us| :: ItemsOf(us)[i].File? && ItemsOf(us)[i].header.filetype == TEXT_TYPE
  {
    var i :| 0 <= i < |us| && us[i] == u;
    assert ItemsOf(us)[i] == ItemOf(u);
  }

  /** How the data is read makes no difference to what arrives. */
  lemma ReadsDoNotMatter(c: Codec, h: Header, a: seq<Bytes>, b: seq<Bytes>)
    requires CodecOk(c) && h.filetype != TEXT_TYPE && |Flat(a)| == h.size && Flat(a) == Flat(b)
    ensures ReceiveAll(c, Idle, Sends(c, h, a)) == ReceiveAll(c, Idle, Sends(c, h, b))
  {
    OneArrives(c, Idle, Upload(h, a, false));
    OneArrives(c, Idle, Upload(h, b, false));
  }
}
