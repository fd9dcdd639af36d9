/** The tunnel's wire codec (wormhole/tunnel/protocol.go): one record carries a type byte, a
    64-bit connection id, a 32-bit payload length, both big-endian, and the payload. */
module Protocol {
  type byte = b: nat | b < 256

  const MSG_OPEN: byte := 0x01
  const MSG_DATA: byte := 0x02
  const MSG_CLOSE: byte := 0x03
  const HEADER_SIZE := 1 + 8 + 4
  const TWO_32: nat := 0x1_0000_0000
  const TWO_64: nat := 0x1_0000_0000_0000_0000

  datatype Message = Message(kind: byte, connID: nat, payload: seq<byte>)

  datatype Error = TooShort(have: nat) | Incomplete(size: nat, need: nat) | UnknownType(tag: byte)

  datatype Result = Ok(msg: Message) | Err(error: Error)

  predicate KnownKind(kind: byte) {
    kind == MSG_OPEN || kind == MSG_DATA || kind == MSG_CLOSE
  }

  // ---- Big-endian numbers ----

  function Pow256(n: nat): (p: nat)
    ensures p > 0
  {
    if n == 0 then 1 else 256 * Pow256(n - 1)
  }

  /** The number a byte string denotes, most significant byte first. */
  function Uint(bs: seq<byte>): nat {
    if |bs| == 0 then 0 else Uint(bs[..|bs| - 1]) * 256 + bs[|bs| - 1]
  }

  /** The n low-order bytes of v, most significant first. */
  function BigEndian(v: nat, n: nat): (bs: seq<byte>)
    ensures |bs| == n
  {
    if n == 0 then [] else BigEndian(v / 256, n - 1) + [v % 256]
  }

  lemma {:induction false} UintBound(bs: seq<byte>)
    ensures Uint(bs) < Pow256(|bs|)
  {
    if |bs| > 0 {
      UintBound(bs[..|bs| - 1]);
    }
  }

  lemma DivModStep(v: nat, p: nat)
    requires p > 0
    ensures v % (256 * p) == (v / 256) % p * 256 + v % 256
  {
    var q, r := v / 256, v % 256;
    var k, s := q / p, q % p;
    assert v == 256 * q + r && q == p * k + s;
    assert v == (256 * p) * k + (256 * s + r) by {
      assert 256 * (p * k) == (256 * p) * k;
    }
    assert 0 <= 256 * s + r < 256 * p;
    ModUnique(v, 256 * p, k, 256 * s + r);
  }

  lemma ModUnique(v: nat, d: nat, k: nat, r: nat)
    requires d > 0 && r < d && v == d * k + r
    ensures v % d == r
  {
    var k', r' := v / d, v % d;
    assert v == d * k' + r';
    assert k' < k ==> d * k >= d * (k' + 1);
    assert k' > k ==> d * k' >= d * (k + 1);
  }

  /** Writing a number in n bytes and reading it back keeps it modulo 256^n. */
  lemma {:induction false} UintOfBigEndian(v: nat, n: nat)
    ensures Uint(BigEndian(v, n)) == v % Pow256(n)
  {
    if n > 0 {
      UintOfBigEndian(v / 256, n - 1);
      DivModStep(v, Pow256(n - 1));
      var bs := BigEndian(v, n);
      assert bs[..|bs| - 1] == BigEndian(v / 256, n - 1);
    }
  }

  /** Reading n bytes and writing the number again gives the same bytes. */
  lemma {:induction false} BigEndianOfUint(bs: seq<byte>)
    ensures BigEndian(Uint(bs), |bs|) == bs
  {
    if |bs| > 0 {
      BigEndianOfUint(bs[..|bs| - 1]);
      assert Uint(bs) / 256 == Uint(bs[..|bs| - 1]);
      assert bs == bs[..|bs| - 1] + [bs[|bs| - 1]];
    }
  }

  lemma Powers()
    ensures Pow256(4) == TWO_32 && Pow256(8) == TWO_64
  {
    assert Pow256(2) == 65536;
    assert Pow256(4) == 65536 * 65536;
    assert Pow256(6) == 65536 * 65536 * 65536;
    assert Pow256(8) == 65536 * 65536 * 65536 * 65536;
  }

  // ---- Frames ----

  /** The record of a message; the length field keeps only the low 32 bits of the length. */
  function Frame(m: Message): (raw: seq<byte>)
    ensures |raw| == HEADER_SIZE + |m.payload|
  {
    [m.kind] + BigEndian(m.connID, 8) + BigEndian(|m.payload|, 4) + m.payload
  }

  /** What a message turns into on its way through a record: the payload is cut to its length
      modulo 2^32. */
  function OnWire(m: Message): (w: Message)
    ensures |m.payload| < TWO_32 ==> w == m
  {
    m.(payload := m.payload[..|m.payload| % TWO_32])
  }

  /** A message that a record can carry unchanged. */
  predicate Carried(m: Message) {
    KnownKind(m.kind) && m.connID < TWO_64 && |m.payload| < TWO_32
  }

  /** Big-endian store into a buffer, as binary.BigEndian.PutUint64 and PutUint32 do. */
  method PutUint(buf: array<byte>, off: nat, n: nat, v: nat)
    requires off + n <= buf.Length
    modifies buf
    ensures buf[..] == old(buf[..off]) + BigEndian(v, n) + old(buf[off + n..])
  {
    var k, rest := n, v;
    while k > 0
      invariant 0 <= k <= n
      invariant buf[..off] == old(buf[..off]) && buf[off + n..] == old(buf[off + n..])
      invariant BigEndian(v, n) == BigEndian(rest, k) + buf[off + k..off + n]
    {
      k := k - 1;
      buf[off + k] := rest % 256;
      assert buf[off + k..off + n] == [rest % 256] + buf[off + k + 1..off + n];
      rest := rest / 256;
    }
    assert buf[..] == buf[..off] + buf[off..off + n] + buf[off + n..];
  }

  /** encodeMsg: allocate, fill the header in place, copy the payload. */
  method EncodeMsg(kind: byte, connID: nat, payload: seq<byte>) returns (buf: array<byte>)
    requires connID < TWO_64
    ensures fresh(buf) && buf[..] == Frame(Message(kind, connID, payload))
  {
    buf := new byte[HEADER_SIZE + |payload|];
    buf[0] := kind;
    PutUint(buf, 1, 8, connID);
    assert buf[..9] == [kind] + BigEndian(connID, 8);
    PutUint(buf, 9, 4, |payload|);
    assert buf[..13] == [kind] + BigEndian(connID, 8) + BigEndian(|payload|, 4);
    forall i | 0 <= i < |payload| {
      buf[HEADER_SIZE + i] := payload[i];
    }
    assert buf[..13] == [kind] + BigEndian(connID, 8) + BigEndian(|payload|, 4);
    assert buf[13..] == payload;
    assert buf[..] == buf[..13] + buf[13..];
  }

  /** The parse of a record, with the source's order of checks. */
  function Parse(raw: seq<byte>): Result {
    if |raw| < HEADER_SIZE then Err(TooShort(|raw|))
    else
      var n := Uint(raw[9..13]);
      if |raw| < HEADER_SIZE + n then Err(Incomplete(|raw|, HEADER_SIZE + n))
      else if !KnownKind(raw[0]) then Err(UnknownType(raw[0]))
      else Ok(Message(raw[0], Uint(raw[1..9]), raw[HEADER_SIZE..HEADER_SIZE + n]))
  }

  /** Decode accepts exactly the records that start with the frame of a carried message. */
  method Decode(raw: array<byte>) returns (r: Result)
    ensures r == Parse(raw[..])
    ensures r.Ok? ==> Carried(r.msg) && Frame(r.msg) <= raw[..]
    ensures r.Err? ==> forall m | Carried(m) :: !(Frame(m) <= raw[..])
  {
    ParseExact(raw[..]);
    if raw.Length < HEADER_SIZE {
      return Err(TooShort(raw.Length));
    }
    var n := Uint(raw[9..13]);
    assert raw[..][9..13] == raw[9..13] && raw[..][1..9] == raw[1..9];
    if raw.Length < HEADER_SIZE + n {
      return Err(Incomplete(raw.Length, HEADER_SIZE + n));
    }
    var payload := raw[HEADER_SIZE..HEADER_SIZE + n];
    if !KnownKind(raw[0]) {
      return Err(UnknownType(raw[0]));
    }
    assert payload == raw[..][HEADER_SIZE..HEADER_SIZE + n];
    return Ok(Message(raw[0], Uint(raw[1..9]), payload));
  }

  lemma Slices(a: seq<byte>, b: seq<byte>, c: seq<byte>, d: seq<byte>, raw: seq<byte>)
    requires |a| == 1 && |b| == 8 && |c| == 4 && raw == a + b + c + d
    ensures raw[0] == a[0] && raw[1..9] == b && raw[9..13] == c && raw[13..] == d
  {
  }

  lemma FieldRoundTrips(id: nat, n: nat)
    requires id < TWO_64
    ensures Uint(BigEndian(id, 8)) == id && Uint(BigEndian(n, 4)) == n % TWO_32
  {
    UintOfBigEndian(id, 8);
    UintOfBigEndian(n, 4);
    Powers();
  }

  /** Where the header fields and the payload of a framed message are found again. */
  lemma FrameParts(m: Message, x: seq<byte>, raw: seq<byte>)
    requires m.connID < TWO_64 && raw == Frame(m) + x
    ensures raw[0] == m.kind && Uint(raw[1..9]) == m.connID
    ensures Uint(raw[9..13]) == |m.payload| % TWO_32 && raw[13..] == m.payload + x
  {
    var b, c := BigEndian(m.connID, 8), BigEndian(|m.payload|, 4);
    assert raw == [m.kind] + b + c + (m.payload + x);
    Slices([m.kind], b, c, m.payload + x, raw);
    FieldRoundTrips(m.connID, |m.payload|);
  }

  /** Decode after encodeMsg, also with more bytes behind the record: the payload comes back cut
      to its length modulo 2^32, so it is exact below 2^32. */
  lemma RoundTrip(m: Message, x: seq<byte>)
    requires KnownKind(m.kind) && m.connID < TWO_64
    ensures Parse(Frame(m) + x) == Ok(OnWire(m))
  {
    var raw := Frame(m) + x;
    FrameParts(m, x, raw);
    var n := |m.payload| % TWO_32;
    assert raw[13..13 + n] == raw[13..][..n] == m.payload[..n];
  }

  /** A record that decodes starts with the frame of its message, and more bytes behind it change
      nothing. */
  lemma ParseIsPrefix(raw: seq<byte>, x: seq<byte>)
    requires Parse(raw).Ok?
    ensures Carried(Parse(raw).msg) && Frame(Parse(raw).msg) <= raw
    ensures Parse(raw + x) == Parse(raw)
  {
    var m := Parse(raw).msg;
    var n := Uint(raw[9..13]);
    UintBound(raw[1..9]);
    UintBound(raw[9..13]);
    Powers();
    BigEndianOfUint(raw[1..9]);
    BigEndianOfUint(raw[9..13]);
    assert raw[..13] == [raw[0]] + raw[1..9] + raw[9..13];
    assert raw[..13 + n] == raw[..13] + raw[13..13 + n];
    assert (raw + x)[1..9] == raw[1..9] && (raw + x)[9..13] == raw[9..13];
    assert (raw + x)[13..13 + n] == raw[13..13 + n];
  }

  /** A record decodes exactly when it starts with the frame of some carried message. */
  lemma ParseExact(raw: seq<byte>)
    ensures Parse(raw).Ok? ==> Carried(Parse(raw).msg) && Frame(Parse(raw).msg) <= raw
    ensures Parse(raw).Err? ==> forall m | Carried(m) :: !(Frame(m) <= raw)
  {
    if Parse(raw).Ok? {
      ParseIsPrefix(raw, []);
    } else {
      forall m | Carried(m) && Frame(m) <= raw
        ensures false
      {
        assert raw == Frame(m) + raw[|Frame(m)|..];
        RoundTrip(m, raw[|Frame(m)|..]);
      }
    }
  }
}
