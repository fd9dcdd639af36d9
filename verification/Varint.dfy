/** The slot's varint (wordlist/wordlist.go, by way of encoding/binary): unsigned LEB128, section
    7.6 of DWARF 5. Seven bits a byte, least significant group first, high bit set on all but the
    last byte. */
module Varint {
  import opened Protocol

  const MAX_LEN := 10   // binary.MaxVarintLen64

  function Pow128(n: nat): (p: nat)
    ensures p > 0
  {
    if n == 0 then 1 else 128 * Pow128(n - 1)
  }

  /** The LEB128 bytes of a number. */
  function Leb(x: nat): (bs: seq<byte>)
    ensures |bs| > 0
  {
    if x < 128 then [x] else [x % 128 + 128] + Leb(x / 128)
  }

  /** The number a byte string denotes, seven bits a byte. */
  function Value(bs: seq<byte>): nat {
    if |bs| == 0 then 0 else bs[0] % 128 + 128 * Value(bs[1..])
  }

  /** How many bytes with the high bit set a buffer starts with. */
  function Lead(buf: seq<byte>): (n: nat)
    ensures n <= |buf|
    ensures n < |buf| ==> buf[n] < 128
    ensures forall i | 0 <= i < n :: buf[i] >= 128
  {
    if |buf| == 0 || buf[0] < 128 then 0 else 1 + Lead(buf[1..])
  }

  /** Uvarint's two results: the value and the number of bytes read; 0 bytes if the buffer ends too
      early, minus the bytes looked at if the value overflows 64 bits. */
  datatype Read = Read(value: nat, n: int)

  function Uvarint(buf: seq<byte>): Read {
    var k := Lead(buf);
    if k < |buf| && (k < MAX_LEN - 1 || (k == MAX_LEN - 1 && buf[k] <= 1)) then Read(Value(buf[..k + 1]), k + 1)
    else if k < |buf| && k == MAX_LEN - 1 then Read(0, -MAX_LEN)
    else if k == |buf| && |buf| <= MAX_LEN then Read(0, 0)
    else Read(0, -(MAX_LEN + 1))
  }

  // ---- Arithmetic ----

  lemma {:induction false} LebShape(x: nat)
    ensures Lead(Leb(x)) == |Leb(x)| - 1 && Value(Leb(x)) == x
    ensures |Leb(x)| > 1 ==> Leb(x)[|Leb(x)| - 1] != 0
  {
    if x >= 128 {
      LebShape(x / 128);
      assert Leb(x)[1..] == Leb(x / 128);
    }
  }

  lemma {:induction false} LebLength(x: nat, k: nat)
    requires k > 0 && x < Pow128(k)
    ensures |Leb(x)| <= k && (|Leb(x)| == k ==> Leb(x)[k - 1] == x / Pow128(k - 1))
  {
    if k == 1 {
      assert Pow128(0) == 1;
    } else if x >= 128 {
      assert x / 128 < Pow128(k - 1);
      LebLength(x / 128, k - 1);
      DivDiv(x, Pow128(k - 2));
    }
  }

  lemma DivDiv(x: nat, p: nat)
    requires p > 0
    ensures (x / 128) / p == x / (128 * p)
  {
    var q, r := x / 128, x % 128;
    var k, s := q / p, q % p;
    assert x == (128 * p) * k + (128 * s + r) by {
      assert 128 * (p * k) == (128 * p) * k;
    }
    DivUnique(x, 128 * p, k, 128 * s + r);
  }

  lemma DivUnique(v: nat, d: nat, k: nat, r: nat)
    requires d > 0 && r < d && v == d * k + r
    ensures v / d == k
  {
    ModUnique(v, d, k, r);
    var q := v / d;
    assert v == d * q + r;
    assert d * (q - k) == 0;
  }

  lemma Pow128Values()
    ensures Pow128(9) == 0x8000_0000_0000_0000 && TWO_64 == 2 * Pow128(9) && TWO_64 < Pow128(10)
  {
    assert Pow128(3) == 0x20_0000;
    assert Pow128(6) == 0x20_0000 * 0x20_0000;
    assert Pow128(9) == 0x20_0000 * 0x20_0000 * 0x20_0000;
  }

  lemma {:induction false} ValueBound(bs: seq<byte>)
    ensures Value(bs) < Pow128(|bs|)
  {
    if |bs| > 0 {
      ValueBound(bs[1..]);
    }
  }

  lemma {:induction false} ValueSnoc(bs: seq<byte>, b: byte)
    ensures Value(bs + [b]) == Value(bs) + (b % 128) * Pow128(|bs|)
  {
    if |bs| > 0 {
      ValueSnoc(bs[1..], b);
      assert (bs + [b])[1..] == bs[1..] + [b];
      var p := Pow128(|bs| - 1);
      assert 128 * ((b % 128) * p) == (b % 128) * (128 * p);
    } else {
      assert [b][1..] == [];
      assert bs + [b] == [b];
    }
  }

  lemma {:induction false} LeadOfConcat(a: seq<byte>, b: seq<byte>)
    requires Lead(a) < |a|
    ensures Lead(a + b) == Lead(a)
  {
    if a[0] >= 128 {
      LeadOfConcat(a[1..], b);
      assert (a + b)[1..] == a[1..] + b;
    }
  }

  // ---- The codec's laws ----

  /** Uvarint reads back what PutUvarint wrote, whatever bytes follow, and reads just that. */
  lemma RoundTrip(x: nat, rest: seq<byte>)
    requires x < TWO_64
    ensures |Leb(x)| <= MAX_LEN && Uvarint(Leb(x) + rest) == Read(x, |Leb(x)|)
  {
    LebShape(x);
    Pow128Values();
    LebLength(x, MAX_LEN);
    LeadOfConcat(Leb(x), rest);
    assert (Leb(x) + rest)[..|Leb(x)|] == Leb(x);
    if |Leb(x)| == MAX_LEN {
      assert x / Pow128(9) <= 1 by {
        DivUnique(x, Pow128(9), if x < Pow128(9) then 0 else 1, if x < Pow128(9) then x else x - Pow128(9));
      }
    }
  }

  /** An accepted varint is at most ten bytes long and its value fits 64 bits. */
  lemma AcceptedFits(buf: seq<byte>)
    requires Uvarint(buf).n > 0
    ensures Uvarint(buf).n <= |buf| && Uvarint(buf).n <= MAX_LEN && Uvarint(buf).value < TWO_64
    ensures Uvarint(buf).value == Value(buf[..Uvarint(buf).n])
  {
    var k := Lead(buf);
    Pow128Values();
    if k < MAX_LEN - 1 {
      ValueBound(buf[..k + 1]);
      PowGrows(k + 1, 9);
    } else {
      assert buf[..k + 1] == buf[..k] + [buf[k]];
      ValueSnoc(buf[..k], buf[k]);
      ValueBound(buf[..k]);
      assert buf[k] % 128 == 0 || buf[k] % 128 == 1;
    }
  }

  lemma {:induction false} PowGrows(a: nat, b: nat)
    requires a <= b
    ensures Pow128(a) <= Pow128(b)
  {
    if a < b {
      PowGrows(a, b - 1);
    }
  }

  /** An encoding of several bytes is the shortest one when its last byte is not zero. */
  predicate Minimal(bs: seq<byte>) {
    |bs| == 1 || (|bs| > 1 && bs[|bs| - 1] != 0)
  }

  lemma MinimalIsLeb(bs: seq<byte>)
    requires |bs| > 0 && Lead(bs) == |bs| - 1
    ensures Minimal(bs) <==> bs == Leb(Value(bs))
  {
    if Minimal(bs) {
      LebOfMinimal(bs);
    } else {
      LebIsMinimal(Value(bs));
    }
  }

  lemma LebIsMinimal(x: nat)
    ensures Minimal(Leb(x))
  {
    LebShape(x);
  }

  lemma {:induction false} LebOfMinimal(bs: seq<byte>)
    requires |bs| > 0 && Lead(bs) == |bs| - 1 && Minimal(bs)
    ensures bs == Leb(Value(bs))
  {
    if |bs| == 1 {
      assert Value(bs[1..]) == 0;
      assert bs == [bs[0]];
    } else {
      FirstGroup(bs);
      LebOfMinimal(bs[1..]);
      assert bs == [bs[0]] + bs[1..];
    }
  }

  lemma FirstGroup(bs: seq<byte>)
    requires |bs| > 1 && Lead(bs) == |bs| - 1 && Minimal(bs)
    ensures bs[0] >= 128 && Lead(bs[1..]) == |bs[1..]| - 1 && Minimal(bs[1..])
    ensures Value(bs) == bs[0] % 128 + 128 * Value(bs[1..]) && Value(bs[1..]) > 0
  {
    NonZero(bs[1..]);
  }

  lemma {:induction false} NonZero(bs: seq<byte>)
    requires |bs| > 0 && Lead(bs) == |bs| - 1 && bs[|bs| - 1] != 0
    ensures Value(bs) > 0
  {
    if |bs| > 1 {
      NonZero(bs[1..]);
    }
  }

  // ---- The loops ----

  /** binary.PutUvarint: the bytes go to the front of the buffer, the rest of it stays. */
  method PutUvarint(buf: array<byte>, x: nat) returns (n: nat)
    requires x < TWO_64 && buf.Length >= MAX_LEN
    modifies buf
    ensures n == |Leb(x)| <= MAX_LEN
    ensures buf[..n] == Leb(x) && buf[n..] == old(buf[n..])
  {
    LebFits(x);
    ghost var orig := buf[..];
    var i: nat, rest: nat := 0, x;
    while rest >= 0x80
      invariant i + |Leb(rest)| == |Leb(x)|
      invariant buf[..i] + Leb(rest) == Leb(x)
      invariant buf[i..] == orig[i..]
      decreases rest
    {
      ghost var done := buf[..i];
      buf[i] := rest % 128 + 128;
      assert buf[..i] == done;
      assert buf[..i + 1] == done + [rest % 128 + 128];
      assert buf[i + 1..] == orig[i + 1..];
      rest := rest / 128;
      i := i + 1;
    }
    ghost var done := buf[..i];
    buf[i] := rest;
    assert buf[..i] == done;
    assert buf[..i + 1] == done + [rest];
    assert buf[i + 1..] == orig[i + 1..];
    return i + 1;
  }

  lemma LebFits(x: nat)
    requires x < TWO_64
    ensures |Leb(x)| <= MAX_LEN
  {
    RoundTrip(x, []);
  }

  /** binary.Uvarint. The shifted groups are disjoint, so or-ing them is adding them; a shift drops
      what leaves 64 bits, which only happens to groups of a varint that is refused. */
  method GetUvarint(buf: seq<byte>) returns (r: Read)
    ensures r == Uvarint(buf)
    ensures r.value < TWO_64
  {
    Pow128Values();
    var x: nat, p: nat, i: nat := 0, 1, 0;
    while i < |buf|
      invariant i <= |buf| && i <= MAX_LEN
      invariant forall j | 0 <= j < i :: buf[j] >= 128
      invariant x < TWO_64 && p == Pow128(i)
      invariant i < MAX_LEN ==> x == Value(buf[..i]) < Pow128(i)
    {
      if i == MAX_LEN {
        return Read(0, -(i + 1));
      }
      ValueStep(buf, i);
      if buf[i] < 0x80 {
        if i == MAX_LEN - 1 && buf[i] > 1 {
          return Read(0, -(i + 1));
        }
        AcceptedFits(buf);
        OrFits(buf, i);
        return Read(OrIn(x, buf[i], p), i + 1);
      }
      if i < MAX_LEN - 1 {
        EarlyFits(buf, i);
        OrFits(buf, i);
      }
      x, p, i := OrIn(x, buf[i], p), p * 128, i + 1;
    }
    return Read(0, 0);
  }

  /** A group of seven bits or-ed in above those that are there. */
  function OrIn(x: nat, b: byte, p: nat): (y: nat)
    ensures y < TWO_64
  {
    (x + (b % 128) * p) % TWO_64
  }

  lemma OrFits(buf: seq<byte>, i: nat)
    requires i < |buf| && Value(buf[..i + 1]) < TWO_64
    ensures OrIn(Value(buf[..i]), buf[i], Pow128(i)) == Value(buf[..i + 1])
  {
    ValueStep(buf, i);
    SmallMod(Value(buf[..i + 1]), TWO_64);
  }

  lemma EarlyFits(buf: seq<byte>, i: nat)
    requires i < |buf| && i < MAX_LEN - 1
    ensures Value(buf[..i + 1]) < TWO_64
  {
    Pow128Values();
    ValueStep(buf, i);
    PowGrows(i + 1, 9);
  }

  lemma SmallMod(x: nat, d: nat)
    requires x < d
    ensures x % d == x
  {
  }

  lemma ValueStep(buf: seq<byte>, i: nat)
    requires i < |buf|
    ensures Value(buf[..i + 1]) == Value(buf[..i]) + (buf[i] % 128) * Pow128(i) < Pow128(i + 1)
  {
    assert buf[..i + 1] == buf[..i] + [buf[i]];
    ValueSnoc(buf[..i], buf[i]);
    ValueBound(buf[..i + 1]);
  }
}
