/** The code words of a wormhole (wordlist/wordlist.go): slot and password as words, in four
    encodings, and the decoder that tries them all. A byte has two words; which one is used tells
    whether it stands at an even or an odd position. */
module Codes {
  import opened Protocol
  import opened Varint
  import opened Words

  const TWO_63: nat := 0x8000_0000_0000_0000

  /** The result of decoding: the source's (0, nil) is Nothing. */
  datatype Decoded = Nothing | Found(slot: int, pass: seq<byte>)

  /** A slot is a 64-bit int. */
  predicate IsSlot(slot: int) {
    -0x8000_0000_0000_0000 <= slot < TWO_63
  }

  /** The conversions uint64(slot) and int(s). */
  function Unsigned(slot: int): (v: nat)
    requires IsSlot(slot)
    ensures v < TWO_64
  {
    if slot < 0 then slot + TWO_64 else slot
  }

  function Signed(v: nat): (slot: int)
    requires v < TWO_64
    ensures IsSlot(slot) && Unsigned(slot) == v
  {
    if v < TWO_63 then v else v - TWO_64
  }

  // ---- Numerals ----

  function DigitChar(d: nat): char
    requires d < 10
  {
    '0' + d as char
  }

  predicate IsNumeral(s: string, base: nat)
    requires 2 <= base <= 10
  {
    |s| > 0 && forall i | 0 <= i < |s| :: '0' <= s[i] < '0' + base as char
  }

  function Numeral(n: nat, base: nat): (s: string)
    requires 2 <= base <= 10
    ensures IsNumeral(s, base)
  {
    if n < base then [DigitChar(n)] else Numeral(n / base, base) + [DigitChar(n % base)]
  }

  function NumeralValue(s: string, base: nat): nat
    requires 2 <= base <= 10 && IsNumeral(s, base)
  {
    var last := (s[|s| - 1] - '0') as nat;
    if |s| == 1 then last else NumeralValue(s[..|s| - 1], base) * base + last
  }

  /** fmt's %d and %o. */
  function FormatInt(n: int, base: nat): string
    requires 2 <= base <= 10
  {
    if n < 0 then "-" + Numeral(-n, base) else Numeral(n, base)
  }

  /** strconv.ParseInt of a word, which has no sign because the decoders have blanked both; limit is
      two to the power of one less than the bit size. */
  function ParseInt(s: string, base: nat, limit: nat): (r: Option<nat>)
    requires 2 <= base <= 10
  {
    if IsNumeral(s, base) && NumeralValue(s, base) < limit then Some(NumeralValue(s, base)) else None
  }

  lemma {:induction false} NumeralRoundTrip(n: nat, base: nat)
    requires 2 <= base <= 10
    ensures NumeralValue(Numeral(n, base), base) == n
  {
    if n < base {
      DigitBack(n);
    } else {
      var q, d := n / base, n % base;
      Division(n, base);
      var front := Numeral(q, base);
      assert Numeral(n, base) == front + [DigitChar(d)];
      NumeralRoundTrip(q, base);
      NumeralSnoc(front, d, base);
    }
  }

  lemma Division(n: nat, base: nat)
    requires base >= 2
    ensures n == (n / base) * base + n % base && (n > 0 ==> n / base < n)
  {
  }

  lemma NumeralSnoc(s: string, d: nat, base: nat)
    requires 2 <= base <= 10 && IsNumeral(s, base) && d < base
    requires IsNumeral(s + [DigitChar(d)], base)
    ensures NumeralValue(s + [DigitChar(d)], base) == NumeralValue(s, base) * base + d
  {
    var t := s + [DigitChar(d)];
    assert t[..|t| - 1] == s;
    DigitBack(d);
  }

  lemma DigitBack(d: nat)
    requires d < 10
    ensures (DigitChar(d) - '0') as nat == d
  {
  }

  lemma NumeralIsWord(s: string, base: nat)
    requires 2 <= base <= 10 && IsNumeral(s, base)
    ensures IsWord(s) && !Plain(Fold(s))
  {
    assert '0' <= s[0] <= '9';
    assert Fold(s)[0] == s[0];
  }

  // ---- Words for bytes ----

  /** A byte's word at a position. */
  function WordFor(list: seq<string>, b: byte, i: nat): string
    requires ListOk(list)
  {
    list[b * 2 + i % 2]
  }

  /** The words of a byte string. */
  function WordsFor(list: seq<string>, bs: seq<byte>): (ws: seq<string>)
    requires ListOk(list)
    ensures |ws| == |bs|
  {
    seq(|bs|, i requires 0 <= i < |bs| => WordFor(list, bs[i], i))
  }

  /** Words, in whatever case, that stand for a byte string. */
  predicate Reads(list: seq<string>, words: seq<string>, bs: seq<byte>)
    requires ListOk(list)
  {
    |bs| == |words| && forall i | 0 <= i < |bs| :: Fold(words[i]) == WordFor(list, bs[i], i)
  }

  lemma ReadsUnique(list: seq<string>, words: seq<string>, a: seq<byte>, b: seq<byte>)
    requires ListOk(list) && Reads(list, words, a) && Reads(list, words, b)
    ensures a == b
  {
    forall i | 0 <= i < |a|
      ensures a[i] == b[i]
    {
      var j, k := a[i] * 2 + i % 2, b[i] * 2 + i % 2;
      assert list[j] == list[k];
      assert j == k;
    }
  }

  /** The byte string some words stand for. */
  ghost function BytesOf(list: seq<string>, words: seq<string>): (r: Option<seq<byte>>)
    requires ListOk(list)
    ensures r.Some? ==> Reads(list, words, r.value)
    ensures r.None? ==> forall bs :: !Reads(list, words, bs)
  {
    if exists bs :: Reads(list, words, bs) then
      var bs :| Reads(list, words, bs);
      Some(bs)
    else None
  }

  lemma BytesAre(list: seq<string>, words: seq<string>, bs: seq<byte>)
    requires ListOk(list) && Reads(list, words, bs)
    ensures BytesOf(list, words) == Some(bs)
  {
    ReadsUnique(list, words, bs, BytesOf(list, words).value);
  }

  /** A word that is not one of the two for any byte, or has the wrong parity, spoils all of it. */
  lemma Unreadable(list: seq<string>, words: seq<string>, k: nat)
    requires ListOk(list) && k < |words|
    requires forall j | 0 <= j < |list| && list[j] == Fold(words[k]) :: j % 2 != k % 2
    ensures BytesOf(list, words) == None
  {
    forall bs
      ensures !Reads(list, words, bs)
    {
      if Reads(list, words, bs) {
        ReadsAt(list, words, bs, k);
      }
    }
  }

  lemma ReadsAt(list: seq<string>, words: seq<string>, bs: seq<byte>, k: nat)
    requires ListOk(list) && Reads(list, words, bs) && k < |words|
    ensures exists j | 0 <= j < |list| :: list[j] == Fold(words[k]) && j % 2 == k % 2
  {
    var j := bs[k] * 2 + k % 2;
    assert list[j] == Fold(words[k]) && j % 2 == k % 2;
  }

  lemma WordsForRead(list: seq<string>, bs: seq<byte>)
    requires ListOk(list)
    ensures Reads(list, WordsFor(list, bs), bs) && AllWords(WordsFor(list, bs))
  {
    forall i | 0 <= i < |bs|
      ensures IsWord(WordsFor(list, bs)[i]) && Fold(WordsFor(list, bs)[i]) == WordFor(list, bs[i], i)
    {
      PlainIsWord(WordFor(list, bs[i], i));
    }
  }

  // ---- The three kinds of encoding ----

  function VarintCode(list: seq<string>, slot: int, pass: seq<byte>): string
    requires ListOk(list) && IsSlot(slot)
  {
    if |pass| == 0 then "" else Join(WordsFor(list, Leb(Unsigned(slot)) + pass))
  }

  ghost function VarintReading(list: seq<string>, words: seq<string>): Decoded
    requires ListOk(list)
  {
    match BytesOf(list, words)
    case None => Nothing
    case Some(bs) => VarintSplit(bs)
  }

  /** Slot and password of a byte string that starts with the slot's varint. */
  function VarintSplit(bs: seq<byte>): Decoded {
    if Uvarint(bs).n <= 0 then Nothing
    else
      AcceptedFits(bs);
      Found(Signed(Uvarint(bs).value), bs[Uvarint(bs).n..])
  }

  function MagicCode(list: seq<string>, slot: int, pass: seq<byte>): string
    requires ListOk(list) && IsSlot(slot)
  {
    if |pass| == 0 then "" else Join([FormatInt(slot, 10)] + WordsFor(list, pass))
  }

  ghost function MagicReading(list: seq<string>, words: seq<string>): Decoded
    requires ListOk(list)
  {
    if |words| < 2 || ParseInt(words[0], 10, TWO_63).None? || BytesOf(list, words[1..]).None? then Nothing
    else Found(ParseInt(words[0], 10, TWO_63).value, BytesOf(list, words[1..]).value)
  }

  /** %03o of a byte with the parity of its position as ninth bit. */
  function OctalWord(b: byte, i: nat): (w: string)
    ensures IsNumeral(w, 8)
  {
    var n := b + 256 * (i % 2);
    [DigitChar(n / 64), DigitChar(n / 8 % 8), DigitChar(n % 8)]
  }

  function OctalWords(pass: seq<byte>): (ws: seq<string>)
    ensures |ws| == |pass|
  {
    seq(|pass|, i requires 0 <= i < |pass| => OctalWord(pass[i], i))
  }

  function OctalCode(slot: int, pass: seq<byte>): string
    requires IsSlot(slot)
  {
    if |pass| == 0 then "" else Join([FormatInt(slot, 8)] + OctalWords(pass))
  }

  const TWO_15: nat := 0x8000

  /** Whether an octal word is read as a byte at a position: its ninth bit is the parity, the bits
      above that are not looked at. */
  predicate OctalReads(word: string, i: nat, b: byte) {
    match ParseInt(word, 8, TWO_15)
    case None => false
    case Some(n) => (n / 256) % 2 == i % 2 && n % 256 == b
  }

  predicate AllOctal(words: seq<string>, pass: seq<byte>) {
    |pass| == |words| && forall i | 0 <= i < |pass| :: OctalReads(words[i], i, pass[i])
  }

  ghost function OctalReading(words: seq<string>): Decoded {
    if |words| < 2 || ParseInt(words[0], 8, TWO_63).None? then Nothing
    else if exists pass :: AllOctal(words[1..], pass) then
      var pass :| AllOctal(words[1..], pass);
      Found(ParseInt(words[0], 8, TWO_63).value, pass)
    else Nothing
  }

  // ---- The loops ----

  method VarintEncode(list: seq<string>, slot: int, pass: seq<byte>) returns (code: string)
    requires ListOk(list) && IsSlot(slot)
    ensures code == VarintCode(list, slot, pass)
  {
    if |pass| == 0 {
      return "";
    }
    var buf := new byte[MAX_LEN];
    var n := PutUvarint(buf, Unsigned(slot));
    var slotbytes := buf[..n];
    var words := new string[n + |pass|];
    for i := 0 to n
      modifies words
      invariant forall j | 0 <= j < i :: words[j] == WordFor(list, slotbytes[j], j)
    {
      words[i] := list[slotbytes[i] * 2 + i % 2];
    }
    for i := 0 to |pass|
      modifies words
      invariant forall j | 0 <= j < n :: words[j] == WordFor(list, slotbytes[j], j)
      invariant forall j | 0 <= j < i :: words[n + j] == WordFor(list, pass[j], n + j)
    {
      words[n + i] := list[pass[i] * 2 + (n + i) % 2];
    }
    WordsInTwoParts(list, slotbytes, pass, words[..]);
    return Join(words[..]);
  }

  lemma WordsInTwoParts(list: seq<string>, a: seq<byte>, b: seq<byte>, words: seq<string>)
    requires ListOk(list) && |words| == |a| + |b|
    requires forall j | 0 <= j < |a| :: words[j] == WordFor(list, a[j], j)
    requires forall j | 0 <= j < |b| :: words[|a| + j] == WordFor(list, b[j], |a| + j)
    ensures words == WordsFor(list, a + b)
  {
    forall i | 0 <= i < |words|
      ensures words[i] == WordsFor(list, a + b)[i]
    {
      if i >= |a| {
        assert words[|a| + (i - |a|)] == WordFor(list, b[i - |a|], i);
      }
    }
  }

  method VarintDecode(list: seq<string>, code: string) returns (r: Decoded)
    requires ListOk(list)
    ensures r == VarintReading(list, Tokens(code))
  {
    var parts := Tokens(code);
    var buf := new byte[|parts|];
    for i := 0 to |parts|
      invariant Reads(list, parts[..i], buf[..i])
    {
      var j := IndexOf(list, parts[i]);
      if j < 0 {
        Unreadable(list, parts, i);
        return Nothing;
      }
      buf[i] := j / 2;
      if i % 2 != j % 2 {
        Unreadable(list, parts, i);
        return Nothing;
      }
      assert parts[..i + 1] == parts[..i] + [parts[i]] && buf[..i + 1] == buf[..i] + [buf[i]];
    }
    assert parts[..|parts|] == parts && buf[..|parts|] == buf[..];
    BytesAre(list, parts, buf[..]);
    var u := GetUvarint(buf[..]);
    if u.n <= 0 {
      return Nothing;
    }
    AcceptedFits(buf[..]);
    return Found(Signed(u.value), buf[u.n..]);
  }

  method MagicEncode(list: seq<string>, slot: int, pass: seq<byte>) returns (code: string)
    requires ListOk(list) && IsSlot(slot)
    ensures code == MagicCode(list, slot, pass)
  {
    if |pass| == 0 {
      return "";
    }
    code := FormatInt(slot, 10);
    ghost var words := [code] + WordsFor(list, pass);
    for i := 0 to |pass|
      invariant code == Join(words[..i + 1])
    {
      code := code + ("-" + list[pass[i] * 2 + i % 2]);
      JoinSnoc(words[..i + 1], words[i + 1]);
      assert words[..i + 2] == words[..i + 1] + [words[i + 1]];
    }
    assert words[..|pass| + 1] == words;
  }

  method MagicDecode(list: seq<string>, code: string) returns (r: Decoded)
    requires ListOk(list)
    ensures r == MagicReading(list, Tokens(code))
  {
    var parts := Tokens(code);
    if |parts| < 2 {
      return Nothing;
    }
    var slot := ParseInt(parts[0], 10, TWO_63);
    if slot.None? {
      return Nothing;
    }
    var rest := parts[1..];
    var pass := new byte[|rest|];
    for i := 0 to |rest|
      invariant Reads(list, rest[..i], pass[..i])
    {
      var j := IndexOf(list, rest[i]);
      if j < 0 {
        Unreadable(list, rest, i);
        return Nothing;
      }
      pass[i] := j / 2;
      if i % 2 != j % 2 {
        Unreadable(list, rest, i);
        return Nothing;
      }
      assert rest[..i + 1] == rest[..i] + [rest[i]] && pass[..i + 1] == pass[..i] + [pass[i]];
    }
    assert rest[..|rest|] == rest && pass[..|rest|] == pass[..];
    BytesAre(list, rest, pass[..]);
    return Found(slot.value, pass[..]);
  }

  method OctalEncode(slot: int, pass: seq<byte>) returns (code: string)
    requires IsSlot(slot)
    ensures code == OctalCode(slot, pass)
  {
    if |pass| == 0 {
      return "";
    }
    code := FormatInt(slot, 8);
    ghost var words := [code] + OctalWords(pass);
    for i := 0 to |pass|
      invariant code == Join(words[..i + 1])
    {
      code := code + ("-" + OctalWord(pass[i], i));
      JoinSnoc(words[..i + 1], words[i + 1]);
      assert words[..i + 2] == words[..i + 1] + [words[i + 1]];
    }
    assert words[..|pass| + 1] == words;
  }

  method OctalDecode(code: string) returns (r: Decoded)
    ensures r == OctalReading(Tokens(code))
  {
    var parts := Tokens(code);
    if |parts| < 2 {
      return Nothing;
    }
    var s := ParseInt(parts[0], 8, TWO_63);
    if s.None? {
      return Nothing;
    }
    var rest := parts[1..];
    var pass := new byte[|rest|];
    for i := 0 to |rest|
      invariant AllOctal(rest[..i], pass[..i])
    {
      var n := ParseInt(rest[i], 8, TWO_15);
      if n.None? || (n.value / 256) % 2 != i % 2 {
        OctalUnreadable(rest, i);
        return Nothing;
      }
      pass[i] := n.value % 256;
      assert rest[..i + 1] == rest[..i] + [rest[i]] && pass[..i + 1] == pass[..i] + [pass[i]];
    }
    assert rest[..|rest|] == rest && pass[..|rest|] == pass[..];
    OctalUnique(rest, pass[..]);
    return Found(s.value, pass[..]);
  }

  lemma OctalUnreadable(words: seq<string>, k: nat)
    requires k < |words| && forall b: byte :: !OctalReads(words[k], k, b)
    ensures forall pass :: !AllOctal(words, pass)
  {
    forall pass
      ensures !AllOctal(words, pass)
    {
      if AllOctal(words, pass) {
        OctalAt(words, pass, k);
      }
    }
  }

  lemma OctalAt(words: seq<string>, pass: seq<byte>, k: nat)
    requires AllOctal(words, pass) && k < |words|
    ensures exists b: byte :: OctalReads(words[k], k, b)
  {
    assert OctalReads(words[k], k, pass[k]);
  }

  lemma OctalUnique(words: seq<string>, pass: seq<byte>)
    requires AllOctal(words, pass)
    ensures forall p | AllOctal(words, p) :: p == pass
  {
    forall p | AllOctal(words, p)
      ensures p == pass
    {
      forall i | 0 <= i < |pass|
        ensures p[i] == pass[i]
      {
        assert OctalReads(words[i], i, p[i]) && OctalReads(words[i], i, pass[i]);
      }
    }
  }

  // ---- All encodings ----

  datatype Encoding = VarintWords(list: seq<string>) | MagicWords(list: seq<string>) | Octal

  predicate EncodingOk(e: Encoding) {
    e.Octal? || ListOk(e.list)
  }

  /** defaultEncodings, for the two word lists. */
  function Encodings(en: seq<string>, pgp: seq<string>): seq<Encoding> {
    [VarintWords(en), MagicWords(en), MagicWords(pgp), Octal]
  }

  ghost function ReadingBy(e: Encoding, words: seq<string>): Decoded
    requires EncodingOk(e)
  {
    match e
    case VarintWords(list) => VarintReading(list, words)
    case MagicWords(list) => MagicReading(list, words)
    case Octal => OctalReading(words)
  }

  /** The reading of the first encoding that has one. */
  ghost function FirstReading(es: seq<Encoding>, words: seq<string>): Decoded
    requires forall e | e in es :: EncodingOk(e)
  {
    if |es| == 0 then Nothing
    else if ReadingBy(es[0], words).Found? then ReadingBy(es[0], words)
    else FirstReading(es[1..], words)
  }

  ghost function Reading(en: seq<string>, pgp: seq<string>, words: seq<string>): Decoded
    requires ListOk(en) && ListOk(pgp)
  {
    FirstReading(Encodings(en, pgp), words)
  }

  method Encode(en: seq<string>, pgp: seq<string>, slot: int, pass: seq<byte>) returns (code: string)
    requires ListOk(en) && ListOk(pgp) && IsSlot(slot)
    ensures code == VarintCode(en, slot, pass)
  {
    code := VarintEncode(Encodings(en, pgp)[0].list, slot, pass);
  }

  method Decode(en: seq<string>, pgp: seq<string>, code: string) returns (r: Decoded)
    requires ListOk(en) && ListOk(pgp)
    ensures r == Reading(en, pgp, Tokens(code))
  {
    var es := Encodings(en, pgp);
    for i := 0 to |es|
      invariant FirstReading(es, Tokens(code)) == FirstReading(es[i..], Tokens(code))
    {
      match es[i] {
        case VarintWords(list) => r := VarintDecode(list, code);
        case MagicWords(list) => r := MagicDecode(list, code);
        case Octal => r := OctalDecode(code);
      }
      if r.Found? {
        return r;
      }
      assert es[i..][1..] == es[i + 1..];
    }
    return Nothing;
  }
}
