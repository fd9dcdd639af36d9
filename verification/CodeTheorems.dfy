/** What the code words are for: a code typed in any case and with any separators gives back slot
    and password, typing slips that move a word to a neighbouring position are noticed, and the
    four encodings do not get in each other's way except where the two word lists share words. */
module CodeTheorems {
  import opened Protocol
  import opened Varint
  import opened Words
  import opened Codes

  /** Two sequences of words that differ in case only. */
  predicate SameButCase(ws: seq<string>, vs: seq<string>) {
    |ws| == |vs| && forall i | 0 <= i < |ws| :: Fold(ws[i]) == Fold(vs[i])
  }

  // ---- Round trips of the single encodings ----

  /** A code typed in another case and with other separators. */
  predicate Respells(code: string, original: string) {
    SameButCase(Tokens(code), Tokens(original))
  }

  /** That is: any casing of the words, any gaps of dashes, pluses and white space that keep them
      apart, and any such gaps around them; and nothing else. */
  lemma RespellingIs(code: string, original: string)
    ensures Respells(code, original) <==>
            exists words, gaps | |gaps| == |words| + 1 && AllWords(words) && Apart(gaps) ::
              Spell(words, gaps) == code && SameButCase(words, Tokens(original))
  {
    var gaps := SpellOfTokens(code);
    assert Spell(Tokens(code), gaps) == code;
    if words, gs :| |gs| == |words| + 1 && AllWords(words) && Apart(gs)
                    && Spell(words, gs) == code && SameButCase(words, Tokens(original)) {
      TokensOfSpell(words, gs);
    }
  }

  /** Every slot and every password survive, however the words are cased, joined and surrounded. */
  lemma VarintRoundTrip(list: seq<string>, slot: int, pass: seq<byte>, code: string)
    requires ListOk(list) && IsSlot(slot) && |pass| > 0
    requires Respells(code, VarintCode(list, slot, pass))
    ensures VarintReading(list, Tokens(code)) == Found(slot, pass)
  {
    VarintTokens(list, slot, pass);
    VarintReadsBack(list, slot, pass, Tokens(code));
  }

  lemma VarintTokens(list: seq<string>, slot: int, pass: seq<byte>)
    requires ListOk(list) && IsSlot(slot) && |pass| > 0
    ensures Tokens(VarintCode(list, slot, pass)) == WordsFor(list, Leb(Unsigned(slot)) + pass)
  {
    var bs := Leb(Unsigned(slot)) + pass;
    WordsForRead(list, bs);
    TokensOfJoin(WordsFor(list, bs), "");
    assert "" + Join(WordsFor(list, bs)) == Join(WordsFor(list, bs));
  }

  lemma VarintReadsBack(list: seq<string>, slot: int, pass: seq<byte>, words: seq<string>)
    requires ListOk(list) && IsSlot(slot)
    requires SameButCase(words, WordsFor(list, Leb(Unsigned(slot)) + pass))
    ensures VarintReading(list, words) == Found(slot, pass)
  {
    var v := Unsigned(slot);
    var bs := Leb(v) + pass;
    WordsForRead(list, bs);
    assert Reads(list, words, bs);
    BytesAre(list, words, bs);
    Varint.RoundTrip(v, pass);
    assert bs[|Leb(v)|..] == pass;
    assert Signed(v) == slot;
  }

  /** The words of a slot number's code: a minus sign in front is lost in the splitting. */
  lemma NumberTokens(slot: int, base: nat, words: seq<string>)
    requires 2 <= base <= 10 && AllWords(words)
    ensures Tokens(Join([FormatInt(slot, base)] + words)) == [Numeral(if slot < 0 then -slot else slot, base)] + words
  {
    var n := Numeral(if slot < 0 then -slot else slot, base);
    NumeralIsWord(n, base);
    var gap := if slot < 0 then "-" else "";
    TokensOfJoin([n] + words, gap);
    assert ([n] + words)[1..] == words && ([gap + n] + words)[1..] == words;
    assert FormatInt(slot, base) == gap + n;
    assert gap + Join([n] + words) == Join([gap + n] + words) by {
      if |words| > 0 {
        assert gap + (n + "-" + Join(words)) == (gap + n) + "-" + Join(words);
      }
    }
  }

  /** The decimal encoding comes back exactly for the slots that are not negative: the sign of the
      others reads as a separator. */
  lemma MagicRoundTrip(list: seq<string>, slot: int, pass: seq<byte>)
    requires ListOk(list) && IsSlot(slot) && |pass| > 0
    ensures MagicReading(list, Tokens(MagicCode(list, slot, pass))) == Found(slot, pass) <==> slot >= 0
  {
    WordsForRead(list, pass);
    NumberTokens(slot, 10, WordsFor(list, pass));
    var n := if slot < 0 then -slot else slot;
    NumeralRoundTrip(n, 10);
    var words := [Numeral(n, 10)] + WordsFor(list, pass);
    assert words[1..] == WordsFor(list, pass);
    BytesAre(list, words[1..], pass);
  }

  lemma OctalRoundTrip(slot: int, pass: seq<byte>)
    requires IsSlot(slot) && |pass| > 0
    ensures OctalReading(Tokens(OctalCode(slot, pass))) == Found(slot, pass) <==> slot >= 0
  {
    OctalWordsAreRead(pass);
    NumberTokens(slot, 8, OctalWords(pass));
    var n := if slot < 0 then -slot else slot;
    NumeralRoundTrip(n, 8);
    var words := [Numeral(n, 8)] + OctalWords(pass);
    assert words[1..] == OctalWords(pass);
    OctalUnique(words[1..], pass);
  }

  lemma OctalWordsAreRead(pass: seq<byte>)
    ensures AllWords(OctalWords(pass)) && AllOctal(OctalWords(pass), pass)
  {
    forall i | 0 <= i < |pass|
      ensures IsWord(OctalWords(pass)[i]) && OctalReads(OctalWords(pass)[i], i, pass[i])
    {
      NumeralIsWord(OctalWord(pass[i], i), 8);
      OctalWordIsRead(pass[i], i);
    }
  }

  lemma OctalWordIsRead(b: byte, i: nat)
    ensures OctalReads(OctalWord(b, i), i, b)
  {
    var n := b + 256 * (i % 2);
    var w := OctalWord(b, i);
    var first, second := [DigitChar(n / 64)], [DigitChar(n / 64), DigitChar(n / 8 % 8)];
    assert second == first + [DigitChar(n / 8 % 8)] && w == second + [DigitChar(n % 8)];
    NumeralSnoc(first, n / 8 % 8, 8);
    NumeralSnoc(second, n % 8, 8);
    NineBits(b, i % 2);
    assert NumeralValue(w, 8) == n;
    assert ParseInt(w, 8, TWO_15) == Some(n);
  }

  lemma NineBits(b: byte, p: nat)
    requires p < 2
    ensures var n := b + 256 * p; n == (n / 64 * 8 + n / 8 % 8) * 8 + n % 8 && (n / 256) % 2 == p && n % 256 == b
  {
  }

  // ---- The decoder that tries them all ----

  /** A code whose first word is of letters has at most the varint reading. */
  lemma WordFirst(en: seq<string>, pgp: seq<string>, words: seq<string>)
    requires ListOk(en) && ListOk(pgp)
    requires |words| > 0 && Plain(Fold(words[0]))
    ensures Reading(en, pgp, words) == VarintReading(en, words)
  {
    if IsNumeral(words[0], 10) {
      NumeralIsWord(words[0], 10);
    }
    if IsNumeral(words[0], 8) {
      NumeralIsWord(words[0], 8);
    }
    Unfold(en, pgp, words);
  }

  lemma Unfold(en: seq<string>, pgp: seq<string>, words: seq<string>)
    requires ListOk(en) && ListOk(pgp)
    ensures Reading(en, pgp, words) ==
            (if VarintReading(en, words).Found? then VarintReading(en, words)
             else if MagicReading(en, words).Found? then MagicReading(en, words)
             else if MagicReading(pgp, words).Found? then MagicReading(pgp, words)
             else OctalReading(words))
  {
    var es := Encodings(en, pgp);
    FirstStep(es, words);
    FirstStep(es[1..], words);
    FirstStep(es[2..], words);
    FirstStep(es[3..], words);
  }

  lemma FirstStep(es: seq<Encoding>, words: seq<string>)
    requires |es| > 0 && forall e | e in es :: EncodingOk(e)
    ensures FirstReading(es, words) ==
            (if ReadingBy(es[0], words).Found? then ReadingBy(es[0], words) else FirstReading(es[1..], words))
    ensures |es| == 1 ==> FirstReading(es, words) == ReadingBy(es[0], words)
  {
    if |es| == 1 {
      assert es[1..] == [];
    }
  }

  /** A code that starts with a number has no varint reading. */
  lemma NumberFirst(en: seq<string>, words: seq<string>, base: nat)
    requires ListOk(en) && 2 <= base <= 10
    requires |words| > 0 && IsNumeral(words[0], base)
    ensures VarintReading(en, words) == Nothing
  {
    NumeralIsWord(words[0], base);
    Unreadable(en, words, 0);
  }

  /** Decode inverts the default Encode, for every slot and non-empty password, whatever the case
      and the separators. */
  lemma DecodeDefault(en: seq<string>, pgp: seq<string>, slot: int, pass: seq<byte>, code: string)
    requires ListOk(en) && ListOk(pgp) && IsSlot(slot) && |pass| > 0
    requires Respells(code, VarintCode(en, slot, pass))
    ensures Reading(en, pgp, Tokens(code)) == Found(slot, pass)
  {
    VarintRoundTrip(en, slot, pass, code);
    VarintTokens(en, slot, pass);
    PlainIsWord(WordsFor(en, Leb(Unsigned(slot)) + pass)[0]);
    WordFirst(en, pgp, Tokens(code));
  }

  /** It inverts the decimal encoding over enWords exactly for the slots that are not negative. */
  lemma DecodeMagic(en: seq<string>, pgp: seq<string>, slot: int, pass: seq<byte>)
    requires ListOk(en) && ListOk(pgp) && IsSlot(slot) && |pass| > 0
    ensures Reading(en, pgp, Tokens(MagicCode(en, slot, pass))) == Found(slot, pass) <==> slot >= 0
  {
    MagicRoundTrip(en, slot, pass);
    var words := Tokens(MagicCode(en, slot, pass));
    WordsForRead(en, pass);
    NumberTokens(slot, 10, WordsFor(en, pass));
    NumberFirst(en, words, 10);
    Unfold(en, pgp, words);
  }

  /** So for the octal encoding: octal words are in no word list. */
  lemma DecodeOctal(en: seq<string>, pgp: seq<string>, slot: int, pass: seq<byte>)
    requires ListOk(en) && ListOk(pgp) && IsSlot(slot) && |pass| > 0
    ensures Reading(en, pgp, Tokens(OctalCode(slot, pass))) == Found(slot, pass) <==> slot >= 0
  {
    OctalRoundTrip(slot, pass);
    var words := Tokens(OctalCode(slot, pass));
    OctalWordsAreRead(pass);
    NumberTokens(slot, 8, OctalWords(pass));
    NumberFirst(en, words, 8);
    NumeralIsWord(words[1..][0], 8);
    Unreadable(en, words[1..], 0);
    Unreadable(pgp, words[1..], 0);
    Unfold(en, pgp, words);
  }

  /** Whether every pgp word of a password is also the enWords word of the same byte, or some word
      is none of the two enWords words that its position allows: what a caller can look up. */
  predicate EnglishAgrees(en: seq<string>, pgp: seq<string>, pass: seq<byte>)
    requires ListOk(en) && ListOk(pgp)
  {
    || WordsFor(en, pass) == WordsFor(pgp, pass)
    || exists i | 0 <= i < |pass| :: NoEnglish(en, WordFor(pgp, pass[i], i), i)
  }

  predicate NoEnglish(en: seq<string>, w: string, i: nat)
    requires ListOk(en)
  {
    forall b: byte :: WordFor(en, b, i) != w
  }

  /** The decimal encoding over pgpWords comes second to the one over enWords: it is inverted
      exactly, among the slots that are not negative, where the enWords reading fails or agrees. */
  lemma DecodePgp(en: seq<string>, pgp: seq<string>, slot: int, pass: seq<byte>)
    requires ListOk(en) && ListOk(pgp) && IsSlot(slot) && |pass| > 0
    ensures Reading(en, pgp, Tokens(MagicCode(pgp, slot, pass))) == Found(slot, pass) <==>
            slot >= 0 && EnglishAgrees(en, pgp, pass)
  {
    MagicRoundTrip(pgp, slot, pass);
    var ws := WordsFor(pgp, pass);
    var words := Tokens(MagicCode(pgp, slot, pass));
    WordsForRead(pgp, pass);
    NumberTokens(slot, 10, ws);
    NumeralRoundTrip(if slot < 0 then -slot else slot, 10);
    NumberFirst(en, words, 10);
    Unfold(en, pgp, words);
    assert words[1..] == ws;
    PgpInEnglish(en, pgp, pass);
  }

  lemma PgpInEnglish(en: seq<string>, pgp: seq<string>, pass: seq<byte>)
    requires ListOk(en) && ListOk(pgp)
    ensures EnglishAgrees(en, pgp, pass) <==>
            BytesOf(en, WordsFor(pgp, pass)) == None || BytesOf(en, WordsFor(pgp, pass)) == Some(pass)
  {
    var ws := WordsFor(pgp, pass);
    WordsForRead(pgp, pass);
    WordsForRead(en, pass);
    assert forall i | 0 <= i < |pass| :: Fold(ws[i]) == ws[i] == WordFor(pgp, pass[i], i);
    if BytesOf(en, ws).Some? {
      var bs := BytesOf(en, ws).value;
      assert forall i | 0 <= i < |pass| :: WordFor(en, bs[i], i) == ws[i];
      if bs == pass {
        assert WordsFor(en, pass) == ws;
      } else if WordsFor(en, pass) == ws {
        ReadsUnique(en, ws, pass, bs);
      }
    } else if !EnglishAgrees(en, pgp, pass) {
      forall i | 0 <= i < |pass|
        ensures exists b: byte :: WordFor(en, b, i) == ws[i]
      {
        assert !NoEnglish(en, WordFor(pgp, pass[i], i), i);
      }
      var bs := seq(|pass|, i requires 0 <= i < |pass| => var b: byte :| WordFor(en, b, i) == ws[i]; b);
      assert Reads(en, ws, bs);
    }
  }

  /** Where the lists have a word in common that stands for different bytes in them, as "alone" does
      for byte 9 of the first and byte 11 of the second, a password of that byte is taken for another
      one. */
  lemma SharedWordsClash(en: seq<string>, pgp: seq<string>, slot: int, a: byte, b: byte)
    requires ListOk(en) && ListOk(pgp) && IsSlot(slot) && slot >= 0
    requires WordFor(en, a, 0) == WordFor(pgp, b, 0)
    ensures Reading(en, pgp, Tokens(MagicCode(pgp, slot, [b]))) == Found(slot, [a])
  {
    var words := [Numeral(slot, 10)] + WordsFor(pgp, [b]);
    WordsForRead(pgp, [b]);
    NumberTokens(slot, 10, WordsFor(pgp, [b]));
    NumeralRoundTrip(slot, 10);
    NumberFirst(en, words, 10);
    assert words[1..] == WordsFor(pgp, [b]);
    assert Reads(en, words[1..], [a]);
    BytesAre(en, words[1..], [a]);
    Unfold(en, pgp, words);
  }

  lemma AloneClashes(en: seq<string>, pgp: seq<string>, slot: int)
    requires ListOk(en) && ListOk(pgp) && IsSlot(slot) && slot >= 0
    requires en[18] == pgp[22] == "alone"
    ensures Reading(en, pgp, Tokens(MagicCode(pgp, slot, [11]))) == Found(slot, [9])
  {
    SharedWordsClash(en, pgp, slot, 9, 11);
  }

  /** Such lists exist: one may have the other's words for two bytes exchanged. */
  lemma ClashingListsExist() returns (en: seq<string>, pgp: seq<string>)
    ensures ListOk(en) && ListOk(pgp) && WordFor(en, 1, 0) == WordFor(pgp, 0, 0)
  {
    SampleListOk();
    en := SampleList();
    pgp := en[0 := en[2]][2 := en[0]];
    assert forall i | 0 <= i < |pgp| :: pgp[i] == en[if i == 0 then 2 else if i == 2 then 0 else i];
  }

  // ---- Typing slips ----

  /** Exchanging a word with the next one, typing it twice, leaving it out. */
  datatype Slip = Swap(k: nat) | Twice(k: nat) | Without(k: nat)

  /** Leaving out the last word is not among the slips: that only cuts the password short. */
  predicate Possible(ws: seq<string>, s: Slip) {
    s.k < |ws| && (s.Twice? || s.k + 1 < |ws|)
  }

  function Slipped(ws: seq<string>, s: Slip): seq<string>
    requires Possible(ws, s)
  {
    match s
    case Swap(k) => ws[k := ws[k + 1]][k + 1 := ws[k]]
    case Twice(k) => ws[..k + 1] + ws[k..]
    case Without(k) => ws[..k] + ws[k + 1..]
  }

  lemma PlaceOfWord(list: seq<string>, b: byte, j: nat, i: nat)
    requires ListOk(list) && i < |list| && list[i] == WordFor(list, b, j)
    ensures i == b * 2 + j % 2 && i % 2 == j % 2
  {
    assert list[b * 2 + j % 2] == list[i];
  }

  /** An enWords word whose parity is not that of its position: no encoding accepts the code. */
  lemma WrongParity(en: seq<string>, pgp: seq<string>, words: seq<string>, k: nat, b: byte, j: nat)
    requires ListOk(en) && ListOk(pgp) && k < |words|
    requires Fold(words[k]) == WordFor(en, b, j) && j % 2 != k % 2
    requires Plain(Fold(words[0]))
    ensures Reading(en, pgp, words) == Nothing
  {
    WordFirst(en, pgp, words);
    forall i | 0 <= i < |en| && en[i] == Fold(words[k])
      ensures i % 2 != k % 2
    {
      PlaceOfWord(en, b, j, i);
    }
    Unreadable(en, words, k);
  }

  /** After any of these slips in a code of the default encoding, at any of its words, Decode finds
      nothing, also not by one of the other encodings. */
  lemma SlipsAreNoticed(en: seq<string>, pgp: seq<string>, slot: int, pass: seq<byte>, s: Slip, code: string)
    requires ListOk(en) && ListOk(pgp) && IsSlot(slot) && |pass| > 0
    requires Possible(Tokens(VarintCode(en, slot, pass)), s)
    requires SameButCase(Tokens(code), Slipped(Tokens(VarintCode(en, slot, pass)), s))
    ensures Reading(en, pgp, Tokens(code)) == Nothing
  {
    VarintTokens(en, slot, pass);
    SlippedWords(en, pgp, Leb(Unsigned(slot)) + pass, s, Tokens(code));
  }

  lemma SlippedWords(en: seq<string>, pgp: seq<string>, bs: seq<byte>, s: Slip, words: seq<string>)
    requires ListOk(en) && ListOk(pgp) && Possible(WordsFor(en, bs), s)
    requires SameButCase(words, Slipped(WordsFor(en, bs), s))
    ensures Reading(en, pgp, words) == Nothing
  {
    var ws := WordsFor(en, bs);
    var i, j := Misplaced(ws, s);
    SameAt(words, Slipped(ws, s), i);
    SameAt(words, Slipped(ws, s), 0);
    SlipUnreadable(en, pgp, bs, words, i, j, FirstAfter(s));
  }

  lemma SameAt(ws: seq<string>, vs: seq<string>, i: nat)
    requires SameButCase(ws, vs) && i < |ws|
    ensures i < |vs| && Fold(ws[i]) == Fold(vs[i])
  {
  }

  lemma SlipUnreadable(en: seq<string>, pgp: seq<string>, bs: seq<byte>, words: seq<string>, i: nat, j: nat, f: nat)
    requires ListOk(en) && ListOk(pgp) && i < |words| && j < |bs| && f < |bs| && j % 2 != i % 2
    requires Fold(words[i]) == Fold(WordsFor(en, bs)[j]) && Fold(words[0]) == Fold(WordsFor(en, bs)[f])
    ensures Reading(en, pgp, words) == Nothing
  {
    WrongParity(en, pgp, words, i, bs[j], j);
  }

  /** Where the first word after a slip was before it. */
  function FirstAfter(s: Slip): nat {
    if s.k == 0 && !s.Twice? then 1 else 0
  }

  /** Every slip puts some word next to where it belongs. */
  lemma Misplaced(ws: seq<string>, s: Slip) returns (i: nat, j: nat)
    requires Possible(ws, s)
    ensures i < |Slipped(ws, s)| && j < |ws| && Slipped(ws, s)[i] == ws[j] && i % 2 == (j + 1) % 2
    ensures FirstAfter(s) < |ws| && Slipped(ws, s)[0] == ws[FirstAfter(s)]
  {
    match s {
      case Swap(k) => i, j := k, k + 1;
      case Twice(k) => i, j := k + 1, k;
      case Without(k) => i, j := k, k + 1;
    }
  }

  /** Leaving out the last word goes unnoticed: the code of a password one byte shorter is left. */
  lemma LastWordLost(en: seq<string>, pgp: seq<string>, slot: int, pass: seq<byte>, code: string)
    requires ListOk(en) && ListOk(pgp) && IsSlot(slot) && |pass| > 0
    requires var ws := Tokens(VarintCode(en, slot, pass)); |ws| > 0 && Tokens(code) == ws[..|ws| - 1]
    ensures Reading(en, pgp, Tokens(code)) == Found(slot, pass[..|pass| - 1])
  {
    var less := Leb(Unsigned(slot)) + pass[..|pass| - 1];
    VarintTokens(en, slot, pass);
    assert Tokens(code) == WordsFor(en, less);
    VarintReadsBack(en, slot, pass[..|pass| - 1], Tokens(code));
    WordFirst(en, pgp, Tokens(code));
  }

  // ---- The canonical form ----

  function FoldAll(words: seq<string>): seq<string> {
    seq(|words|, i requires 0 <= i < |words| => Fold(words[i]))
  }

  /** Encoding what was decoded gives back the words in lower case, joined by dashes, exactly if the
      slot's varint has no needless bytes. Accepted varints have at most ten bytes and fit 64 bits. */
  lemma {:induction false} CanonicalForm(list: seq<string>, words: seq<string>)
    requires ListOk(list)
    requires VarintReading(list, words).Found? && |VarintReading(list, words).pass| > 0
    ensures var r, bs := VarintReading(list, words), BytesOf(list, words).value;
            var n := Uvarint(bs).n;
            && 0 < n <= MAX_LEN && n < |bs| && Value(bs[..n]) < TWO_64 && r.slot == Signed(Value(bs[..n]))
            && (VarintCode(list, r.slot, r.pass) == Join(FoldAll(words)) <==> Minimal(bs[..n]))
  {
    var r, bs := VarintReading(list, words), BytesOf(list, words).value;
    var n := Uvarint(bs).n;
    AcceptedFits(bs);
    var v := Value(bs[..n]);
    MinimalFront(bs);
    assert FoldAll(words) == WordsFor(list, bs);
    JoinInjective(list, Leb(v) + bs[n..], bs);
  }

  lemma MinimalFront(bs: seq<byte>)
    requires Uvarint(bs).n > 0
    ensures var n := Uvarint(bs).n; n <= |bs| && (Leb(Value(bs[..n])) + bs[n..] == bs <==> Minimal(bs[..n]))
  {
    var n := Uvarint(bs).n;
    AcceptedFits(bs);
    LeadOfTake(bs, n);
    MinimalIsLeb(bs[..n]);
    SameEnd(bs[..n], Leb(Value(bs[..n])), bs[n..]);
    assert bs == bs[..n] + bs[n..];
  }

  lemma SameEnd(a: seq<byte>, b: seq<byte>, rest: seq<byte>)
    ensures b + rest == a + rest <==> a == b
  {
    if b + rest == a + rest {
      assert |a| == |b|;
      assert a == (a + rest)[..|a|] == (b + rest)[..|b|] == b;
    }
  }

  lemma {:induction false} LeadOfTake(bs: seq<byte>, n: nat)
    requires Lead(bs) < n <= |bs|
    ensures Lead(bs[..n]) == Lead(bs)
  {
    if bs[0] >= 128 {
      LeadOfTake(bs[1..], n - 1);
      assert bs[..n][1..] == bs[1..][..n - 1];
    }
  }

  /** Different byte strings have different codes. */
  lemma JoinInjective(list: seq<string>, a: seq<byte>, b: seq<byte>)
    requires ListOk(list) && |a| > 0 && |b| > 0
    ensures Join(WordsFor(list, a)) == Join(WordsFor(list, b)) <==> a == b
  {
    WordsForRead(list, a);
    WordsForRead(list, b);
    TokensOfJoin(WordsFor(list, a), "");
    TokensOfJoin(WordsFor(list, b), "");
    assert "" + Join(WordsFor(list, a)) == Join(WordsFor(list, a));
    assert "" + Join(WordsFor(list, b)) == Join(WordsFor(list, b));
    if WordsFor(list, a) == WordsFor(list, b) {
      ReadsUnique(list, WordsFor(list, a), a, b);
    }
  }
}
