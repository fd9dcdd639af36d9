/** Text and word lists under the code words (wordlist/wordlist.go): white space, case folding,
    splitting a code into words, and what the two constant word lists have in common. Text is a
    sequence of Unicode code points. */
module Words {
  datatype Option<T> = None | Some(value: T)

  lemma Associate<T>(a: seq<T>, b: seq<T>, c: seq<T>)
    ensures a + (b + c) == (a + b) + c
  {
  }

  // ---- Characters ----

  /** unicode.IsSpace. */
  predicate IsSpace(c: char) {
    || '\U{0009}' <= c <= '\U{000D}' || c == ' ' || c == '\U{0085}' || c == '\U{00A0}'
    || c == '\U{1680}' || '\U{2000}' <= c <= '\U{200A}' || c == '\U{2028}' || c == '\U{2029}'
    || c == '\U{202F}' || c == '\U{205F}' || c == '\U{3000}'
  }

  /** What separates words: white space, and the two characters Decode turns into spaces. */
  predicate IsGap(c: char) {
    IsSpace(c) || c == '-' || c == '+'
  }

  predicate Letter(c: char) {
    'a' <= c <= 'z'
  }

  /** Simple case folding, as far as it reaches a letter a to z: besides the capitals there are the
      Kelvin sign and the long s. */
  function FoldChar(c: char): char {
    if 'A' <= c <= 'Z' then c - 'A' + 'a'
    else if c == '\U{212A}' then 'k'
    else if c == '\U{017F}' then 's'
    else c
  }

  function Fold(s: string): (f: string)
    ensures |f| == |s|
  {
    seq(|s|, i requires 0 <= i < |s| => FoldChar(s[i]))
  }

  // ---- Splitting ----

  /** strings.ReplaceAll of one character by a space. */
  function Blanked(s: string, c: char): (t: string)
    ensures |t| == |s|
  {
    seq(|s|, i requires 0 <= i < |s| => if s[i] == c then ' ' else s[i])
  }

  /** The length of the run of non-space characters a text starts with. */
  function Run(s: string): (n: nat)
    ensures n <= |s|
  {
    if |s| == 0 || IsSpace(s[0]) then 0 else 1 + Run(s[1..])
  }

  /** strings.Fields. */
  function Fields(s: string): (ws: seq<string>)
    decreases |s|
  {
    if |s| == 0 then []
    else if IsSpace(s[0]) then Fields(s[1..])
    else [s[..Run(s)]] + Fields(s[Run(s)..])
  }

  function Clean(s: string): (t: string)
    ensures |t| == |s|
  {
    Blanked(Blanked(s, '-'), '+')
  }

  /** The words of a code: dashes and pluses count as white space. */
  function Tokens(code: string): seq<string> {
    Fields(Clean(code))
  }

  /** Words written one after the other with gaps before, between and behind them. */
  function Spell(words: seq<string>, gaps: seq<string>): string
    requires |gaps| == |words| + 1
  {
    if |words| == 0 then gaps[0] else gaps[0] + words[0] + Spell(words[1..], gaps[1..])
  }

  predicate IsWord(w: string) {
    |w| > 0 && forall i | 0 <= i < |w| :: !IsGap(w[i])
  }

  predicate AllWords(words: seq<string>) {
    forall i | 0 <= i < |words| :: IsWord(words[i])
  }

  predicate IsGaps(g: string) {
    forall i | 0 <= i < |g| :: IsGap(g[i])
  }

  /** Gaps that keep their words apart. */
  predicate Apart(gaps: seq<string>) {
    && (forall i | 0 <= i < |gaps| :: IsGaps(gaps[i]))
    && (forall i | 0 < i < |gaps| - 1 :: |gaps[i]| > 0)
  }

  lemma {:induction false} RunOfWord(w: string, s: string)
    requires forall i | 0 <= i < |w| :: !IsSpace(w[i])
    requires |s| > 0 ==> IsSpace(s[0])
    ensures Run(w + s) == |w|
  {
    if |w| > 0 {
      RunOfWord(w[1..], s);
      assert (w + s)[1..] == w[1..] + s;
    } else {
      assert w + s == s;
    }
  }

  lemma {:induction false} FieldsSkip(g: string, s: string)
    requires forall i | 0 <= i < |g| :: IsSpace(g[i])
    ensures Fields(g + s) == Fields(s)
  {
    if |g| > 0 {
      FieldsSkip(g[1..], s);
      assert (g + s)[1..] == g[1..] + s;
    } else {
      assert g + s == s;
    }
  }

  lemma CleanConcat(a: string, b: string)
    ensures Clean(a + b) == Clean(a) + Clean(b)
  {
  }

  /** However a code's words are kept apart, and whatever dashes, pluses and white space surround
      them, splitting the code finds them. */
  lemma {:induction false} TokensOfSpell(words: seq<string>, gaps: seq<string>)
    requires |gaps| == |words| + 1 && AllWords(words) && Apart(gaps)
    ensures Tokens(Spell(words, gaps)) == words
  {
    var g := Clean(gaps[0]);
    assert forall i | 0 <= i < |g| :: IsSpace(g[i]);
    if |words| == 0 {
      FieldsSkip(g, "");
      assert g + "" == g;
    } else {
      var w, rest := words[0], Spell(words[1..], gaps[1..]);
      assert Apart(gaps[1..]) && AllWords(words[1..]);
      TokensOfSpell(words[1..], gaps[1..]);
      CleanConcat(gaps[0] + w, rest);
      CleanConcat(gaps[0], w);
      assert Clean(w) == w;
      var tail := Clean(rest);
      SpellStartsWithGap(words[1..], gaps[1..]);
      assert Clean(Spell(words, gaps)) == g + (w + tail);
      FieldsSkip(g, w + tail);
      RunOfWord(w, tail);
      assert (w + tail)[..|w|] == w && (w + tail)[|w|..] == tail;
    }
  }

  lemma SpellStartsWithGap(words: seq<string>, gaps: seq<string>)
    requires |gaps| == |words| + 1 && Apart(gaps)
    requires |words| > 0 ==> |gaps[0]| > 0
    ensures |Spell(words, gaps)| > 0 ==> IsSpace(Clean(Spell(words, gaps))[0])
  {
    var s := Spell(words, gaps);
    if |s| > 0 {
      assert s[0] == gaps[0][0];
    }
  }

  /** Conversely every text is a spelling of the words found in it. */
  lemma {:induction false} SpellOfTokens(code: string) returns (gaps: seq<string>)
    ensures AllWords(Tokens(code)) && |gaps| == |Tokens(code)| + 1 && Apart(gaps)
    ensures Spell(Tokens(code), gaps) == code
    decreases |code|
  {
    if |code| == 0 {
      gaps := [""];
    } else if IsGap(code[0]) {
      assert Clean(code)[1..] == Clean(code[1..]);
      var more := SpellOfTokens(code[1..]);
      gaps := [[code[0]] + more[0]] + more[1..];
      SpellSkips(code, Tokens(code[1..]), more);
    } else {
      var n := Run(Clean(code));
      RunStops(Clean(code));
      assert Clean(code)[n..] == Clean(code[n..]);
      var more := SpellOfTokens(code[n..]);
      gaps := [""] + more;
      FirstToken(code);
      SpellCons(code, n, Tokens(code[n..]), more);
    }
  }

  lemma {:induction false} SpellSkips(code: string, words: seq<string>, gaps: seq<string>)
    requires |code| > 0 && IsGap(code[0])
    requires |gaps| == |words| + 1 && Apart(gaps) && Spell(words, gaps) == code[1..]
    ensures var all := [[code[0]] + gaps[0]] + gaps[1..];
            Apart(all) && Spell(words, all) == code
  {
    var all := [[code[0]] + gaps[0]] + gaps[1..];
    forall i | 0 <= i < |all|
      ensures IsGaps(all[i]) && (0 < i < |all| - 1 ==> |all[i]| > 0)
    {
      assert IsGaps(gaps[i]);
    }
    assert code == [code[0]] + code[1..];
    if |words| > 0 {
      assert all[1..] == gaps[1..];
      var rest := Spell(words[1..], gaps[1..]);
      assert all[0] + words[0] + rest == [code[0]] + (gaps[0] + words[0] + rest);
    }
  }

  lemma FirstToken(code: string)
    requires |code| > 0 && !IsGap(code[0])
    ensures var n := Run(Clean(code)); 0 < n && Tokens(code) == [code[..n]] + Tokens(code[n..]) && IsWord(code[..n])
  {
    var n := Run(Clean(code));
    RunStops(Clean(code));
    assert Clean(code)[..n] == code[..n] && Clean(code)[n..] == Clean(code[n..]);
  }

  lemma SpellCons(code: string, n: nat, words: seq<string>, gaps: seq<string>)
    requires 0 < n <= |code| && (n < |code| ==> IsGap(code[n]))
    requires AllWords(words) && |gaps| == |words| + 1 && Apart(gaps) && Spell(words, gaps) == code[n..]
    ensures Apart([""] + gaps) && Spell([code[..n]] + words, [""] + gaps) == code
  {
    assert code == code[..n] + code[n..];
    if |words| > 0 && gaps[0] == "" {
      SpellStartsWithWord(words, gaps);
    }
    ApartCons(gaps);
  }

  lemma ApartCons(gaps: seq<string>)
    requires |gaps| > 0 && Apart(gaps) && (|gaps| > 1 ==> |gaps[0]| > 0)
    ensures Apart([""] + gaps)
  {
    assert forall i | 0 < i < |[""] + gaps| :: ([""] + gaps)[i] == gaps[i - 1];
  }

  lemma SpellStartsWithWord(words: seq<string>, gaps: seq<string>)
    requires AllWords(words) && |gaps| == |words| + 1 && |words| > 0 && gaps[0] == ""
    ensures |Spell(words, gaps)| > 0 && !IsGap(Spell(words, gaps)[0])
  {
    assert IsWord(words[0]) && Spell(words, gaps)[0] == words[0][0];
  }

  lemma {:induction false} RunStops(s: string)
    ensures Run(s) < |s| ==> IsSpace(s[Run(s)])
    ensures forall i | 0 <= i < Run(s) :: !IsSpace(s[i])
  {
    if |s| > 0 && !IsSpace(s[0]) {
      RunStops(s[1..]);
      assert forall i | 0 < i < Run(s) :: s[i] == s[1..][i - 1];
    }
  }

  /** strings.Join with a dash. */
  function Join(words: seq<string>): string {
    if |words| == 0 then ""
    else if |words| == 1 then words[0]
    else words[0] + "-" + Join(words[1..])
  }

  function Dashes(n: nat): (gaps: seq<string>)
    ensures |gaps| == n + 1
  {
    seq(n + 1, i => if i == 0 || i == n then "" else "-")
  }

  lemma {:induction false} JoinIsSpell(words: seq<string>, gap: string)
    requires |words| > 0
    ensures Spell(words, Dashes(|words|)[0 := gap]) == gap + Join(words)
  {
    var gaps := Dashes(|words|)[0 := gap];
    if |words| == 1 {
      assert Spell(words[1..], gaps[1..]) == gaps[1..][0];
    } else {
      JoinIsSpell(words[1..], "-");
      assert gaps[1..] == Dashes(|words| - 1)[0 := "-"];
    }
  }

  /** Splitting undoes joining; a gap in front makes no difference. */
  lemma {:induction false} TokensOfJoin(words: seq<string>, gap: string)
    requires |words| > 0 && AllWords(words) && IsGaps(gap)
    ensures Tokens(gap + Join(words)) == words
  {
    JoinIsSpell(words, gap);
    TokensOfSpell(words, Dashes(|words|)[0 := gap]);
  }

  lemma {:induction false} JoinSnoc(words: seq<string>, w: string)
    requires |words| > 0
    ensures Join(words + [w]) == Join(words) + ("-" + w)
  {
    if |words| > 1 {
      JoinSnoc(words[1..], w);
      assert (words + [w])[1..] == words[1..] + [w];
    } else {
      assert (words + [w])[1..] == [w];
    }
  }

  // ---- Word lists ----

  const LIST_SIZE := 512

  predicate Plain(w: string) {
    |w| > 0 && forall i | 0 <= i < |w| :: Letter(w[i])
  }

  /** What enWords and pgpWords have in common: two words for each byte, all of them non-empty words
      of letters a to z, no word twice. */
  predicate ListOk(list: seq<string>) {
    && |list| == LIST_SIZE
    && (forall i | 0 <= i < |list| :: Plain(list[i]))
    && (forall i, j | 0 <= i < j < |list| :: list[i] != list[j])
  }

  lemma PlainIsWord(w: string)
    requires Plain(w)
    ensures IsWord(w) && Fold(w) == w
  {
  }

  /** Two letters of base 26 name every number below 26 * 26. */
  function TwoLetters(i: nat): string
    requires i < 26 * 26
  {
    ['a' + (i / 26) as char, 'a' + (i % 26) as char]
  }

  function SampleList(): seq<string> {
    seq(LIST_SIZE, i requires 0 <= i < LIST_SIZE => TwoLetters(i))
  }

  lemma TwoLettersInjective(i: nat, j: nat)
    requires i < 26 * 26 && j < 26 * 26 && TwoLetters(i) == TwoLetters(j)
    ensures i == j
  {
    assert TwoLetters(i)[0] == TwoLetters(j)[0] && TwoLetters(i)[1] == TwoLetters(j)[1];
    assert (i / 26) as char == ('a' + (i / 26) as char) - 'a';
    assert (i % 26) as char == ('a' + (i % 26) as char) - 'a';
    assert i / 26 == j / 26 && i % 26 == j % 26;
  }

  /** Word lists of this kind exist. */
  lemma SampleListOk()
    ensures ListOk(SampleList())
  {
    var l := SampleList();
    forall i, j | 0 <= i < j < |l|
      ensures l[i] != l[j]
    {
      if l[i] == l[j] {
        TwoLettersInjective(i, j);
      }
    }
  }

  /** strings.EqualFold against the words of a list: the first word equal to w but for case, or -1.
      No word occurs twice, so a word's index is what it finds. */
  method IndexOf(list: seq<string>, w: string) returns (j: int)
    requires ListOk(list)
    ensures j == -1 || 0 <= j < |list|
    ensures j >= 0 ==> list[j] == Fold(w) && forall k | 0 <= k < |list| && list[k] == Fold(w) :: k == j
    ensures j == -1 <==> Fold(w) !in list
  {
    for i := 0 to |list|
      invariant Fold(w) !in list[..i]
    {
      PlainIsWord(list[i]);
      if Fold(w) == Fold(list[i]) {
        return i;
      }
      assert list[..i + 1] == list[..i] + [list[i]];
    }
    assert list[..|list|] == list;
    return -1;
  }
}
