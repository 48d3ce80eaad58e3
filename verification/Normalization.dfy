/** Description normalisation for matching, on ASCII text, and the variant groups found in its result. */
module Normalization {
  import opened Sql
  import opened Digits

  // ---------------------------------------------------------------------------
  // Characters.
  // ---------------------------------------------------------------------------

  predicate IsAscii(s: string) { forall c :: c in s ==> c as int < 128 }

  predicate IsUpper(c: char) { 'A' <= c <= 'Z' }
  predicate IsLetter(c: char) { 'a' <= c <= 'z' || IsUpper(c) }

  /** \w */
  predicate IsWord(c: char) { IsDigit(c) || IsLetter(c) || c == '_' }

  /** \s: blank, tab to carriage return, and the four separators before the blank. */
  predicate IsSpace(c: char) { c == ' ' || 9 <= c as int <= 13 || 28 <= c as int <= 31 }

  function Lower(c: char): char { if IsUpper(c) then c + 32 as char else c }

  /** A place where the boundary pattern matches: a digit meets a letter. */
  predicate Boundary(c: char, d: char) { (IsDigit(c) && IsLetter(d)) || (IsLetter(c) && IsDigit(d)) }

  // ---------------------------------------------------------------------------
  // The stages of normalize_description.
  // ---------------------------------------------------------------------------

  function Lowered(s: string): (r: string)
    ensures |r| == |s| && forall i :: 0 <= i < |s| ==> r[i] == Lower(s[i])
  {
    if s == "" then "" else [Lower(s[0])] + Lowered(s[1..])
  }

  /** Everything but words and white space becomes a blank. */
  function Unpunctuated(s: string): (r: string)
    ensures |r| == |s| && forall i :: 0 <= i < |s| ==> r[i] == if IsWord(s[i]) || IsSpace(s[i]) then s[i] else ' '
  {
    if s == "" then ""
    else [if IsWord(s[0]) || IsSpace(s[0]) then s[0] else ' '] + Unpunctuated(s[1..])
  }

  /** A blank put in at every boundary. */
  function Separated(s: string): string {
    if |s| < 2 then s
    else [s[0]] + (if Boundary(s[0], s[1]) then " " else "") + Separated(s[1..])
  }

  /** Every run of white space becomes one blank. */
  function Collapsed(s: string): string {
    if s == "" then ""
    else if !IsSpace(s[0]) then [s[0]] + Collapsed(s[1..])
    else if |s| > 1 && IsSpace(s[1]) then Collapsed(s[1..])
    else " " + Collapsed(s[1..])
  }

  function StripLeft(s: string): string {
    if s != "" && IsSpace(s[0]) then StripLeft(s[1..]) else s
  }

  function StripRight(s: string): string {
    if s != "" && IsSpace(s[|s| - 1]) then StripRight(s[..|s| - 1]) else s
  }

  function Strip(s: string): string { StripRight(StripLeft(s)) }

  /** All stages up to the split. */
  function Spaced(raw: string): string { Strip(Collapsed(Separated(Unpunctuated(Lowered(raw))))) }

  /** split(" ") */
  function Split(s: string): (tokens: seq<string>)
    ensures |tokens| > 0
  {
    if s == "" then [""]
    else
      var rest := Split(s[1..]);
      if s[0] == ' ' then [""] + rest else [[s[0]] + rest[0]] + rest[1..]
  }

  const STOPWORDS: seq<string> := ["the", "a", "an", "of", "and", "with", "in"]

  function Kept(tokens: seq<string>): seq<string> {
    if tokens == [] then []
    else if tokens[0] == "" || tokens[0] in STOPWORDS then Kept(tokens[1..])
    else [tokens[0]] + Kept(tokens[1..])
  }

  /** " ".join(tokens) */
  function Join(tokens: seq<string>): string {
    if tokens == [] then "" else if |tokens| == 1 then tokens[0] else tokens[0] + " " + Join(tokens[1..])
  }

  function Tokens(raw: string): seq<string>
    requires IsAscii(raw)
  {
    Kept(Split(Spaced(raw)))
  }

  function NormalizeDescription(raw: string): string
    requires IsAscii(raw)
  {
    if raw == "" then "" else Join(Tokens(raw))
  }

  // ---------------------------------------------------------------------------
  // What the stages leave.
  // ---------------------------------------------------------------------------

  /** A lower-case word character. */
  predicate IsPlain(c: char) { IsWord(c) && !IsUpper(c) }

  predicate Seamless(s: string) { forall i :: 0 <= i < |s| - 1 ==> !Boundary(s[i], s[i + 1]) }

  /** The tokens a normal form is made of. */
  predicate IsToken(t: string) { t != "" && t !in STOPWORDS && (forall c :: c in t ==> IsPlain(c)) && Seamless(t) }

  predicate AllTokens(ts: seq<string>) { forall t :: t in ts ==> IsToken(t) }

  lemma SeamlessTail(s: string)
    requires s != "" && Seamless(s)
    ensures Seamless(s[1..])
  {
    forall i | 0 <= i < |s[1..]| - 1 ensures !Boundary(s[1..][i], s[1..][i + 1]) {
      assert s[1..][i] == s[i + 1] && s[1..][i + 1] == s[i + 2];
    }
  }

  lemma {:induction false} SeparatedIsSeamless(s: string)
    ensures Seamless(Separated(s))
    ensures |s| > 0 ==> |Separated(s)| > 0 && Separated(s)[0] == s[0]
    ensures forall c :: c in Separated(s) ==> c in s || c == ' '
  {
    if |s| >= 2 { SeparatedIsSeamless(s[1..]); }
  }

  lemma {:induction false} CollapsedIsSeamless(s: string)
    requires Seamless(s)
    ensures Seamless(Collapsed(s))
    ensures |s| > 0 ==> |Collapsed(s)| > 0 && Collapsed(s)[0] == if IsSpace(s[0]) then ' ' else s[0]
    ensures forall c :: c in Collapsed(s) ==> c == ' ' || (c in s && !IsSpace(c))
  {
    if s != "" {
      SeamlessTail(s);
      CollapsedIsSeamless(s[1..]);
    }
  }

  lemma {:induction false} StrippedIsPart(s: string)
    ensures exists i, j :: 0 <= i <= j <= |s| && Strip(s) == s[i..j]
  {
    StrippedLeftIsPart(s);
    var i :| 0 <= i <= |s| && StripLeft(s) == s[i..];
    StrippedRightIsPart(s[i..]);
    var j :| 0 <= j <= |s[i..]| && StripRight(s[i..]) == s[i..][..j];
    assert Strip(s) == s[i..i + j];
  }

  lemma {:induction false} StrippedLeftIsPart(s: string)
    ensures exists i :: 0 <= i <= |s| && StripLeft(s) == s[i..]
  {
    if s != "" && IsSpace(s[0]) {
      StrippedLeftIsPart(s[1..]);
      var i :| 0 <= i <= |s[1..]| && StripLeft(s[1..]) == s[1..][i..];
      assert s[1..][i..] == s[i + 1..];
    } else {
      assert s == s[0..];
    }
  }

  lemma {:induction false} StrippedRightIsPart(s: string)
    ensures exists j :: 0 <= j <= |s| && StripRight(s) == s[..j]
  {
    if s != "" && IsSpace(s[|s| - 1]) {
      var init := s[..|s| - 1];
      StrippedRightIsPart(init);
      var j :| 0 <= j <= |init| && StripRight(init) == init[..j];
      assert init[..j] == s[..j];
    } else {
      assert s == s[..|s|];
    }
  }

  lemma {:induction false} SplitTokens(s: string)
    requires Seamless(s)
    ensures Split(s)[0] <= s
    ensures forall t :: t in Split(s) ==> Seamless(t) && forall c :: c in t ==> c != ' ' && c in s
  {
    if s != "" {
      var rest := Split(s[1..]);
      SeamlessTail(s);
      SplitTokens(s[1..]);
      forall t | t in Split(s) ensures Seamless(t) && forall c :: c in t ==> c != ' ' && c in s {
        if t !in rest && s[0] != ' ' {
          assert t == [s[0]] + rest[0];
          assert rest[0] in rest;
        }
      }
    }
  }

  lemma {:induction false} KeptAreKept(tokens: seq<string>)
    ensures forall t :: t in Kept(tokens) <==> t in tokens && t != "" && t !in STOPWORDS
  {
    if tokens != [] { KeptAreKept(tokens[1..]); }
  }

  predicate IsBare(s: string) { forall c :: c in s ==> IsPlain(c) || IsSpace(c) }

  lemma BareText(raw: string)
    ensures IsBare(Unpunctuated(Lowered(raw)))
  {
    var bare := Unpunctuated(Lowered(raw));
    forall c | c in bare ensures IsPlain(c) || IsSpace(c) {
      var i :| 0 <= i < |bare| && bare[i] == c;
      assert Lowered(raw)[i] == Lower(raw[i]);
    }
  }

  /** The last stages make tokens of any bare text. */
  lemma BareMakesTokens(bare: string)
    requires IsBare(bare)
    ensures var tokens := Kept(Split(Strip(Collapsed(Separated(bare)))));
            AllTokens(tokens) && forall t :: t in tokens ==> forall c :: c in t ==> c in bare
  {
    var spaced := Collapsed(Separated(bare));
    SeparatedIsSeamless(bare);
    CollapsedIsSeamless(Separated(bare));
    StrippedIsPart(spaced);
    var text := Strip(spaced);
    SplitTokens(text);
    KeptAreKept(Split(text));
    forall t | t in Kept(Split(text)) ensures IsToken(t) && forall c :: c in t ==> c in bare {
      forall c | c in t ensures IsPlain(c) && c in bare { assert c in text && c in spaced && c in Separated(bare); }
    }
  }

  /** Whatever the description, its normal form is made of tokens. */
  lemma TokensAreTokens(raw: string)
    requires IsAscii(raw)
    ensures AllTokens(Tokens(raw))
  {
    BareText(raw);
    BareMakesTokens(Unpunctuated(Lowered(raw)));
  }

  lemma TokensHaveWords(tokens: seq<string>, bare: string)
    requires tokens != [] && AllTokens(tokens) && forall t :: t in tokens ==> forall c :: c in t ==> c in bare
    ensures exists c :: c in bare && IsWord(c)
  {
    var t := tokens[0];
    assert t in tokens && IsToken(t) && t[0] in t && t[0] in bare;
  }

  /** A description without a single word character has no tokens. */
  lemma PunctuationHasNoTokens(raw: string)
    requires IsAscii(raw) && forall c :: c in raw ==> !IsWord(c)
    ensures Tokens(raw) == []
  {
    var bare := Unpunctuated(Lowered(raw));
    BareText(raw);
    BareMakesTokens(bare);
    forall c | c in bare ensures !IsWord(c) {
      var i :| 0 <= i < |bare| && bare[i] == c;
      assert Lowered(raw)[i] == Lower(raw[i]) && raw[i] in raw;
    }
    if Tokens(raw) != [] { TokensHaveWords(Tokens(raw), bare); }
  }

  /** A description has no tokens exactly when nothing but stopwords is left between its blanks. */
  lemma NoTokensExactly(raw: string)
    requires IsAscii(raw)
    ensures Tokens(raw) == [] <==> forall t :: t in Split(Spaced(raw)) ==> t == "" || t in STOPWORDS
  {
    KeptAreKept(Split(Spaced(raw)));
    if Tokens(raw) != [] { assert Tokens(raw)[0] in Tokens(raw); }
  }

  // ---------------------------------------------------------------------------
  // Tokens are left alone.
  // ---------------------------------------------------------------------------

  predicate SingleBlanks(s: string) { forall i :: 0 <= i < |s| - 1 ==> s[i] != ' ' || s[i + 1] != ' ' }

  /** Text of blanks and lower-case word characters, with no boundary, no double blank and no blank at
      either end. */
  predicate IsTidy(s: string) {
    && (forall c :: c in s ==> IsPlain(c) || c == ' ') && Seamless(s)
    && SingleBlanks(s)
    && (s != "" ==> s[0] != ' ' && s[|s| - 1] != ' ')
  }

  lemma TokenIsTidy(t: string)
    requires IsToken(t)
    ensures IsTidy(t)
  {
    forall i | 0 <= i < |t| ensures t[i] != ' ' { assert t[i] in t; }
  }

  lemma JoinTwo(t: string, rest: string)
    requires IsToken(t) && IsTidy(rest) && rest != ""
    ensures IsTidy(t + " " + rest)
  {
    TokenIsTidy(t);
    var s := t + " " + rest;
    forall i | 0 <= i < |s| - 1 ensures !Boundary(s[i], s[i + 1]) && (s[i] != ' ' || s[i + 1] != ' ') {
      if i < |t| {
        assert s[i] == t[i] && t[i] in t;
        assert i + 1 < |t| ==> s[i + 1] == t[i + 1];
      } else if i > |t| {
        assert s[i] == rest[i - |t| - 1] && s[i + 1] == rest[i - |t|];
      } else {
        assert s[i + 1] == rest[0];
      }
    }
  }

  lemma {:induction false} JoinIsTidy(tokens: seq<string>)
    requires AllTokens(tokens)
    ensures IsTidy(Join(tokens)) && (tokens != [] ==> Join(tokens) != "")
  {
    if tokens != [] {
      assert tokens[0] in tokens;
      TokenIsTidy(tokens[0]);
      if |tokens| > 1 {
        assert AllTokens(tokens[1..]);
        JoinIsTidy(tokens[1..]);
        JoinTwo(tokens[0], Join(tokens[1..]));
      }
    }
  }

  lemma {:induction false} SeamlessIsLeftAlone(s: string)
    requires Seamless(s)
    ensures Separated(s) == s
  {
    if |s| >= 2 {
      SeamlessTail(s);
      SeamlessIsLeftAlone(s[1..]);
    }
  }

  lemma {:induction false} SingleBlanksAreLeftAlone(s: string)
    requires forall c :: c in s ==> IsPlain(c) || c == ' '
    requires SingleBlanks(s)
    ensures Collapsed(s) == s
  {
    if s != "" {
      assert SingleBlanks(s[1..]) by { assert forall i :: 0 <= i < |s[1..]| ==> s[1..][i] == s[i + 1]; }
      SingleBlanksAreLeftAlone(s[1..]);
      assert s == [s[0]] + s[1..];
      assert s[0] in s;
      if |s| > 1 { assert s[1] in s; }
    }
  }

  lemma {:induction false} PlainIsLeftAlone(s: string)
    requires forall c :: c in s ==> IsPlain(c) || c == ' '
    ensures Lowered(s) == s && Unpunctuated(s) == s
  {
    forall i | 0 <= i < |s| ensures Lowered(s)[i] == s[i] && Unpunctuated(s)[i] == s[i] { assert s[i] in s; }
  }

  lemma TidyIsStripped(s: string)
    requires IsTidy(s)
    ensures Strip(s) == s
  {
    if s != "" {
      assert s[0] in s && s[|s| - 1] in s;
      assert StripLeft(s) == s;
    }
  }

  lemma TidyIsLeftAlone(s: string)
    requires IsTidy(s)
    ensures IsAscii(s) && Spaced(s) == s
  {
    assert Unpunctuated(Lowered(s)) == s by { PlainIsLeftAlone(s); }
    assert Separated(s) == s by { SeamlessIsLeftAlone(s); }
    assert Collapsed(s) == s by { SingleBlanksAreLeftAlone(s); }
    assert Strip(s) == s by { TidyIsStripped(s); }
  }

  lemma {:induction false} SplitWord(t: string)
    requires ' ' !in t
    ensures Split(t) == [t]
  {
    if t != "" {
      SplitWord(t[1..]);
      assert t == [t[0]] + t[1..];
    }
  }

  lemma {:induction false} SplitAtBlank(t: string, rest: string)
    requires ' ' !in t
    ensures Split(t + " " + rest) == [t] + Split(rest)
  {
    var s := t + " " + rest;
    if t == "" {
      assert s[1..] == rest;
    } else {
      assert s[1..] == t[1..] + " " + rest;
      SplitAtBlank(t[1..], rest);
      assert [t[0]] + t[1..] == t;
    }
  }

  /** Splitting undoes joining. */
  lemma {:induction false} SplitUndoesJoin(tokens: seq<string>)
    requires tokens != [] && forall t :: t in tokens ==> ' ' !in t
    ensures Split(Join(tokens)) == tokens
  {
    if |tokens| == 1 {
      assert tokens[0] in tokens;
      SplitWord(tokens[0]);
    } else {
      assert tokens[0] in tokens;
      SplitAtBlank(tokens[0], Join(tokens[1..]));
      SplitUndoesJoin(tokens[1..]);
    }
  }

  lemma {:induction false} TokensAreKept(tokens: seq<string>)
    requires AllTokens(tokens)
    ensures Kept(tokens) == tokens
  {
    if tokens != [] {
      assert tokens[0] in tokens;
      assert AllTokens(tokens[1..]);
      TokensAreKept(tokens[1..]);
    }
  }

  /** A text made of tokens is its own normal form, and its tokens are found again. */
  lemma JoinedTokensAreNormal(tokens: seq<string>)
    requires AllTokens(tokens)
    ensures IsAscii(Join(tokens)) && NormalizeDescription(Join(tokens)) == Join(tokens)
    ensures Tokens(Join(tokens)) == tokens
  {
    JoinIsTidy(tokens);
    TidyIsLeftAlone(Join(tokens));
    if tokens == [] {
      assert Kept([""]) == [] by { assert [""][1..] == []; }
    } else {
      forall t | t in tokens ensures ' ' !in t { assert IsToken(t); }
      SplitUndoesJoin(tokens);
      TokensAreKept(tokens);
    }
  }

  /** Normalising is idempotent, and the normal forms are exactly the texts made of tokens. */
  lemma NormalizingIsIdempotent(raw: string)
    requires IsAscii(raw)
    ensures IsAscii(NormalizeDescription(raw))
    ensures NormalizeDescription(NormalizeDescription(raw)) == NormalizeDescription(raw)
    ensures NormalizeDescription(raw) == raw <==> exists tokens :: AllTokens(tokens) && raw == Join(tokens)
  {
    var tokens := Tokens(raw);
    TokensAreTokens(raw);
    if raw == "" {
      assert Join([]) == "";
      assert AllTokens([]);
      JoinedTokensAreNormal([]);
    } else {
      JoinedTokensAreNormal(tokens);
      if ts :| AllTokens(ts) && raw == Join(ts) {
        JoinedTokensAreNormal(ts);
      }
    }
  }

  /** Two descriptions have one normal form exactly when they have the same tokens. */
  lemma NormalFormsMeanTokens(a: string, b: string)
    requires IsAscii(a) && IsAscii(b) && a != "" && b != ""
    ensures NormalizeDescription(a) == NormalizeDescription(b) <==> Tokens(a) == Tokens(b)
  {
    TokensAreTokens(a);
    TokensAreTokens(b);
    JoinedTokensAreNormal(Tokens(a));
    JoinedTokensAreNormal(Tokens(b));
  }

  /** Descriptions that differ in the case of their letters alone have one normal form. */
  lemma CaseDoesNotMatter(a: string, b: string)
    requires IsAscii(a) && IsAscii(b) && |a| == |b| && forall i :: 0 <= i < |a| ==> Lower(a[i]) == Lower(b[i])
    ensures NormalizeDescription(a) == NormalizeDescription(b)
  {
    assert Lowered(a) == Lowered(b);
  }

  // ---------------------------------------------------------------------------
  // The words of a description survive.
  // ---------------------------------------------------------------------------

  /** The word characters of a text in lower case, in order. */
  function Spelled(s: string): string {
    if s == "" then "" else (if IsWord(s[0]) then [Lower(s[0])] else "") + Spelled(s[1..])
  }

  /** The words of a text: runs of word characters, broken where a digit meets a letter, in lower case. */
  function Words(s: string): (words: seq<string>)
    ensures forall w :: w in words ==> w != ""
  {
    if s == "" then []
    else if !IsWord(s[0]) then Words(s[1..])
    else if |s| > 1 && IsWord(s[1]) && !Boundary(s[0], s[1]) then Longer(Lower(s[0]), Words(s[1..]))
    else [[Lower(s[0])]] + Words(s[1..])
  }

  /** With the character in front of the first word. */
  function Longer(c: char, words: seq<string>): (r: seq<string>)
    ensures forall w :: w in r ==> w != "" || w in words
  {
    if words == [] then [[c]] else [[c] + words[0]] + words[1..]
  }

  function Flat(parts: seq<string>): string { if parts == [] then "" else parts[0] + Flat(parts[1..]) }

  lemma FlatLonger(c: char, words: seq<string>)
    ensures Flat(Longer(c, words)) == [c] + Flat(words)
  {
    if words == [] {
      assert Flat([[c]]) == [c] + Flat([]);
    } else {
      assert Longer(c, words)[1..] == words[1..];
    }
  }

  /** The words spell the text. */
  lemma {:induction false} WordsSpell(s: string)
    ensures Flat(Words(s)) == Spelled(s)
  {
    if s != "" {
      WordsSpell(s[1..]);
      FlatLonger(Lower(s[0]), Words(s[1..]));
      var c := [Lower(s[0])];
      assert ([c] + Words(s[1..]))[1..] == Words(s[1..]);
    }
  }

  /** A part ends after n characters. */
  ghost predicate BreaksAfter(parts: seq<string>, n: nat) {
    exists m :: 0 <= m <= |parts| && |Flat(parts[..m])| == n
  }

  lemma FlatAfter(part: string, parts: seq<string>, m: nat)
    requires m <= |parts|
    ensures Flat(([part] + parts)[..m + 1]) == part + Flat(parts[..m])
  {
    assert ([part] + parts)[..m + 1][1..] == parts[..m];
  }

  /** Breaks behind a part, and inside or at the end of it. */
  lemma BreaksBehind(part: string, parts: seq<string>, n: nat)
    requires part != ""
    ensures BreaksAfter([part] + parts, |part| + n) <==> BreaksAfter(parts, n)
    ensures 0 < n < |part| ==> !BreaksAfter([part] + parts, n)
  {
    var all := [part] + parts;
    if m :| 0 <= m <= |all| && |Flat(all[..m])| == |part| + n {
      if m > 0 { FlatAfter(part, parts, m - 1); }
    }
    if m :| 0 <= m <= |parts| && |Flat(parts[..m])| == n { FlatAfter(part, parts, m); }
    if m :| 0 <= m <= |all| && |Flat(all[..m])| == n {
      if m > 0 { FlatAfter(part, parts, m - 1); }
    }
  }

  lemma BreaksLonger(c: char, words: seq<string>, n: nat)
    requires words != [] && words[0] != ""
    ensures n > 0 ==> (BreaksAfter(Longer(c, words), 1 + n) <==> BreaksAfter(words, n))
    ensures !BreaksAfter(Longer(c, words), 1)
  {
    var first, rest := words[0], words[1..];
    assert words == [first] + rest;
    if 0 < n < |first| {
      BreaksBehind(first, rest, n);
      BreaksBehind([c] + first, rest, 1 + n);
    } else if n >= |first| {
      BreaksBehind(first, rest, n - |first|);
      BreaksBehind([c] + first, rest, n - |first|);
    }
    BreaksBehind([c] + first, rest, 1);
  }

  lemma SomeWord(s: string)
    requires s != "" && IsWord(s[0])
    ensures Words(s) != []
  {
  }

  /** Between two word characters that follow each other there is a break exactly where something stood between them
      or a digit meets a letter. */
  lemma {:induction false} BreaksAreKept(s: string, i: nat, j: nat)
    requires i < j < |s| && IsWord(s[i]) && IsWord(s[j]) && forall k :: i < k < j ==> !IsWord(s[k])
    ensures BreaksAfter(Words(s), |Spelled(s[..i + 1])|) <==> j > i + 1 || Boundary(s[i], s[j])
  {
    var c, rest := Lower(s[0]), s[1..];
    if i > 0 {
      BreaksAreKept(rest, i - 1, j - 1);
      assert s[..i + 1][1..] == rest[..i];
      var n := |Spelled(rest[..i])|;
      assert n > 0 by { SpelledAt(rest[..i], i - 1); }
      if IsWord(s[0]) && IsWord(s[1]) && !Boundary(s[0], s[1]) {
        SomeWord(rest);
        BreaksLonger(c, Words(rest), n);
      } else if IsWord(s[0]) {
        BreaksBehind([c], Words(rest), n);
      }
    } else {
      assert s[..1][1..] == "" && Spelled(s[..1]) == [c] + Spelled("");
      if j == 1 && !Boundary(s[0], s[1]) {
        SomeWord(rest);
        BreaksLonger(c, Words(rest), 0);
      } else {
        BreaksBehind([c], Words(rest), 0);
        assert Flat(Words(rest)[..0]) == "";
      }
    }
  }

  lemma {:induction false} SpelledAt(s: string, i: nat)
    requires i < |s| && IsWord(s[i])
    ensures |Spelled(s)| > 0
  {
    if i > 0 { SpelledAt(s[1..], i - 1); }
  }

  lemma {:induction false} LoweringKeepsWords(s: string)
    ensures Words(Lowered(s)) == Words(s)
  {
    if s != "" {
      LoweringKeepsWords(s[1..]);
      assert Lowered(s)[1..] == Lowered(s[1..]);
    }
  }

  lemma {:induction false} PunctuationEndsWords(s: string)
    ensures Words(Unpunctuated(s)) == Words(s)
  {
    if s != "" {
      PunctuationEndsWords(s[1..]);
      assert Unpunctuated(s)[1..] == Unpunctuated(s[1..]);
    }
  }

  lemma {:induction false} SeparatingKeepsWords(s: string)
    ensures Words(Separated(s)) == Words(s)
  {
    if |s| >= 2 {
      var t := Separated(s[1..]);
      SeparatingKeepsWords(s[1..]);
      SeparatedIsSeamless(s[1..]);
      if Boundary(s[0], s[1]) {
        assert Separated(s)[1..] == " " + t && (" " + t)[1..] == t;
      } else {
        assert Separated(s) == [s[0]] + "" + t && Separated(s)[1..] == t;
      }
    }
  }

  lemma {:induction false} CollapsingKeepsWords(s: string)
    ensures Words(Collapsed(s)) == Words(s)
    ensures |s| > 0 ==> |Collapsed(s)| > 0 && Collapsed(s)[0] == if IsSpace(s[0]) then ' ' else s[0]
  {
    if s != "" {
      var t := Collapsed(s[1..]);
      CollapsingKeepsWords(s[1..]);
      assert (" " + t)[1..] == t && ([s[0]] + t)[1..] == t;
    }
  }

  lemma {:induction false} StrippingLeftKeepsWords(s: string)
    ensures Words(StripLeft(s)) == Words(s)
  {
    if s != "" && IsSpace(s[0]) { StrippingLeftKeepsWords(s[1..]); }
  }

  lemma {:induction false} LastBlankEndsNothing(s: string, c: char)
    requires IsSpace(c)
    ensures Words(s + [c]) == Words(s)
  {
    if s == "" {
      assert (s + [c])[1..] == "";
    } else {
      assert (s + [c])[1..] == s[1..] + [c];
      LastBlankEndsNothing(s[1..], c);
    }
  }

  lemma {:induction false} StrippingRightKeepsWords(s: string)
    ensures Words(StripRight(s)) == Words(s)
  {
    if s != "" && IsSpace(s[|s| - 1]) {
      var init := s[..|s| - 1];
      StrippingRightKeepsWords(init);
      LastBlankEndsNothing(init, s[|s| - 1]);
      assert s == init + [s[|s| - 1]];
    }
  }

  /** The stages before the split neither lose nor join nor break a word. */
  lemma SpacingKeepsWords(raw: string)
    ensures Words(Spaced(raw)) == Words(raw)
  {
    var lower := Lowered(raw);
    var bare := Unpunctuated(lower);
    var apart := Separated(bare);
    var once := Collapsed(apart);
    LoweringKeepsWords(raw);
    PunctuationEndsWords(lower);
    SeparatingKeepsWords(bare);
    CollapsingKeepsWords(apart);
    StrippingLeftKeepsWords(once);
    StrippingRightKeepsWords(StripLeft(once));
  }

  function NotEmpty(parts: seq<string>): seq<string> {
    if parts == [] then [] else (if parts[0] == "" then [] else [parts[0]]) + NotEmpty(parts[1..])
  }

  predicate PlainOrBlank(s: string) { forall c :: c in s ==> IsPlain(c) || c == ' ' }

  lemma {:induction false} SplitFindsWords(s: string)
    requires PlainOrBlank(s) && Seamless(s)
    ensures Words(s) == NotEmpty(Split(s))
    ensures s == "" || s[0] == ' ' <==> Split(s)[0] == ""
  {
    if s == "" {
      assert [""][1..] == [];
    } else {
      var rest := Split(s[1..]);
      SeamlessTail(s);
      SplitFindsWords(s[1..]);
      assert s[0] in s;
      if s[0] == ' ' {
        assert ([""] + rest)[1..] == rest;
        assert [] + NotEmpty(rest) == NotEmpty(rest);
      } else {
        if |s| > 1 { assert s[1] in s; }
        assert Split(s)[1..] == rest[1..] && Split(s)[0] == [s[0]] + rest[0];
        WordInFront(s, rest);
      }
    }
  }

  lemma WordInFront(s: string, rest: seq<string>)
    requires s != "" && IsPlain(s[0]) && rest != [] && Words(s[1..]) == NotEmpty(rest)
    requires |s| == 1 || s[1] == ' ' <==> rest[0] == ""
    requires |s| > 1 ==> (IsPlain(s[1]) || s[1] == ' ') && !Boundary(s[0], s[1])
    ensures Words(s) == [[s[0]] + rest[0]] + NotEmpty(rest[1..])
  {
    if rest[0] == "" {
      assert [s[0]] + "" == [s[0]];
      assert [] + NotEmpty(rest[1..]) == NotEmpty(rest[1..]);
    } else {
      assert ([rest[0]] + NotEmpty(rest[1..]))[1..] == NotEmpty(rest[1..]);
    }
  }

  lemma {:induction false} KeptDropsEmpty(parts: seq<string>)
    ensures Kept(NotEmpty(parts)) == Kept(parts)
  {
    if parts != [] {
      KeptDropsEmpty(parts[1..]);
      if parts[0] != "" {
        assert ([parts[0]] + NotEmpty(parts[1..]))[1..] == NotEmpty(parts[1..]);
      } else {
        assert [] + NotEmpty(parts[1..]) == NotEmpty(parts[1..]);
      }
    }
  }

  lemma SpacedIsPlain(raw: string)
    ensures PlainOrBlank(Spaced(raw)) && Seamless(Spaced(raw))
  {
    var bare := Unpunctuated(Lowered(raw));
    BareText(raw);
    SeparatedIsSeamless(bare);
    CollapsedIsSeamless(Separated(bare));
    StrippedIsPart(Collapsed(Separated(bare)));
  }

  /** The tokens of a description are its words, but for the stopwords. */
  lemma TokensAreTheWords(raw: string)
    requires IsAscii(raw)
    ensures Tokens(raw) == Kept(Words(raw))
  {
    SpacedIsPlain(raw);
    SplitFindsWords(Spaced(raw));
    KeptDropsEmpty(Split(Spaced(raw)));
    SpacingKeepsWords(raw);
  }

  /** Stopwords are left out one by one, wherever they stand. */
  lemma {:induction false} StopwordsAreDropped(a: seq<string>, w: string, b: seq<string>)
    ensures Kept(a + [w] + b) == Kept(a) + (if w == "" || w in STOPWORDS then [] else [w]) + Kept(b)
  {
    if a == [] {
      assert ([] + [w] + b)[1..] == b && [] + [w] + b == [w] + b;
      assert [] + Kept(b) == Kept(b);
    } else {
      assert (a + [w] + b)[1..] == a[1..] + [w] + b;
      StopwordsAreDropped(a[1..], w, b);
      var kept := if w == "" || w in STOPWORDS then [] else [w];
      assert [a[0]] + (Kept(a[1..]) + kept + Kept(b)) == ([a[0]] + Kept(a[1..])) + kept + Kept(b);
    }
  }

  ghost predicate HasNoStopwords(s: string) { forall w :: w in Words(s) ==> w !in STOPWORDS }

  /** Descriptions have one normal form exactly when they have the same words in the same order, stopwords aside; and
      then they are spelled alike outside the stopwords. */
  lemma NormalFormsMeanWords(a: string, b: string)
    requires IsAscii(a) && IsAscii(b)
    ensures NormalizeDescription(a) == NormalizeDescription(b) <==> Kept(Words(a)) == Kept(Words(b))
    ensures NormalizeDescription(a) == NormalizeDescription(b) ==> Flat(Kept(Words(a))) == Flat(Kept(Words(b)))
    ensures NormalizeDescription(a) == NormalizeDescription(b) && HasNoStopwords(a) && HasNoStopwords(b) ==>
              Spelled(a) == Spelled(b)
  {
    TokensAreTheWords(a);
    TokensAreTheWords(b);
    TokensAreTokens(a);
    TokensAreTokens(b);
    JoinedTokensAreNormal(Tokens(a));
    JoinedTokensAreNormal(Tokens(b));
    NoWordsInNothing();
    WordsSpell(a);
    WordsSpell(b);
    if HasNoStopwords(a) { AllAreKept(Words(a)); }
    if HasNoStopwords(b) { AllAreKept(Words(b)); }
  }

  lemma NoWordsInNothing()
    ensures Tokens("") == [] && Join([]) == ""
  {
    TokensAreTheWords("");
  }

  lemma {:induction false} AllAreKept(words: seq<string>)
    requires forall w :: w in words ==> w != "" && w !in STOPWORDS
    ensures Kept(words) == words
  {
    if words != [] {
      assert words[0] in words;
      forall w | w in words[1..] ensures w in words { }
      AllAreKept(words[1..]);
    }
  }

  // ---------------------------------------------------------------------------
  // Variant groups.
  // ---------------------------------------------------------------------------

  /** Words that tell one variant of a product from another, one list a group. */
  const VARIANT_CONFLICT_GROUPS: seq<seq<string>> := [
    ["mature", "matured"], ["mild"], ["medium"], ["extra mature"], ["smooth"], ["original"], ["lite", "light"],
    ["zero", "sugar free", "no sugar"], ["diet"], ["full cream", "full-cream"], ["low fat", "fat free", "fatfree"],
    ["spicy", "hot"], ["unsalted"], ["salted"], ["smoked"], ["unsmoked"]]

  predicate Contains(s: string, part: string) { part <= s || (s != "" && Contains(s[1..], part)) }

  /** A variant of several words is looked for anywhere in the text, one of a single word among the tokens. */
  predicate Shows(normalized: string, variant: string) {
    if ' ' in variant then Contains(normalized, variant) else variant in Split(normalized)
  }

  lemma {:induction false} ContainsMeans(s: string, part: string)
    ensures Contains(s, part) <==> exists a, b :: s == a + part + b
  {
    if part <= s {
      assert s == "" + part + s[|part|..];
    }
    if s != "" {
      ContainsMeans(s[1..], part);
      if a, b :| s[1..] == a + part + b {
        assert s == ([s[0]] + a) + part + b;
      }
    }
    if a, b :| s == a + part + b {
      if a == "" {
        assert part <= s;
      } else {
        assert s[1..] == a[1..] + part + b;
      }
    }
  }

  predicate ShowsAny(normalized: string, group: seq<string>) { exists v :: v in group && Shows(normalized, v) }

  function FirstShown(normalized: string, groups: seq<seq<string>>): (r: Option<nat>)
    ensures r.Some? ==> r.value < |groups| && ShowsAny(normalized, groups[r.value])
    ensures forall i :: 0 <= i < (if r.Some? then r.value else |groups|) ==> !ShowsAny(normalized, groups[i])
  {
    if groups == [] then None
    else if ShowsAny(normalized, groups[0]) then Some(0)
    else match FirstShown(normalized, groups[1..]) case None => None case Some(i) => Some(i + 1)
  }

  /** find_variant_group; the groups are disjoint, so a group is told by its position. */
  function FindVariantGroup(normalized: string): Option<nat> { FirstShown(normalized, VARIANT_CONFLICT_GROUPS) }

  /** The tokens of a text are found again by splitting its normal form. */
  lemma NormalFormSplits(raw: string)
    requires IsAscii(raw) && Tokens(raw) != []
    ensures NormalizeDescription(raw) == Join(Tokens(raw)) && Split(NormalizeDescription(raw)) == Tokens(raw)
  {
    TokensAreTokens(raw);
    forall t | t in Tokens(raw) ensures ' ' !in t { assert IsToken(t); }
    SplitUndoesJoin(Tokens(raw));
  }

  lemma GroupOfExactly(normalized: string, groups: seq<seq<string>>, i: nat)
    requires i < |groups|
    ensures FirstShown(normalized, groups) == Some(i) <==>
            ShowsAny(normalized, groups[i]) && forall j :: 0 <= j < i ==> !ShowsAny(normalized, groups[j])
  {
  }

  lemma OneShown(normalized: string, v: string)
    requires ' ' !in v
    ensures ShowsAny(normalized, [v]) <==> v in Split(normalized)
  {
    assert v in [v];
  }

  lemma EitherShown(normalized: string, v: string, w: string)
    requires ' ' !in v && ' ' !in w
    ensures ShowsAny(normalized, [v, w]) <==> v in Split(normalized) || w in Split(normalized)
  {
    assert v in [v, w] && w in [v, w];
  }

  lemma PhraseShown(normalized: string, v: string)
    requires ' ' in v
    ensures ShowsAny(normalized, [v]) <==> Contains(normalized, v)
  {
    assert v in [v];
  }

  lemma FourthGroupExactly(n: string, groups: seq<seq<string>>)
    requires |groups| > 3 && |groups[0]| == 2 && |groups[1]| == |groups[2]| == |groups[3]| == 1
    requires ' ' !in groups[0][0] && ' ' !in groups[0][1] && ' ' !in groups[1][0] && ' ' !in groups[2][0]
    requires ' ' in groups[3][0]
    ensures FirstShown(n, groups) == Some(3) <==>
            && Contains(n, groups[3][0]) && groups[0][0] !in Split(n) && groups[0][1] !in Split(n)
            && groups[1][0] !in Split(n) && groups[2][0] !in Split(n)
  {
    assert groups[0] == [groups[0][0], groups[0][1]];
    assert groups[1] == [groups[1][0]] && groups[2] == [groups[2][0]] && groups[3] == [groups[3][0]];
    EitherShown(n, groups[0][0], groups[0][1]);
    OneShown(n, groups[1][0]);
    OneShown(n, groups[2][0]);
    PhraseShown(n, groups[3][0]);
    GroupOfExactly(n, groups, 3);
  }

  /** The group of extra mature is the fourth, and a text is given it exactly when it contains those words but no
      token of the three groups before it. */
  lemma ExtraMatureExactly(raw: string)
    requires IsAscii(raw)
    ensures var n := NormalizeDescription(raw);
            FindVariantGroup(n) == Some(3) <==>
              && Contains(n, "extra mature") && "mature" !in Split(n) && "matured" !in Split(n)
              && "mild" !in Split(n) && "medium" !in Split(n)
  {
    assert "extra mature"[5] == ' ';
    FourthGroupExactly(NormalizeDescription(raw), VARIANT_CONFLICT_GROUPS);
  }

  /** So a text with the token "mature" or "matured" never is: it is always in the first group, and an extra mature
      cheese is not told from a mature one, though the table has a group for it. */
  lemma ExtraMatureIsTakenForMature(raw: string)
    requires IsAscii(raw) && ("mature" in Tokens(raw) || "matured" in Tokens(raw))
    ensures FindVariantGroup(NormalizeDescription(raw)) == Some(0)
  {
    var n, groups := NormalizeDescription(raw), VARIANT_CONFLICT_GROUPS;
    NormalFormSplits(raw);
    EitherShown(n, "mature", "matured");
    GroupOfExactly(n, groups, 0);
  }

  lemma TwoTokens(t: string, u: string, part: string)
    requires IsToken(t) && IsToken(u) && part <= u
    ensures var s := t + " " + u;
            && IsAscii(s) && NormalizeDescription(s) == s && Split(s) == Tokens(s) == [t, u]
            && Contains(s, t + " " + part)
  {
    var s := t + " " + u;
    assert Join([t, u]) == s by { assert [t, u][1..] == [u]; }
    JoinedTokensAreNormal([t, u]);
    NormalFormSplits(s);
    assert t + " " + part <= s;
  }

  lemma ExtraIsAToken()
    ensures IsToken("extra")
  {
    var t := "extra";
    assert |t| == 5 && t[0] == 'e' && t[1] == 'x' && t[2] == 't' && t[3] == 'r' && t[4] == 'a';
    forall w | w in STOPWORDS ensures t != w { assert |w| < 5; }
  }

  /** What does get the group is a longer word that begins like mature. */
  lemma LongerWordIsExtraMature(u: string)
    requires IsToken(u) && "mature" <= u && u != "mature" && u != "matured"
    ensures var s := "extra" + " " + u;
            IsAscii(s) && FindVariantGroup(NormalizeDescription(s)) == Some(3)
  {
    ExtraIsAToken();
    TwoTokens("extra", u, "mature");
    assert "extra" + " " + "mature" == "extra mature";
    ExtraMatureExactly("extra" + " " + u);
  }

  /** No normal form has a hyphen, so the hyphenated spelling of full cream is never found. */
  lemma HyphenatedVariantIsNeverFound(raw: string)
    requires IsAscii(raw)
    ensures !Shows(NormalizeDescription(raw), "full-cream")
  {
    TokensAreTokens(raw);
    var tokens := if raw == "" then [] else Tokens(raw);
    if tokens != [] {
      forall t | t in tokens ensures ' ' !in t && t != "full-cream" {
        assert IsToken(t);
        assert "full-cream"[4] == '-' && '-' in "full-cream" && !IsPlain('-');
      }
      SplitUndoesJoin(tokens);
    }
  }
}
