/** The grammar of project IDs (internal/project/project.go) and the browser's generator of
    IDs from display names (internal/server/web/src/project-create.js). */
module ProjectIds {
  const MAX_LENGTH: nat := 64

  predicate IsWordChar(c: char) {
    'a' <= c <= 'z' || '0' <= c <= '9'
  }

  predicate IsWord(s: string) {
    s != "" && forall i :: 0 <= i < |s| ==> IsWordChar(s[i])
  }

  function Join(words: seq<string>): string
    requires words != []
  {
    if |words| == 1 then words[0] else words[0] + "-" + Join(words[1..])
  }

  /** The language of ^[a-z0-9]+(-[a-z0-9]+)*$. */
  ghost predicate InPattern(id: string) {
    exists words: seq<string> :: words != [] && (forall w <- words :: IsWord(w)) && id == Join(words)
  }

  /** ValidateID. */
  ghost predicate ValidId(id: string) {
    |id| <= MAX_LENGTH && InPattern(id)
  }

  /** Only word characters and single hyphens. */
  predicate Tidy(s: string) {
    && (forall i :: 0 <= i < |s| ==> IsWordChar(s[i]) || s[i] == '-')
    && (forall i :: 0 < i < |s| ==> !(s[i - 1] == '-' && s[i] == '-'))
  }

  /** The pattern, read off character by character. */
  predicate WellFormed(id: string) {
    id != "" && Tidy(id) && id[0] != '-' && id[|id| - 1] != '-'
  }

  lemma {:induction false} PatternIsWellFormed(words: seq<string>)
    requires words != [] && forall w <- words :: IsWord(w)
    ensures WellFormed(Join(words))
    decreases |words|
  {
    assert IsWord(words[0]);
    if |words| > 1 {
      PatternIsWellFormed(words[1..]);
    }
  }

  /** Splits at the first hyphen. */
  function Split(s: string): (words: seq<string>)
    ensures words != []
  {
    if s == "" then [""]
    else
      var rest := Split(s[1..]);
      if s[0] == '-' then [""] + rest else [[s[0]] + rest[0]] + rest[1..]
  }

  lemma {:induction false} JoinSplit(s: string)
    ensures Join(Split(s)) == s
    decreases |s|
  {
    if s != "" {
      JoinSplit(s[1..]);
      var rest := Split(s[1..]);
      assert Split(s)[1..] == if s[0] == '-' then rest else rest[1..];
    }
  }

  lemma {:induction false} SplitIntoWords(s: string)
    requires Tidy(s) && (s != "" ==> s[|s| - 1] != '-')
    ensures forall i :: 0 < i < |Split(s)| ==> IsWord(Split(s)[i])
    ensures forall i :: 0 <= i < |Split(s)[0]| ==> IsWordChar(Split(s)[0][i])
    ensures Split(s)[0] == "" <==> s == "" || s[0] == '-'
    decreases |s|
  {
    if s != "" {
      SplitIntoWords(s[1..]);
    }
  }

  /** The two readings of the pattern agree. */
  lemma PatternIffWellFormed(id: string)
    ensures InPattern(id) <==> WellFormed(id)
  {
    if InPattern(id) {
      var words :| words != [] && (forall w <- words :: IsWord(w)) && id == Join(words);
      PatternIsWellFormed(words);
    }
    if WellFormed(id) {
      JoinSplit(id);
      SplitIntoWords(id);
      assert forall w <- Split(id) :: IsWord(w);
    }
  }

  /** A valid ID has no colon, which execution keys rely on. */
  lemma ValidIdHasNoColon(id: string)
    requires ValidId(id)
    ensures ':' !in id
  {
    PatternIffWellFormed(id);
  }

  // The generator.

  function SkipRun(s: string): (rest: string)
    ensures |rest| <= |s| && (s != "" && !IsWordChar(s[0]) ==> |rest| < |s|)
    ensures rest != "" ==> IsWordChar(rest[0])
  {
    if s == "" || IsWordChar(s[0]) then s else SkipRun(s[1..])
  }

  /** replace(/[^a-z0-9]+/g, '-'). */
  function Collapse(s: string): string
    decreases |s|
  {
    if s == "" then ""
    else if IsWordChar(s[0]) then [s[0]] + Collapse(s[1..])
    else "-" + Collapse(SkipRun(s))
  }

  /** replace(/-$/, ''). */
  function TrimTail(s: string): string {
    if s != "" && s[|s| - 1] == '-' then s[..|s| - 1] else s
  }

  /** replace(/^-|-$/g, ''). */
  function TrimEnds(s: string): string {
    TrimTail(if s != "" && s[0] == '-' then s[1..] else s)
  }

  function Truncate(s: string): string {
    if |s| <= MAX_LENGTH then s else s[..MAX_LENGTH]
  }

  /** projectID after its Unicode folding. */
  function Slug(folded: string): string {
    TrimTail(Truncate(TrimEnds(Collapse(folded))))
  }

  /** projectID; fold is normalize('NFKD'), removal of marks, and lower-casing. */
  function ProjectId(fold: string -> string, name: string): string {
    Slug(fold(name))
  }

  /** The letters and digits of a text, in order. */
  function Letters(s: string): string {
    if s == "" then "" else (if IsWordChar(s[0]) then [s[0]] else "") + Letters(s[1..])
  }

  lemma {:induction false} LettersConcat(a: string, b: string)
    ensures Letters(a + b) == Letters(a) + Letters(b)
    decreases |a|
  {
    if a == "" {
      assert a + b == b;
    } else {
      assert (a + b)[1..] == a[1..] + b && (a + b)[0] == a[0];
      LettersConcat(a[1..], b);
      var first := if IsWordChar(a[0]) then [a[0]] else "";
      assert first + (Letters(a[1..]) + Letters(b)) == (first + Letters(a[1..])) + Letters(b);
    }
  }

  lemma {:induction false} SkipRunKeepsLetters(s: string)
    ensures Letters(SkipRun(s)) == Letters(s)
    decreases |s|
  {
    if s != "" && !IsWordChar(s[0]) {
      SkipRunKeepsLetters(s[1..]);
    }
  }

  lemma {:induction false} CollapseIsTidy(s: string)
    ensures Tidy(Collapse(s))
    ensures Collapse(s) != "" && Collapse(s)[0] == '-' ==> !IsWordChar(s[0])
    ensures Letters(Collapse(s)) == Letters(s)
    decreases |s|
  {
    if s != "" {
      var rest := if IsWordChar(s[0]) then s[1..] else SkipRun(s);
      CollapseIsTidy(rest);
      SkipRunKeepsLetters(s);
      assert Collapse(s)[1..] == Collapse(rest);
    }
  }

  lemma TrimTailKeepsLetters(s: string)
    ensures Letters(TrimTail(s)) == Letters(s)
  {
    if s != "" && s[|s| - 1] == '-' {
      LettersConcat(s[..|s| - 1], "-");
      assert s == s[..|s| - 1] + "-";
    }
  }

  lemma TrimEndsKeepsLetters(s: string)
    ensures Letters(TrimEnds(s)) == Letters(s)
  {
    TrimTailKeepsLetters(if s != "" && s[0] == '-' then s[1..] else s);
  }

  lemma TidyHasLetters(s: string)
    requires Tidy(s) && |s| > 1
    ensures Letters(s) != ""
  {
    assert !(s[0] == '-' && s[1] == '-');
    assert Letters(s[1..]) != "" || !IsWordChar(s[1]);
  }

  lemma TrimTailCleans(s: string)
    requires Tidy(s) && (s != "" ==> s[0] != '-')
    ensures TrimTail(s) == "" || WellFormed(TrimTail(s))
  {
    if |s| > 1 {
      assert !(s[|s| - 2] == '-' && s[|s| - 1] == '-');
    }
  }

  lemma TrimEndsCleans(s: string)
    requires Tidy(s)
    ensures TrimEnds(s) == "" || WellFormed(TrimEnds(s))
  {
    var tail := if s != "" && s[0] == '-' then s[1..] else s;
    assert |s| > 1 ==> !(s[0] == '-' && s[1] == '-');
    TrimTailCleans(tail);
  }

  lemma TruncateStaysTidy(s: string)
    requires Tidy(s) && (s != "" ==> s[0] != '-')
    ensures Tidy(Truncate(s)) && |Truncate(s)| <= MAX_LENGTH && (Truncate(s) != "" ==> Truncate(s)[0] != '-')
  {
  }

  /** Whatever the name, the browser proposes nothing or an ID the server accepts, also when
      the name is too long. */
  lemma SlugIsValidOrEmpty(folded: string)
    ensures Slug(folded) == "" || ValidId(Slug(folded))
  {
    var ends := TrimEnds(Collapse(folded));
    CollapseIsTidy(folded);
    TrimEndsCleans(Collapse(folded));
    TruncateStaysTidy(ends);
    TrimTailCleans(Truncate(ends));
    PatternIffWellFormed(Slug(folded));
  }

  /** It proposes nothing only for names without any letter or digit. */
  lemma SlugEmptyIffNoLetters(folded: string)
    ensures Slug(folded) == "" <==> Letters(folded) == ""
  {
    var collapsed := Collapse(folded);
    CollapseIsTidy(folded);
    if Letters(folded) == "" {
      if |collapsed| > 1 {
        TidyHasLetters(collapsed);
      }
    } else {
      TrimEndsKeepsLetters(collapsed);
      TrimEndsCleans(collapsed);
      FirstLetterSurvives(TrimEnds(collapsed));
    }
  }

  lemma FirstLetterSurvives(s: string)
    requires WellFormed(s)
    ensures TrimTail(Truncate(s)) != ""
  {
  }

  lemma LastLetterCounts(s: string)
    requires s != "" && IsWordChar(s[|s| - 1])
    ensures Letters(s) != ""
  {
    LettersConcat(s[..|s| - 1], s[|s| - 1..]);
    assert s == s[..|s| - 1] + s[|s| - 1..];
  }

  lemma CuttingLosesLetters(kept: string, lost: string)
    requires lost != "" && IsWordChar(lost[|lost| - 1])
    ensures Letters(kept) <= Letters(kept + lost) && Letters(kept) != Letters(kept + lost)
  {
    LettersConcat(kept, lost);
    LastLetterCounts(lost);
  }

  /** Truncation loses letters exactly when it takes effect. */
  lemma TruncateKeepsFirstLetters(s: string)
    requires s == "" || WellFormed(s)
    ensures Letters(Truncate(s)) <= Letters(s)
    ensures Letters(Truncate(s)) == Letters(s) <==> |s| <= MAX_LENGTH
  {
    if |s| > MAX_LENGTH {
      assert s == s[..MAX_LENGTH] + s[MAX_LENGTH..];
      CuttingLosesLetters(s[..MAX_LENGTH], s[MAX_LENGTH..]);
    }
  }

  /** The proposal spells the name: its letters are the first ones of the name, and all of them
      if and only if nothing had to be truncated. */
  lemma SlugSpellsName(folded: string)
    ensures Letters(Slug(folded)) <= Letters(folded)
    ensures Letters(Slug(folded)) == Letters(folded) <==> |TrimEnds(Collapse(folded))| <= MAX_LENGTH
  {
    CollapseIsTidy(folded);
    TrimEndsCleans(Collapse(folded));
    var ends := TrimEnds(Collapse(folded));
    TrimEndsKeepsLetters(Collapse(folded));
    TrimTailKeepsLetters(Truncate(ends));
    TruncateKeepsFirstLetters(ends);
  }

  // What the proposal says: the words of the name.

  /** The longest beginning of s that consists of letters and digits. */
  function FirstWord(s: string): (word: string)
    ensures |word| <= |s| && word == s[..|word|]
    ensures forall i :: 0 <= i < |word| ==> IsWordChar(word[i])
    ensures |word| < |s| ==> !IsWordChar(s[|word|])
  {
    if s == "" || !IsWordChar(s[0]) then "" else [s[0]] + FirstWord(s[1..])
  }

  /** The maximal runs of letters and digits of a text, in order. */
  function Words(s: string): seq<string>
    decreases |s|
  {
    if s == "" then []
    else if !IsWordChar(s[0]) then Words(s[1..])
    else [FirstWord(s)] + Words(s[|FirstWord(s)|..])
  }

  /** Words joined by single hyphens. */
  function Hyphenated(words: seq<string>): string {
    if words == [] then "" else Join(words)
  }

  lemma {:induction false} SkipRunKeepsWords(s: string)
    ensures Words(SkipRun(s)) == Words(s)
    decreases |s|
  {
    if s != "" && !IsWordChar(s[0]) {
      SkipRunKeepsWords(s[1..]);
    }
  }

  lemma {:induction false} CollapseCopiesWord(s: string, n: nat)
    requires n <= |s| && forall i :: 0 <= i < n ==> IsWordChar(s[i])
    ensures Collapse(s) == s[..n] + Collapse(s[n..])
    decreases n
  {
    if n > 0 {
      CollapseCopiesWord(s[1..], n - 1);
      assert s[1..][n - 1..] == s[n..] && s[..n] == [s[0]] + s[1..][..n - 1];
    }
  }

  lemma TrimTailAfter(a: string, b: string)
    requires b != ""
    ensures TrimTail(a + b) == a + TrimTail(b)
  {
  }

  lemma TrimTailKeepsWord(word: string)
    requires forall i :: 0 <= i < |word| ==> IsWordChar(word[i])
    ensures TrimTail(word) == word
  {
  }

  /** Text that does not begin with a separator collapses to its words and a last hyphen that
      is trimmed. */
  lemma {:induction false} CollapseHyphenates(s: string)
    requires s == "" || IsWordChar(s[0])
    ensures TrimTail(Collapse(s)) == Hyphenated(Words(s))
    ensures Collapse(s) == "" <==> Words(s) == []
    decreases |s|
  {
    if s != "" {
      var word := FirstWord(s);
      var rest := s[|word|..];
      CollapseCopiesWord(s, |word|);
      if rest == "" {
        TrimTailKeepsWord(word);
        assert Collapse(s) == word;
      } else {
        SkipRunKeepsWords(rest);
        CollapseHyphenates(SkipRun(rest));
        assert Collapse(rest) == "-" + Collapse(SkipRun(rest));
        WordGoesFirst(word, Collapse(SkipRun(rest)), Words(rest));
      }
    }
  }

  lemma WordGoesFirst(word: string, tail: string, words: seq<string>)
    requires TrimTail(tail) == Hyphenated(words) && (tail == "" <==> words == [])
    ensures TrimTail(word + ("-" + tail)) == Hyphenated([word] + words)
  {
    assert word + ("-" + tail) == (word + "-") + tail;
    if tail == "" {
      assert (word + "-")[..|word|] == word;
    } else {
      TrimTailAfter(word + "-", tail);
      assert ([word] + words)[1..] == words;
    }
  }

  /** The untruncated proposal is the words of the name, joined by single hyphens. */
  lemma ProposalHyphenatesWords(folded: string)
    ensures TrimEnds(Collapse(folded)) == Hyphenated(Words(folded))
  {
    SkipRunKeepsWords(folded);
    CollapseHyphenates(SkipRun(folded));
    if folded != "" && !IsWordChar(folded[0]) {
      assert Collapse(folded)[1..] == Collapse(SkipRun(folded));
    } else {
      assert SkipRun(folded) == folded;
    }
  }

  /** What the page proposes: the words of the name joined by hyphens, cut at 64 characters,
      and without the hyphen that such a cut may leave at the end. */
  lemma SlugIsItsWords(folded: string)
    ensures var whole := Hyphenated(Words(folded));
            var kept := if |whole| <= 64 then whole else whole[..64];
            Slug(folded) == if kept != "" && kept[|kept| - 1] == '-' then kept[..|kept| - 1] else kept
  {
    ProposalHyphenatesWords(folded);
  }

  lemma {:induction false} CollapseFixesTidy(s: string)
    requires Tidy(s)
    ensures Collapse(s) == s
    decreases |s|
  {
    if s != "" {
      CollapseFixesTidy(s[1..]);
      assert s[0] == '-' ==> SkipRun(s) == SkipRun(s[1..]) == s[1..];
    }
  }

  /** What is asked of Unicode folding: it leaves lower-case letters without marks, digits and
      hyphens alone, as normalization, removal of marks and lower-casing do. */
  ghost predicate FixesPlainTexts(fold: string -> string) {
    forall s :: (forall i :: 0 <= i < |s| ==> IsWordChar(s[i]) || s[i] == '-') ==> fold(s) == s
  }

  /** Every valid ID typed as a name is proposed unchanged. */
  lemma ValidIdsAreFixed(fold: string -> string, id: string)
    requires FixesPlainTexts(fold) && ValidId(id)
    ensures ProjectId(fold, id) == id
  {
    PatternIffWellFormed(id);
    assert fold(id) == id;
    SlugFixesValid(id);
  }

  lemma SlugFixesValid(id: string)
    requires WellFormed(id) && |id| <= MAX_LENGTH
    ensures Slug(id) == id
  {
    CollapseFixesTidy(id);
  }
}
