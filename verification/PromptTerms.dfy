/** What a prompt says: its words, the scope phrase, and the spelling under which it is cached. */
module PromptTerms {
  import opened Model
  import opened Sequences

  predicate Space(c: char) {
    c == ' ' || 9 as char <= c <= 13 as char
  }

  const SYNONYMS: map<string, string> := map[
    "one" := "1", "first" := "1", "two" := "2", "second" := "2", "three" := "3", "third" := "3",
    "four" := "4", "fourth" := "4", "five" := "5", "fifth" := "5",
    "warning" := "alarm", "warnings" := "alarm", "alert" := "alarm", "alerts" := "alarm", "trips" := "alarm",
    "reading" := "overview", "readings" := "overview", "measurements" := "overview", "dashboard" := "overview",
    "display" := "overview", "show" := "overview", "monitor" := "overview", "inspect" := "overview",
    "summary" := "overview", "temp" := "temperature"]

  function Canonical(term: string): string {
    if term in SYNONYMS then SYNONYMS[term] else term
  }

  const CANONICAL := (term: string) => Canonical(term)

  // Words: the maximal runs of letters and digits, lowered

  datatype Scan = Scan(words: seq<string>, current: string)

  function Flushed(s: Scan): seq<string> {
    if s.current == "" then s.words else s.words + [s.current]
  }

  function Step(s: Scan, c: char): Scan {
    if Alphanumeric(c) then s.(current := s.current + [LowerChar(c)]) else Scan(Flushed(s), "")
  }

  function ScanOf(text: string): Scan {
    if text == "" then Scan([], "") else Step(ScanOf(text[..|text| - 1]), text[|text| - 1])
  }

  function Words(text: string): seq<string> {
    Flushed(ScanOf(text))
  }

  /** Sorted, each once. */
  function Unique(s: seq<string>): (r: seq<string>)
    ensures forall t :: t in r <==> t in s
    ensures s != [] ==> r != [] && r[0] == s[0]
    decreases |s|
  {
    if |s| <= 1 then s
    else
      assert s == [s[0]] + s[1..];
      if s[0] == s[1] then Unique(s[1..]) else [s[0]] + Unique(s[1..])
  }

  const LEX := (a: string, b: string) => LexLe(a, b)

  function SortedTerms(words: seq<string>): seq<string> {
    Unique(SortBy(words, LEX))
  }

  function TermsOf(text: string): seq<string> {
    SortedTerms(Map(CANONICAL, Words(text)))
  }

  lemma ScanSnoc(text: string, c: char)
    ensures ScanOf(text + [c]) == Step(ScanOf(text), c)
  {
    assert (text + [c])[..|text|] == text;
  }

  method ScanWords(text: string) returns (words: seq<string>)
    ensures words == Map(CANONICAL, Words(text))
  {
    words := [];
    var current := "";
    for i := 0 to |text|
      invariant current == ScanOf(text[..i]).current && words == Map(CANONICAL, ScanOf(text[..i]).words)
    {
      ScanSnoc(text[..i], text[i]);
      assert text[..i + 1] == text[..i] + [text[i]];
      MapSnoc(CANONICAL, ScanOf(text[..i]).words, current);
      if Alphanumeric(text[i]) {
        var lowered := if 'A' <= text[i] <= 'Z' then (text[i] as int - 'A' as int + 'a' as int) as char else text[i];
        current := current + [lowered];
      } else if current != "" {
        words, current := words + [Canonical(current)], "";
      }
    }
    assert text[..|text|] == text;
    MapSnoc(CANONICAL, ScanOf(text).words, current);
    if current != "" {
      words := words + [Canonical(current)];
    }
  }

  method TermsFor(text: string) returns (terms: seq<string>)
    ensures terms == TermsOf(text)
  {
    var words := ScanWords(text);
    terms := SortedTerms(words);
  }

  /** The terms of a text are the canonical forms of its words, strictly ascending. */
  ghost predicate Ascending(s: seq<string>) {
    forall i, j :: 0 <= i < j < |s| ==> LexLe(s[i], s[j]) && s[i] != s[j]
  }

  lemma {:induction false} UniqueAscends(s: seq<string>)
    requires SortedBy(s, LEX)
    ensures Ascending(Unique(s))
    decreases |s|
  {
    if |s| > 1 {
      UniqueAscends(s[1..]);
      if s[0] != s[1] {
        var rest := Unique(s[1..]);
        forall j | 0 <= j < |rest| ensures LexLe(s[0], rest[j]) && s[0] != rest[j] {
          assert rest[j] in s[1..];
          var k :| 1 <= k < |s| && s[k] == rest[j];
          if k > 1 && s[k] == s[0] {
            LexTotal(s[0], s[1]);
          }
        }
      }
    }
  }

  lemma TermsAscend(text: string)
    ensures Ascending(TermsOf(text))
    ensures forall t :: t in TermsOf(text) <==> exists w :: w in Words(text) && Canonical(w) == t
  {
    var words := Map(CANONICAL, Words(text));
    LexOrder(LEX);
    SortSorts(words, LEX);
    UniqueAscends(SortBy(words, LEX));
    SameMembers(words, SortBy(words, LEX));
    forall w | w in Words(text) ensures Canonical(w) in words {
      var i :| 0 <= i < |words| && Words(text)[i] == w;
      assert words[i] == Canonical(w);
    }
    forall t | t in words ensures exists w :: w in Words(text) && Canonical(w) == t {
      var i :| 0 <= i < |words| && words[i] == t;
      assert Words(text)[i] in Words(text);
    }
  }

  // The cached spelling

  datatype Spelling = Spelling(text: string, pending: bool)

  function SpellStep(s: Spelling, c: char): Spelling {
    if Space(c) then s.(pending := s.text != "")
    else Spelling(s.text + (if s.pending then [' '] else []) + [LowerChar(c)], false)
  }

  function Spell(prompt: string): Spelling {
    if prompt == "" then Spelling("", false) else SpellStep(Spell(prompt[..|prompt| - 1]), prompt[|prompt| - 1])
  }

  function Normalized(prompt: string): string {
    Spell(prompt).text
  }

  /** A text without blanks and capitals is its own spelling. */
  lemma {:induction false} PlainSpelling(prompt: string)
    requires forall i :: 0 <= i < |prompt| ==> !Space(prompt[i]) && LowerChar(prompt[i]) == prompt[i]
    ensures Spell(prompt) == Spelling(prompt, false)
    decreases |prompt|
  {
    hide Space, LowerChar, SpellStep;
    if prompt != "" {
      var front, last := prompt[..|prompt| - 1], prompt[|prompt| - 1];
      PlainSpelling(front);
      PlainStep(front, last);
      assert front + [last] == prompt;
    }
  }

  lemma PlainStep(text: string, c: char)
    requires !Space(c) && LowerChar(c) == c
    ensures SpellStep(Spelling(text, false), c) == Spelling(text + [c], false)
  {
    hide Space, LowerChar;
    assert text + [] == text;
  }

  method NormalizedCachePrompt(prompt: string) returns (result: string)
    ensures result == Normalized(prompt)
  {
    result := "";
    var pending := false;
    for i := 0 to |prompt|
      invariant Spelling(result, pending) == Spell(prompt[..i])
    {
      var c := prompt[i];
      assert prompt[..i + 1][..i] == prompt[..i];
      if Space(c) {
        pending := result != "";
        continue;
      }
      if pending {
        result, pending := result + [' '], false;
      }
      result := result + [if 'A' <= c <= 'Z' then (c as int - 'A' as int + 'a' as int) as char else c];
    }
    assert prompt[..|prompt|] == prompt;
  }

  lemma LowerTwice(c: char)
    ensures Alphanumeric(LowerChar(c)) == Alphanumeric(c) && LowerChar(LowerChar(c)) == LowerChar(c)
    ensures Space(c) ==> !Alphanumeric(c)
  {
  }

  /** Reading the cached spelling gives the same words. */
  lemma {:induction false} SpellingKeepsWords(prompt: string)
    ensures var s := Spell(prompt);
      ScanOf(prompt) == (if s.pending then Scan(Flushed(ScanOf(s.text)), "") else ScanOf(s.text))
    decreases |prompt|
  {
    if prompt != "" {
      var front, c := prompt[..|prompt| - 1], prompt[|prompt| - 1];
      SpellingKeepsWords(front);
      LowerTwice(c);
      var s := Spell(front);
      if !Space(c) {
        ScanSnoc(s.text, ' ');
        ScanSnoc(s.text + (if s.pending then [' '] else []), LowerChar(c));
        assert s.text + [] == s.text;
      }
    }
  }

  lemma NormalizedKeepsWords(prompt: string)
    ensures Words(Normalized(prompt)) == Words(prompt)
  {
    SpellingKeepsWords(prompt);
  }

  // The scope phrase

  function Padded(prompt: string): string {
    [' '] + seq(|prompt|, i requires 0 <= i < |prompt| => if Alphanumeric(prompt[i]) then LowerChar(prompt[i]) else ' ') + [' ']
  }

  predicate FoundAt(text: string, part: string, k: nat) {
    k + |part| <= |text| && text[k..k + |part|] == part
  }

  predicate Contains(text: string, part: string) {
    exists k :: 0 <= k <= |text| && FoundAt(text, part, k)
  }

  predicate ScopePhrase(prompt: string) {
    Contains(Padded(prompt), " for ") || Contains(Padded(prompt), " on ") || Contains(Padded(prompt), " from ")
    || Contains(Padded(prompt), " at ")
  }

  method Find(text: string, part: string) returns (found: bool)
    ensures found == Contains(text, part)
  {
    for k := 0 to |text| + 1
      invariant forall j :: 0 <= j < k ==> !FoundAt(text, part, j)
    {
      if FoundAt(text, part, k) {
        return true;
      }
    }
    found := false;
  }

  method HasScopePhrase(prompt: string) returns (r: bool)
    ensures r == ScopePhrase(prompt)
  {
    var normalized := " ";
    for i := 0 to |prompt|
      invariant normalized == Padded(prompt)[..i + 1]
    {
      normalized := normalized + [if Alphanumeric(prompt[i]) then LowerChar(prompt[i]) else ' '];
    }
    normalized := normalized + [' '];
    assert normalized == Padded(prompt);
    r := Find(normalized, " for ");
    if !r { r := Find(normalized, " on "); }
    if !r { r := Find(normalized, " from "); }
    if !r { r := Find(normalized, " at "); }
  }

  /** A word stands at a place of the text: a run of letters and digits that nothing extends. */
  ghost predicate StandsAt(text: string, word: string, i: nat) {
    && i + |word| <= |text|
    && (i == 0 || !Alphanumeric(text[i - 1])) && (i + |word| == |text| || !Alphanumeric(text[i + |word|]))
    && forall p :: i <= p < i + |word| ==> Alphanumeric(text[p]) && LowerChar(text[p]) == word[p - i]
  }

  /** The unfinished word at the end of the text. */
  lemma {:induction false} CurrentIs(text: string)
    ensures var c := ScanOf(text).current; |c| <= |text| && StandsAt(text, c, |text| - |c|)
    decreases |text|
  {
    if text != "" {
      CurrentIs(text[..|text| - 1]);
    }
  }

  lemma StandsOnce(text: string, a: string, i: nat, b: string)
    requires StandsAt(text, a, i) && a != "" && i + |a| == |text|
    requires |b| <= |text| && StandsAt(text, b, |text| - |b|)
    ensures a == b
  {
    assert |a| == |b|;
    forall k | 0 <= k < |a| ensures a[k] == b[k] {
      var c := text[i + k];
    }
  }

  lemma SameStand(front: string, text: string, word: string, i: nat)
    requires |text| == |front| + 1 && text[..|front|] == front
    requires i + |word| < |front| || (i + |word| == |front| && !Alphanumeric(text[|front|]))
    ensures StandsAt(front, word, i) <==> StandsAt(text, word, i)
  {
    assert forall p :: 0 <= p < |front| ==> text[p] == front[p];
  }

  ghost predicate Finished(text: string, word: string) {
    exists i :: 0 <= i && i + |word| < |text| && StandsAt(text, word, i)
  }

  lemma {:induction false} WordsStand(text: string, word: string)
    requires word != ""
    ensures word in ScanOf(text).words <==> Finished(text, word)
    decreases |text|
  {
    if text != "" {
      var n := |text| - 1;
      var front := text[..n];
      WordsStand(front, word);
      CurrentIs(front);
      var c := ScanOf(front).current;
      forall i: nat | i + |word| < n ensures StandsAt(front, word, i) <==> StandsAt(text, word, i) {
        SameStand(front, text, word, i);
      }
      if Alphanumeric(text[n]) {
        forall i: nat | i + |word| == n ensures !StandsAt(text, word, i) {}
      } else {
        forall i: nat | i + |word| == n ensures StandsAt(front, word, i) <==> StandsAt(text, word, i) {
          SameStand(front, text, word, i);
        }
        if c == word { assert StandsAt(text, word, n - |c|); }
        if i: nat :| i + |word| == n && StandsAt(front, word, i) { StandsOnce(front, word, i, c); }
      }
    }
  }

  lemma WordIffStands(text: string, word: string)
    requires word != ""
    ensures word in Words(text) <==> exists i :: 0 <= i <= |text| && StandsAt(text, word, i)
  {
    WordsStand(text, word);
    CurrentIs(text);
    var c := ScanOf(text).current;
    if i: nat :| i + |word| == |text| && StandsAt(text, word, i) { StandsOnce(text, word, i, c); }
  }

  lemma PhraseIffWord(prompt: string, word: string)
    requires word != "" && forall k :: 0 <= k < |word| ==> 'a' <= word[k] <= 'z'
    ensures Contains(Padded(prompt), [' '] + word + [' ']) <==> word in Words(prompt)
  {
    var text, part := Padded(prompt), [' '] + word + [' '];
    WordIffStands(prompt, word);
    forall k | 0 <= k <= |prompt| ensures FoundAt(text, part, k) <==> StandsAt(prompt, word, k) {
      FoundIffStands(prompt, word, k);
    }
  }

  lemma FoundIffStands(prompt: string, word: string, k: nat)
    requires k <= |prompt| && word != "" && forall j :: 0 <= j < |word| ==> 'a' <= word[j] <= 'z'
    ensures FoundAt(Padded(prompt), [' '] + word + [' '], k) <==> StandsAt(prompt, word, k)
  {
    var text, part := Padded(prompt), [' '] + word + [' '];
    var n := |word|;
    if FoundAt(text, part, k) {
      forall j | 0 <= j < n + 2 ensures text[k + j] == part[j] {
        assert text[k..k + |part|][j] == part[j];
      }
      assert text[k + 0] == ' ' && text[k + (n + 1)] == ' ';
      forall p | k <= p < k + n ensures Alphanumeric(prompt[p]) && LowerChar(prompt[p]) == word[p - k] {
        assert text[k + (p - k + 1)] == part[p - k + 1];
        assert part[p - k + 1] == word[p - k];
      }
    }
    if StandsAt(prompt, word, k) {
      forall j | 0 <= j < n + 2 ensures text[k + j] == part[j] {
        if 0 < j < n + 1 { var c := prompt[k + j - 1]; }
      }
      assert text[k..k + |part|] == part;
    }
  }

  /** The phrase is found exactly when one of the four prepositions is a word of the prompt. */
  lemma PhraseIsWord(prompt: string)
    ensures ScopePhrase(prompt) <==> exists w :: w in ["for", "on", "from", "at"] && w in Words(prompt)
  {
    PhraseIffWord(prompt, "for");
    PhraseIffWord(prompt, "on");
    PhraseIffWord(prompt, "from");
    PhraseIffWord(prompt, "at");
    assert [' '] + "for" + [' '] == " for " && [' '] + "on" + [' '] == " on ";
    assert [' '] + "from" + [' '] == " from " && [' '] + "at" + [' '] == " at ";
  }

  /** Prompts cached under one spelling say the same to retrieval. */
  lemma SameSpelling(p: string, q: string)
    requires Normalized(p) == Normalized(q)
    ensures TermsOf(p) == TermsOf(q) && (ScopePhrase(p) <==> ScopePhrase(q))
  {
    NormalizedKeepsWords(p);
    NormalizedKeepsWords(q);
    PhraseIsWord(p);
    PhraseIsWord(q);
  }
}
