/** The two places where a cache would answer what nothing else answers, at concrete inputs. */
module CacheExamples {
  import opened Budget
  import opened ExampleModels
  import opened Model
  import opened Pipeline
  import opened PromptTerms
  import opened Retrieval
  import opened RetrievalCache
  import opened RetrievalProperties
  import opened Sequences
  import opened Wrappers

  const LOCAL := Options("u", "m", 1, 2048, 1, false)

  /** Every object about this machine is small. */
  const FLAT: Size := (r: Retrieved) => 1024

  lemma BareRetrieves(prompt: string)
    requires PromptAccepted(prompt)
    ensures Retrieve(FLAT, BARE, prompt, RuntimeLimits(LOCAL)).Success?
  {
    hide ValidModel, TermsOf, ScopePhrase, Ranked, Eligible, AllEligible, Specific, ScopeOf, OrderedIds, Compacts, RoleHints, OrderedTags,
         TaskHints;
    BareValid();
    var whole := Assembled(BARE, TermsOf(prompt), ScopePhrase(prompt), RuntimeLimits(LOCAL));
    assert Fits(FLAT, whole);
  }

  /** A machine without tags hints at no role, so the rules answer every admitted prompt about it. */
  lemma BareAnswers(prompt: string)
    requires PromptAccepted(prompt)
    ensures RulesAnswer(FLAT, BARE, prompt, RuntimeLimits(LOCAL)).Some?
  {
    hide Retrieve, ValidModel, Assembled, TermsOf, ScopePhrase, Interpreted, RulesAnswer;
    BareValid();
    BareRetrieves(prompt);
    RulesAnswerExactly(FLAT, BARE, prompt, RuntimeLimits(LOCAL));
    if Interpreted(BARE, prompt, Retrieve(FLAT, BARE, prompt, RuntimeLimits(LOCAL)).value).ReadyFor? {
      ReadyKept(FLAT, BARE, prompt, RuntimeLimits(LOCAL));
      NoHints(prompt);
    }
  }

  lemma NoHints(prompt: string)
    ensures Assembled(BARE, TermsOf(prompt), ScopePhrase(prompt), RuntimeLimits(LOCAL)).roleHints == []
  {
    hide ValidModel, TermsOf, ScopePhrase, Assembled, SourceOf;
    var limits := RuntimeLimits(LOCAL);
    BareValid();
    NoSource(TermsOf(prompt), ScopePhrase(prompt), limits);
    HintsAreRoles(BARE, TermsOf(prompt), ScopePhrase(prompt), limits);
    PigeonHole(Assembled(BARE, TermsOf(prompt), ScopePhrase(prompt), limits).roleHints, []);
  }

  lemma NoSource(prompt: seq<string>, phrase: bool, limits: Limits)
    ensures SourceOf(BARE, prompt, phrase, limits) == []
  {
    hide Ranked, Specific, ScopeOf, Eligible;
  }

  /** A run in which a blank prompt is answered, and then the empty one from the cache. */
  lemma EmptyPromptHits() returns (states: seq<Shared<Retrieved>>)
    ensures CacheRun(RetrievalSetting(FLAT, LOCAL), states) && states != [] && states[|states| - 1].models == [BARE]
    ensures Looked(FLAT, LOCAL, states[|states| - 1], 0, "").Some?
    ensures Retrieve(FLAT, BARE, "", RuntimeLimits(LOCAL)) == Failure(BadPrompt)
  {
    hide Retrieve, CacheRun, Looked;
    BareRetrieves(" ");
    states := BlankAnswersEmpty(FLAT, LOCAL, BARE);
  }

  lemma LocalKey()
    ensures OptionsKey(LOCAL) == ['u', SEPARATOR, 'm', SEPARATOR, '1', SEPARATOR, '2', '0', '4', '8', SEPARATOR, '1', SEPARATOR, '0']
  {
    assert Decimal(2) == ['2'];
    assert Decimal(20) == ['2', '0'];
    assert Decimal(204) == ['2', '0', '4'];
    assert Decimal(2048) == ['2', '0', '4', '8'];
  }

  /** A run in which the rules answer a prompt, and then a lookup for the prompt x finds that answer under a name that no
      interpreter has. */
  lemma OddModeHits() returns (states: seq<Shared<Interpretation>>)
    ensures CacheRun(RulesSetting(FLAT, LOCAL), states) && states != [] && states[|states| - 1].models == [BARE]
    ensures OddMode(LOCAL, "") !in {"rules"} + PROVIDERS
    ensures CacheKey(BARE, 0, LOCAL, OddMode(LOCAL, ""), "x") in states[|states| - 1].cached
    ensures Normalized("x") != Normalized(OddPrompt(LOCAL, "", "x"))
  {
    hide CacheKey, CacheRun, OptionsKey, RulesAnswer, Spell;
    LocalKey();
    BareAnswers(OddPrompt(LOCAL, "", "x"));
    states := OddModeIsAnswered(FLAT, LOCAL, BARE, "", "x");
  }
}
