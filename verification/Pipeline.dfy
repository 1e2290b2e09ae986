/** From a prompt to a screen by rules alone: the task that a retrieval suggests, its checks, and the view it resolves to. */
module Pipeline {
  import opened Budget
  import opened BudgetProperties
  import opened Model
  import opened PromptTerms
  import opened Retrieval
  import opened RetrievalCache
  import opened RetrievalProperties
  import opened Screen
  import opened Sequences
  import opened Wrappers

  const MAX_ROLE: nat := 128
  const MAX_CLARIFIED: nat := 32

  datatype Message = ChooseTask | Ambiguous | Unmatched
  datatype Offer = Offer(assetId: string, name: string)
  datatype Interpretation = Clarification(prompt: string, message: Message, offers: seq<Offer>)
                          | ReadyFor(prompt: string, offers: seq<Offer>, task: Task)

  function KindOf(hint: string): TaskKind {
    if hint == "overview" then TaskKind.Overview else if hint == "alarms" then TaskKind.Alarms else Unsupported(hint)
  }

  const OFFER := (c: Candidate) => Offer(c.assetId, c.name)

  function TaskFor(m: MachineModel, prompt: string, r: Retrieved): Task
    requires r.taskHints != []
  {
    Task(KindOf(r.taskHints[0]), Some(m.modelId), m.revision, prompt,
         if |r.eligible| == 1 then Some(r.eligible[0]) else None, if r.roleHints != [] then Some(r.roleHints) else None)
  }

  function Interpreted(m: MachineModel, prompt: string, r: Retrieved): Interpretation {
    var offers := Map(OFFER, r.candidates);
    if r.clarify then Clarification(prompt, if |r.eligible| > 1 then Ambiguous else Unmatched, offers)
    else if |r.taskHints| != 1 then Clarification(prompt, ChooseTask, offers)
    else ReadyFor(prompt, offers, TaskFor(m, prompt, r))
  }

  method RuleInterpretation(m: MachineModel, prompt: string, r: Retrieved) returns (result: Interpretation)
    ensures result == Interpreted(m, prompt, r)
  {
    var offers := [];
    for i := 0 to |r.candidates|
      invariant offers == Map(OFFER, r.candidates[..i])
    {
      MapSnoc(OFFER, r.candidates[..i], r.candidates[i]);
      assert r.candidates[..i + 1] == r.candidates[..i] + [r.candidates[i]];
      offers := offers + [Offer(r.candidates[i].assetId, r.candidates[i].name)];
    }
    assert r.candidates[..|r.candidates|] == r.candidates;
    result := Clarification(prompt, ChooseTask, offers);
    if r.clarify {
      result := result.(message := if |r.eligible| > 1 then Ambiguous else Unmatched);
      return;
    }
    if |r.taskHints| != 1 {
      return;
    }
    var task := Task(KindOf(r.taskHints[0]), Some(m.modelId), m.revision, prompt, None, None);
    if |r.eligible| == 1 {
      task := task.(anchor := Some(r.eligible[0]));
    }
    if r.roleHints != [] {
      task := task.(roles := Some(r.roleHints));
    }
    result := ReadyFor(prompt, offers, task);
  }

  predicate RolesBounded(roles: seq<string>) {
    0 < |roles| <= MAX_ROLES && forall k :: 0 <= k < |roles| ==> 0 < |roles[k]| <= MAX_ROLE
  }

  /** The schema every interpretation must meet. */
  predicate SchemaAccepts(i: Interpretation) {
    && |i.prompt| <= MAX_REQUEST
    && match i
       case Clarification(_, _, offers) => |offers| <= MAX_CLARIFIED
       case ReadyFor(_, _, task) =>
         && !task.kind.Unsupported? && (task.anchor.Some? ==> task.anchor.value != "")
         && (task.modelId.Some? ==> task.modelId.value != "")
         && (task.roles.Some? ==> RolesBounded(task.roles.value))
         && task.modelRevision <= MAX_REVISION && |task.originalRequest| <= MAX_REQUEST
  }

  ghost predicate TagWithRole(r: Retrieved, role: string) {
    exists k :: 0 <= k < |r.tags| && r.tags[k].role == role
  }

  /** Whether the evidence of the retrieval allows the interpretation. */
  ghost predicate ScopeAccepts(m: MachineModel, r: Retrieved, i: Interpretation) {
    i.ReadyFor? ==>
      && (|r.taskHints| == 1 ==> i.task.kind == KindOf(r.taskHints[0]))
      && !r.clarify
      && (match i.task.anchor
          case None => !r.specific
          case Some(id) => id in AllIds(m) ==> id in r.eligible)
      && (match i.task.roles
          case None => r.roleHints == []
          case Some(roles) =>
            && (forall k :: 0 <= k < |roles| ==> TagWithRole(r, roles[k]))
            && forall k :: 0 <= k < |r.roleHints| ==> r.roleHints[k] in roles)
  }

  // What a successful retrieval guarantees

  /** The parts of the assembled object that the pipeline relies on. */
  lemma AssembledFacts(m: MachineModel, prompt: seq<string>, phrase: bool, limits: Limits)
    requires ValidModel(m)
    ensures var r := Assembled(m, prompt, phrase, limits);
      && r.clarify == (r.eligibleCount > 1 || (r.specific && r.eligible == []))
      && |r.eligible| <= r.eligibleCount && SetOf(r.eligible) <= AllIds(m)
      && |r.taskHints| <= 1 && (r.taskHints == [] || r.taskHints[0] == "overview" || r.taskHints[0] == "alarms")
  {
    hide ValidModel, Ranked, Specific, Threshold, Compacts, RoleHints, OrderedTags, ScopeOf, AllEligible, Eligible, Filter;
    EligibleDeclared(m, prompt, limits.candidates);
    EligibleCounted(m, prompt, limits.candidates);
  }

  lemma EligibleCounted(m: MachineModel, prompt: seq<string>, limit: nat)
    ensures |Eligible(Ranked(m, prompt), limit)| <= |AllEligible(Ranked(m, prompt), limit)|
  {
    hide Ranked, Eligible;
  }

  /** A retrieval that asks for no clarification has lost neither a role nor the sole eligible asset. */
  lemma NotClarified(size: Size, m: MachineModel, prompt: string, limits: Limits)
    requires Retrieve(size, m, prompt, limits).Success? && !Retrieve(size, m, prompt, limits).value.clarify
    ensures var r := Retrieve(size, m, prompt, limits).value;
      var whole := Assembled(m, TermsOf(prompt), ScopePhrase(prompt), limits);
      && TrimmedFrom(whole, r) && !whole.clarify && r.roleHints == whole.roleHints && r.eligible == whole.eligible
      && (|r.eligible| == 1 || (r.eligible == [] && !r.specific))
      && (|whole.roleHints| <= limits.tags ==> TagsFollowHints(r))
  {
    hide Assembled, Fits, InOrder, FlagsTell, TermsOf, ScopePhrase, ValidModel, TagsFollowHints, EligibleShown;
    var whole := Assembled(m, TermsOf(prompt), ScopePhrase(prompt), limits);
    AssembledFacts(m, TermsOf(prompt), ScopePhrase(prompt), limits);
    BudgetKeepsIdentity(size, whole);
    if |whole.roleHints| <= limits.tags { AssembledFollows(m, TermsOf(prompt), ScopePhrase(prompt), limits); }
  }

  /** What any successful retrieval shows: it is within its budget, and every eligible asset it names is in its scope. */
  lemma RetrievedShowsEligible(size: Size, m: MachineModel, prompt: string, limits: Limits)
    requires Retrieve(size, m, prompt, limits).Success? && limits.candidates <= limits.assets
    ensures var r := Retrieve(size, m, prompt, limits).value;
      && EligibleShown(r) && size(r) <= limits.bytes && Budget.Tokens(size(r)) <= limits.tokens
      && r.eligible <= AllEligible(Ranked(m, TermsOf(prompt)), limits.candidates)
  {
    hide Assembled, InOrder, FlagsTell, TermsOf, ScopePhrase, ValidModel, TagsFollowHints, EligibleShown, Ranked;
    var whole := Assembled(m, TermsOf(prompt), ScopePhrase(prompt), limits);
    AssembledShows(m, TermsOf(prompt), ScopePhrase(prompt), limits);
    BudgetKeepsIdentity(size, whole);
    AssembledEligible(m, TermsOf(prompt), ScopePhrase(prompt), limits);
  }

  lemma AssembledEligible(m: MachineModel, prompt: seq<string>, phrase: bool, limits: Limits)
    ensures Assembled(m, prompt, phrase, limits).eligible <= AllEligible(Ranked(m, prompt), limits.candidates)
    ensures Assembled(m, prompt, phrase, limits).limits == limits
  {
    hide Ranked, Eligible, Specific, Threshold, Compacts, RoleHints, OrderedTags, ScopeOf, Filter;
  }

  /** The evidence always allows the interpretation made from it. */
  lemma RulesPassScope(size: Size, m: MachineModel, prompt: string, limits: Limits)
    requires Retrieve(size, m, prompt, limits).Success?
    requires |Assembled(m, TermsOf(prompt), ScopePhrase(prompt), limits).roleHints| <= limits.tags
    ensures var r := Retrieve(size, m, prompt, limits).value; ScopeAccepts(m, r, Interpreted(m, prompt, r))
  {
    hide Assembled, TermsOf, ScopePhrase, ValidModel, TrimmedFrom, Retrieve;
    var r := Retrieve(size, m, prompt, limits).value;
    if !r.clarify {
      NotClarified(size, m, prompt, limits);
      forall k | 0 <= k < |r.roleHints| ensures TagWithRole(r, r.roleHints[k]) {
        assert r.tags[k].role == r.roleHints[k];
      }
    }
  }

  lemma HintsAreRoles(m: MachineModel, prompt: seq<string>, phrase: bool, limits: Limits)
    requires ValidModel(m)
    ensures var hints := Assembled(m, prompt, phrase, limits).roleHints;
      && Distinct(hints) && (forall h :: h in hints ==> 0 < |h| <= MAX_STRING)
      && forall h :: h in hints ==> exists t :: t in SourceOf(m, prompt, phrase, limits) && t.role == h
  {
    hide Ranked, Specific, Threshold, Compacts, RoleHints, OrderedTags, ScopeOf, AllEligible, Eligible, TaskHints, AssetFields,
         AlarmFields, RelationshipFields, ById, RoleMatched;
    var source := SourceOf(m, prompt, phrase, limits);
    RoleHintsExactly(source, prompt);
    forall h | h in RoleHints(source, prompt) ensures 0 < |h| <= MAX_STRING {
      var t :| t in source && t.role == h;
      var i :| 0 <= i < |m.tags| && m.tags[i] == t;
      assert TagFields(m.tags[i], AssetIds(m));
    }
  }

  lemma RetrieveAccepts(size: Size, m: MachineModel, prompt: string, limits: Limits)
    requires Retrieve(size, m, prompt, limits).Success?
    ensures PromptAccepted(prompt) && ValidModel(m) && m.modelId != "" && m.revision <= MAX_REVISION
  {
    hide Assembled, Fitted, AssetFields, TagFields, AlarmFields, RelationshipFields, ById;
  }

  /** A task made from a retrieval without need of clarification, field by field. */
  lemma ReadyTask(size: Size, x: Index, prompt: string, limits: Limits)
    requires ValidIndex(x) && Retrieve(size, x.model, prompt, limits).Success?
    requires Interpreted(x.model, prompt, Retrieve(size, x.model, prompt, limits).value).ReadyFor?
    ensures var r := Retrieve(size, x.model, prompt, limits).value;
      var task := Interpreted(x.model, prompt, r).task;
      && !task.kind.Unsupported? && task.modelId == Some(x.model.modelId) && task.modelRevision == x.model.revision
      && task.originalRequest == prompt
      && (task.anchor.Some? ==> task.anchor.value in x.assets && task.anchor.value != "")
      && Distinct(r.roleHints) && (forall k :: 0 <= k < |r.roleHints| ==> 0 < |r.roleHints[k]| <= MAX_STRING)
      && task.roles == if r.roleHints == [] then None else Some(r.roleHints)
  {
    hide Assembled, TermsOf, ScopePhrase, ValidIndex, Retrieve, ValidModel, SourceOf;
    var m := x.model;
    var r := Retrieve(size, m, prompt, limits).value;
    RetrieveAccepts(size, m, prompt, limits);
    NotClarified(size, m, prompt, limits);
    AssembledFacts(m, TermsOf(prompt), ScopePhrase(prompt), limits);
    HintsAreRoles(m, TermsOf(prompt), ScopePhrase(prompt), limits);
    if r.eligible != [] {
      assert r.eligible[0] in SetOf(r.eligible);
      DeclaredIndexed(x, r.eligible[0]);
    }
  }

  /** The task made from a retrieval resolves, on the very model it was retrieved from, exactly if the roles are few enough. */
  lemma RulesResolve(size: Size, x: Index, prompt: string, limits: Limits)
    requires ValidIndex(x) && Retrieve(size, x.model, prompt, limits).Success?
    requires Interpreted(x.model, prompt, Retrieve(size, x.model, prompt, limits).value).ReadyFor?
    ensures var r := Retrieve(size, x.model, prompt, limits).value;
      Resolved(x, Interpreted(x.model, prompt, r).task).Success? <==> |r.roleHints| <= MAX_ROLES
  {
    hide Retrieve, ValidIndex, ValidModel, Distinct, OverviewView, AlarmsView, Interpreted;
    RetrieveAccepts(size, x.model, prompt, limits);
    ReadyTask(size, x, prompt, limits);
  }

  lemma DeclaredIndexed(x: Index, id: string)
    requires ValidIndex(x) && id in AllIds(x.model)
    ensures id in x.assets && id != ""
  {
    hide ValidIndex;
    AssetFacts(x);
  }

  /** The schema accepts it too, exactly if the roles are also short enough for it. */
  lemma RulesPassSchema(size: Size, x: Index, prompt: string, limits: Limits)
    requires ValidIndex(x) && Retrieve(size, x.model, prompt, limits).Success?
    requires Interpreted(x.model, prompt, Retrieve(size, x.model, prompt, limits).value).ReadyFor?
    ensures var r := Retrieve(size, x.model, prompt, limits).value;
      SchemaAccepts(Interpreted(x.model, prompt, r)) <==>
      |r.roleHints| <= MAX_ROLES && forall k :: 0 <= k < |r.roleHints| ==> |r.roleHints[k]| <= MAX_ROLE
  {
    hide Retrieve, ValidIndex, ValidModel, Distinct, KindOf;
    RetrieveAccepts(size, x.model, prompt, limits);
    ReadyTask(size, x, prompt, limits);
  }

  lemma SourceInScope(m: MachineModel, prompt: seq<string>, phrase: bool, limits: Limits, t: Tag, task: Task, h: string)
    requires t in SourceOf(m, prompt, phrase, limits) && t.role == h
    requires var whole := Assembled(m, prompt, phrase, limits);
      && task.anchor == (if |whole.eligible| == 1 then Some(whole.eligible[0]) else None)
      && (|whole.eligible| == 1 || whole.eligible == [])
      && h in whole.roleHints && task.roles == Some(whole.roleHints)
    ensures t in m.tags && InScope(task, t.assetId, t.role)
  {
    hide Ranked, Specific, Threshold, Compacts, RoleHints, OrderedTags, ScopeOf, AllEligible, Eligible, TaskHints;
  }

  /** An overview made by rules shows every measurement that was asked for. */
  lemma OverviewCoversRoles(size: Size, x: Index, prompt: string, limits: Limits, h: string)
    requires ValidIndex(x) && Retrieve(size, x.model, prompt, limits).Success?
    requires var r := Retrieve(size, x.model, prompt, limits).value;
      && Interpreted(x.model, prompt, r).ReadyFor? && Interpreted(x.model, prompt, r).task.kind.Overview?
      && |r.roleHints| <= MAX_ROLES && h in r.roleHints
    ensures var r := Retrieve(size, x.model, prompt, limits).value;
      var resolved := Resolved(x, Interpreted(x.model, prompt, r).task);
      resolved.Success? && exists c :: c in resolved.value.components && c.role == h
  {
    hide Assembled, TermsOf, ScopePhrase, ById, ValidModel, TrimmedFrom, Retrieve, AlarmsView, TagsOf, SourceOf, TaskAccepted, KindFor, AssetName;
    var m := x.model;
    var r := Retrieve(size, m, prompt, limits).value;
    var task := Interpreted(m, prompt, r).task;
    RulesResolve(size, x, prompt, limits);
    NotClarified(size, m, prompt, limits);
    HintsAreRoles(m, TermsOf(prompt), ScopePhrase(prompt), limits);
    var t :| t in SourceOf(m, TermsOf(prompt), ScopePhrase(prompt), limits) && t.role == h;
    SourceInScope(m, TermsOf(prompt), ScopePhrase(prompt), limits, t, task, h);
    var effective := task.(modelId := Some(x.model.modelId));
    OverviewMembers(x, effective);
    var tags := TagsOf(x, effective, OverviewAssets(x, effective));
    assert InScope(effective, t.assetId, t.role);
    var i :| 0 <= i < |tags| && tags[i] == t;
    var c := Resolved(x, task).value.components[i];
    assert c == ComponentFor(x, t);
  }

  lemma {:induction false} TrimmedCandidates(size: Size, r: Retrieved)
    ensures |Trimmed(size, r).candidates| <= |r.candidates|
    decreases Load(r)
  {
    hide Load, Next, Fits;
    if !Fits(size, r) && Round(r).Some? {
      RoundLightens(r);
      RoundCandidates(r);
      TrimmedCandidates(size, Round(r).value);
    }
  }

  lemma RoundCandidates(r: Retrieved)
    requires Round(r).Some?
    ensures |Round(r).value.candidates| <= |r.candidates|
  {
    hide Next;
    NextIsRemovable(r);
    if Next(r) == Some(ACandidate) { DropLastLength(r.candidates, SPARE_CANDIDATE); }
  }

  lemma CandidatesBounded(size: Size, m: MachineModel, prompt: string, limits: Limits)
    requires Retrieve(size, m, prompt, limits).Success?
    ensures |Retrieve(size, m, prompt, limits).value.candidates| <= limits.candidates
  {
    hide Trimmed, Fits, ValidModel, TermsOf, ScopePhrase, Ranked, Eligible, AllEligible, Specific, ScopeOf, OrderedIds, Compacts, RoleHints,
         OrderedTags, Filter, TaskHints;
    TrimmedCandidates(size, Assembled(m, TermsOf(prompt), ScopePhrase(prompt), limits));
  }

  // The cache of interpretations

  /** What the runtime hands out: the request of the current caller goes into the task. */
  function Served(i: Interpretation, prompt: string): Interpretation {
    match i case Clarification(_, _, _) => i case ReadyFor(_, _, task) => i.(task := task.(originalRequest := prompt))
  }

  ghost function RulesAnswer(size: Size, m: MachineModel, prompt: string, limits: Limits): Option<Interpretation> {
    match Retrieve(size, m, prompt, limits)
    case Failure(_) => None
    case Success(r) =>
      var i := Interpreted(m, prompt, r);
      if SchemaAccepts(i) && ScopeAccepts(m, r, i) then Some(i) else None
  }

  /** The rules answer every prompt that retrieval answers, unless their task would name too many roles or too long ones. */
  lemma RulesAnswerExactly(size: Size, m: MachineModel, prompt: string, limits: Limits)
    requires limits.candidates <= MAX_CLARIFIED && MAX_ROLES <= limits.tags
    ensures RulesAnswer(size, m, prompt, limits).Some? <==>
            && Retrieve(size, m, prompt, limits).Success?
            && (var r := Retrieve(size, m, prompt, limits).value;
                Interpreted(m, prompt, r).ReadyFor? ==>
                  |r.roleHints| <= MAX_ROLES && forall k :: 0 <= k < |r.roleHints| ==> |r.roleHints[k]| <= MAX_ROLE)
  {
    hide Retrieve, ValidModel, ScopeAccepts, SchemaAccepts, Interpreted, Assembled, TermsOf, ScopePhrase, IndexOf, TrimmedFrom;
    if Retrieve(size, m, prompt, limits).Success? {
      var r := Retrieve(size, m, prompt, limits).value;
      var i := Interpreted(m, prompt, r);
      RetrieveAccepts(size, m, prompt, limits);
      if i.ReadyFor? {
        var x := AnyIndex(m);
        RulesPassSchema(size, x, prompt, limits);
        if SchemaAccepts(i) {
          ReadyKept(size, m, prompt, limits);
          RulesPassScope(size, m, prompt, limits);
        }
      } else {
        CandidatesBounded(size, m, prompt, limits);
        ClarificationPasses(m, prompt, r);
      }
    }
  }

  lemma AnyIndex(m: MachineModel) returns (x: Index)
    requires ValidModel(m)
    ensures ValidIndex(x) && x.model == m
  {
    hide ValidModel;
    x := IndexOf(m, Digest(b => "", d => ""));
  }

  lemma ReadyKept(size: Size, m: MachineModel, prompt: string, limits: Limits)
    requires Retrieve(size, m, prompt, limits).Success?
    requires Interpreted(m, prompt, Retrieve(size, m, prompt, limits).value).ReadyFor?
    ensures Retrieve(size, m, prompt, limits).value.roleHints == Assembled(m, TermsOf(prompt), ScopePhrase(prompt), limits).roleHints
  {
    hide Retrieve, ValidModel, Assembled, TermsOf, ScopePhrase, TrimmedFrom;
    NotClarified(size, m, prompt, limits);
  }

  lemma ClarificationPasses(m: MachineModel, prompt: string, r: Retrieved)
    requires Interpreted(m, prompt, r).Clarification? && |r.candidates| <= MAX_CLARIFIED && |prompt| <= MAX_REQUEST
    ensures SchemaAccepts(Interpreted(m, prompt, r)) && ScopeAccepts(m, r, Interpreted(m, prompt, r))
  {
  }

  /** The other names under which interpretations are stored: those a request may give, and that of a remote provider,
      which stands for an empty one. */
  const PROVIDERS: set<string> := {"llama", "llama.cpp", "openai-compatible"}

  ghost function RulesSetting(size: Size, o: Options): Setting<Interpretation> {
    Setting(o, "rules", PROVIDERS, (m: MachineModel, prompt: string) => RulesAnswer(size, m, prompt, RuntimeLimits(o)))
  }

  lemma RulesPlain(size: Size, o: Options)
    ensures var s := RulesSetting(size, o); Plain({s.mode} + s.others)
  {
  }

  lemma SameSpellingSameInterpretation(size: Size, m: MachineModel, p: string, q: string, limits: Limits)
    requires Normalized(p) == Normalized(q) && PromptAccepted(p) && PromptAccepted(q) && RulesAnswer(size, m, p, limits).Some?
    ensures RulesAnswer(size, m, q, limits).Some?
    ensures Served(RulesAnswer(size, m, p, limits).value, q)
         == Served(RulesAnswer(size, m, q, limits).value, q).(prompt := p)
  {
    hide Retrieve, Normalized;
    SameSpellingSameAnswer(size, m, p, q, limits);
  }

  /** A rules interpretation found in the cache, which also holds those of the providers, equals the recomputed one for a
      prompt within bounds, except that it echoes the prompt of whoever asked first. */
  lemma InterpretationHitIsFresh(size: Size, o: Options, states: seq<Shared<Interpretation>>, n: nat, g: nat, q: string)
    returns (first: string)
    requires CacheRun(RulesSetting(size, o), states) && n < |states| && g < |states[n].models| && PromptAccepted(q)
    requires CacheKey(states[n].models[g], g, o, "rules", q) in states[n].cached
    ensures Normalized(first) == Normalized(q)
    ensures var hit := states[n].cached[CacheKey(states[n].models[g], g, o, "rules", q)];
      var again := RulesAnswer(size, states[n].models[g], q, RuntimeLimits(o));
      again.Some? && Served(hit, q) == Served(again.value, q).(prompt := first)
  {
    hide CacheKey, Normalized, CacheRun, Assembled, Fitted, ScopeAccepts, SchemaAccepts, Interpreted, ValidModel, Plain;
    var m := states[n].models[g];
    RulesPlain(size, o);
    first := HitExplained(RulesSetting(size, o), states, n, g, q);
    SameSpellingSameInterpretation(size, m, first, q, RuntimeLimits(o));
  }

  predicate PlainText(s: string) {
    forall i :: 0 <= i < |s| ==> !Space(s[i]) && LowerChar(s[i]) == s[i]
  }

  /** A mode that no interpreter has, and that a lookup does not exclude. */
  function OddMode(o: Options, a: string): string {
    "rules" + ([SEPARATOR] + (OptionsKey(o) + ([SEPARATOR] + a)))
  }

  function OddPrompt(o: Options, a: string, b: string): string {
    a + ([SEPARATOR] + (OptionsKey(o) + [SEPARATOR] + b))
  }

  lemma OddSpelling(o: Options, a: string, b: string)
    requires PlainText(a) && PlainText(b) && PlainText(OptionsKey(o))
    ensures Normalized(OddPrompt(o, a, b)) == a + ([SEPARATOR] + KeyTail(o, b))
  {
    hide OptionsKey;
    PlainSpelling(b);
    PlainSpelling(OddPrompt(o, a, b));
  }

  /** The restriction to modes without a separator is needed: if a prompt that spells out the options has been answered by
      the rules, a lookup under a mode made of the rest of its key finds that answer, for another prompt. */
  lemma OddModeIsAnswered(size: Size, o: Options, m: MachineModel, a: string, b: string) returns (states: seq<Shared<Interpretation>>)
    requires PlainText(a) && PlainText(b) && PlainText(OptionsKey(o))
    requires RulesAnswer(size, m, OddPrompt(o, a, b), RuntimeLimits(o)).Some?
    ensures CacheRun(RulesSetting(size, o), states) && states != [] && states[|states| - 1].models == [m]
    ensures OddMode(o, a) !in {"rules"} + PROVIDERS
    ensures CacheKey(m, 0, o, OddMode(o, a), b) in states[|states| - 1].cached
    ensures Normalized(b) != Normalized(OddPrompt(o, a, b))
  {
    hide CacheKey, Retrieve, Interpreted, ScopeAccepts, SchemaAccepts, OptionsKey, OddPrompt, Spell;
    var s := RulesSetting(size, o);
    var p := OddPrompt(o, a, b);
    var answer := RulesAnswer(size, m, p, RuntimeLimits(o)).value;
    RetrieveAccepts(size, m, p, RuntimeLimits(o));
    OddSpelling(o, a, b);
    KeysCollide(m, 0, o, "rules", a, p, b);
    states := [Shared([m], map[]), Shared([m], map[CacheKey(m, 0, o, "rules", p) := answer])];
    assert Answers(s, "rules", states[0].models[0], p, answer);
    assert Stores(s, states[0], states[1]);
    assert |OddMode(o, a)| > 5 && OddMode(o, a)[5] == SEPARATOR;
  }
}
