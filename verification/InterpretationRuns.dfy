/** Both caches at once: requests look up or compute a retrieval, store it, and interpret what they hold; a run projects
    to a run of either cache, so together they show as little as each. */
module InterpretationRuns {
  import opened Budget
  import opened Model
  import opened Pipeline
  import opened PromptTerms
  import opened Retrieval
  import opened RetrievalCache
  import opened Wrappers

  /** A request between its retrieval and its answer: the generation of its snapshot, its prompt, and the retrieval it
      holds, from the cache or computed. */
  datatype Request = Away | Holding(g: nat, prompt: string, retrieved: Retrieved)

  datatype Service = Service(models: seq<MachineModel>, retrievals: map<string, Retrieved>, interpretations: map<string, Interpretation>,
                             requests: seq<Request>)

  datatype Step =
    | TakeRetrieval(t: nat, g: nat, prompt: string)
    | KeepRetrieval(t: nat)
    | KeepRules(t: nat)
    | KeepProvided(t: nat, mode: string, provided: Interpretation)
    | Leave(t: nat)
    | Lose(retrievals: set<string>, interpretations: set<string>)
    | Change(m: MachineModel)

  function RetrievalSide(s: Service): Shared<Retrieved> {
    Shared(s.models, s.retrievals)
  }

  function InterpretationSide(s: Service): Shared<Interpretation> {
    Shared(s.models, s.interpretations)
  }

  /** What the rules make of the retrieval in hand, if the checks let it pass. */
  ghost function FromHand(m: MachineModel, prompt: string, r: Retrieved): Option<Interpretation> {
    var i := Interpreted(m, prompt, r);
    if SchemaAccepts(i) && ScopeAccepts(m, r, i) then Some(i) else None
  }

  /** The steps of the service. A request that finds no answer leaves, and so does one that has been served. */
  ghost predicate Taken(size: Size, o: Options, s: Service, s': Service, step: Step) {
    match step
    case TakeRetrieval(t, g, prompt) =>
      && t < |s.requests| && s.requests[t].Away? && g < |s.models|
      && (match Routed(size, o, RetrievalSide(s), g, prompt)
          case None => s' == s
          case Some(r) => s' == s.(requests := s.requests[t := Holding(g, prompt, r)]))
    case KeepRetrieval(t) =>
      && t < |s.requests| && s.requests[t].Holding? && s.requests[t].g < |s.models|
      && (var q := s.requests[t];
          s' == s.(retrievals := s.retrievals[CacheKey(s.models[q.g], q.g, o, "retrieval", q.prompt) := q.retrieved]))
    case KeepRules(t) =>
      && t < |s.requests| && s.requests[t].Holding? && s.requests[t].g < |s.models|
      && (var q := s.requests[t];
          match FromHand(s.models[q.g], q.prompt, q.retrieved)
          case None => s' == s
          case Some(i) => s' == s.(interpretations := s.interpretations[CacheKey(s.models[q.g], q.g, o, "rules", q.prompt) := i]))
    case KeepProvided(t, mode, provided) =>
      && t < |s.requests| && s.requests[t].Holding? && s.requests[t].g < |s.models| && mode in PROVIDERS
      && (var q := s.requests[t];
          s' == s.(interpretations := s.interpretations[CacheKey(s.models[q.g], q.g, o, mode, q.prompt) := provided]))
    case Leave(t) => t < |s.requests| && s' == s.(requests := s.requests[t := Away])
    case Lose(retrievals, interpretations) =>
      s' == s.(retrievals := s.retrievals - retrievals, interpretations := s.interpretations - interpretations)
    case Change(m) => ValidModel(m) && s' == s.(models := s.models + [m])
  }

  ghost predicate Starts(s: Service) {
    && s.retrievals == map[] && s.interpretations == map[] && (forall g :: 0 <= g < |s.models| ==> ValidModel(s.models[g]))
    && forall t :: 0 <= t < |s.requests| ==> s.requests[t] == Away
  }

  ghost predicate Run(size: Size, o: Options, states: seq<Service>, steps: seq<Step>) {
    && |states| == |steps| + 1 && Starts(states[0])
    && forall i :: 0 <= i < |steps| ==> Taken(size, o, states[i], states[i + 1], steps[i])
  }

  function RetrievalSides(states: seq<Service>): (r: seq<Shared<Retrieved>>)
    ensures |r| == |states|
  {
    seq(|states|, i requires 0 <= i < |states| => RetrievalSide(states[i]))
  }

  function InterpretationSides(states: seq<Service>): (r: seq<Shared<Interpretation>>)
    ensures |r| == |states|
  {
    seq(|states|, i requires 0 <= i < |states| => InterpretationSide(states[i]))
  }

  /** Whatever a request holds is what retrieval itself gives, on the model of its generation. */
  ghost predicate HandFresh(size: Size, o: Options, s: Service, q: Request) {
    q.Holding? ==> q.g < |s.models| && PromptAccepted(q.prompt)
                   && Retrieve(size, s.models[q.g], q.prompt, RuntimeLimits(o)) == Success(q.retrieved)
  }

  ghost predicate HandsFresh(size: Size, o: Options, s: Service) {
    forall t :: 0 <= t < |s.requests| ==> HandFresh(size, o, s, s.requests[t])
  }

  // One step, seen from either cache

  lemma StepOnRetrievals(size: Size, o: Options, s: Service, s': Service, step: Step)
    requires HandsFresh(size, o, s) && Taken(size, o, s, s', step)
    ensures CacheStep(RetrievalSetting(size, o), RetrievalSide(s), RetrievalSide(s'))
  {
    hide ValidModel, CacheKey, Retrieve, Routed, FromHand;
    var before, after := RetrievalSide(s), RetrievalSide(s');
    match step
    case KeepRetrieval(t) =>
      var q := s.requests[t];
      assert HandFresh(size, o, s, q);
      assert Answers(RetrievalSetting(size, o), "retrieval", before.models[q.g], q.prompt, q.retrieved);
      assert Stores(RetrievalSetting(size, o), before, after);
    case Change(m) => assert Publishes(before, after);
    case _ => assert Forgets(before, after);
  }

  lemma HandAnswers(size: Size, o: Options, s: Service, q: Request)
    requires HandFresh(size, o, s, q) && q.Holding?
    ensures FromHand(s.models[q.g], q.prompt, q.retrieved) == RulesAnswer(size, s.models[q.g], q.prompt, RuntimeLimits(o))
  {
    hide Retrieve, Interpreted, SchemaAccepts, ScopeAccepts;
  }

  lemma StepOnInterpretations(size: Size, o: Options, s: Service, s': Service, step: Step)
    requires HandsFresh(size, o, s) && Taken(size, o, s, s', step)
    ensures CacheStep(RulesSetting(size, o), InterpretationSide(s), InterpretationSide(s'))
  {
    hide ValidModel, CacheKey, Retrieve, Routed, FromHand, RulesAnswer;
    var before, after := InterpretationSide(s), InterpretationSide(s');
    var setting := RulesSetting(size, o);
    match step
    case KeepRules(t) =>
      var q := s.requests[t];
      assert HandFresh(size, o, s, q);
      HandAnswers(size, o, s, q);
      var i := FromHand(s.models[q.g], q.prompt, q.retrieved);
      if i.Some? {
        assert Answers(setting, "rules", before.models[q.g], q.prompt, i.value);
        assert Stores(setting, before, after);
      } else {
        assert Forgets(before, after);
      }
    case KeepProvided(t, mode, provided) =>
      var q := s.requests[t];
      ProvidedAnswers(size, o, mode, before.models[q.g], q.prompt, provided);
      assert Stores(setting, before, after);
    case Change(m) => assert Publishes(before, after);
    case _ => assert Forgets(before, after);
  }

  lemma ProvidedAnswers(size: Size, o: Options, mode: string, m: MachineModel, prompt: string, provided: Interpretation)
    requires mode in PROVIDERS
    ensures Answers(RulesSetting(size, o), mode, m, prompt, provided)
  {
    hide RulesAnswer;
  }

  /** What a request takes is fresh, if the lookup is; what it has taken stays fresh. */
  lemma StepKeepsHands(size: Size, o: Options, s: Service, s': Service, step: Step)
    requires HandsFresh(size, o, s) && Taken(size, o, s, s', step)
    requires step.TakeRetrieval? ==>
      Routed(size, o, RetrievalSide(s), step.g, step.prompt) == ToOption(Retrieve(size, s.models[step.g], step.prompt, RuntimeLimits(o)))
    ensures HandsFresh(size, o, s')
  {
    hide ValidModel, CacheKey, Retrieve, FromHand;
    forall t | 0 <= t < |s'.requests| ensures HandFresh(size, o, s', s'.requests[t]) {
      if t < |s.requests| && s'.requests[t] == s.requests[t] { assert HandFresh(size, o, s, s.requests[t]); }
    }
  }

  // Runs

  lemma SidesSnoc<V(!new)>(setting: Setting<V>, front: seq<Shared<V>>, last: Shared<V>)
    requires CacheRun(setting, front) && CacheStep(setting, front[|front| - 1], last)
    ensures CacheRun(setting, front + [last])
  {
    hide CacheStep, ValidModel;
    var states := front + [last];
    forall i | 0 < i < |states| ensures CacheStep(setting, states[i - 1], states[i]) {
      if i < |front| { assert front[i] == states[i]; }
    }
  }

  /** A run of the service is, seen from either cache alone, a run of that cache; and every retrieval in hand is fresh. */
  lemma {:induction false} RunProjects(size: Size, o: Options, states: seq<Service>, steps: seq<Step>)
    requires Run(size, o, states, steps)
    ensures CacheRun(RetrievalSetting(size, o), RetrievalSides(states))
    ensures CacheRun(RulesSetting(size, o), InterpretationSides(states))
    ensures HandsFresh(size, o, states[|states| - 1])
    decreases |states|
  {
    hide Taken, ValidModel, CacheStep, HandFresh, Routed, Retrieve, RulesSetting, RetrievalSetting;
    if |states| == 1 {
      NobodyHolds(size, o, states[0]);
    } else {
      var n := |steps| - 1;
      var front := states[..n + 1];
      RunProjects(size, o, front, steps[..n]);
      assert front[|front| - 1] == states[n];
      assert Taken(size, o, states[n], states[n + 1], steps[n]);
      if steps[n].TakeRetrieval? {
        TakenWithin(size, o, states[n], states[n + 1], steps[n]);
        RouteIsTransparent(size, o, RetrievalSides(front), n, steps[n].g, steps[n].prompt);
      }
      StepKeepsHands(size, o, states[n], states[n + 1], steps[n]);
      StepOnRetrievals(size, o, states[n], states[n + 1], steps[n]);
      StepOnInterpretations(size, o, states[n], states[n + 1], steps[n]);
      SidesSnoc(RetrievalSetting(size, o), RetrievalSides(front), RetrievalSide(states[n + 1]));
      SidesSnoc(RulesSetting(size, o), InterpretationSides(front), InterpretationSide(states[n + 1]));
      assert RetrievalSides(states) == RetrievalSides(front) + [RetrievalSide(states[n + 1])];
      assert InterpretationSides(states) == InterpretationSides(front) + [InterpretationSide(states[n + 1])];
    }
  }

  lemma NobodyHolds(size: Size, o: Options, s: Service)
    requires Starts(s)
    ensures HandsFresh(size, o, s)
  {
    hide ValidModel, Retrieve;
  }

  lemma TakenWithin(size: Size, o: Options, s: Service, s': Service, step: Step)
    requires Taken(size, o, s, s', step) && step.TakeRetrieval?
    ensures step.g < |s.models|
  {
    hide Routed;
  }

  lemma {:induction false} PrefixRuns(size: Size, o: Options, states: seq<Service>, steps: seq<Step>, n: nat)
    requires Run(size, o, states, steps) && n < |states|
    ensures Run(size, o, states[..n + 1], steps[..n])
  {
    hide Taken, Starts;
  }

  /** What a request under rules is given: the interpretation in the cache, or that of the retrieval it holds. */
  ghost function Given(o: Options, s: Service, q: Request): Option<Interpretation>
    requires q.Holding? && q.g < |s.models|
  {
    var key := CacheKey(s.models[q.g], q.g, o, "rules", q.prompt);
    if key in s.interpretations then Some(Served(s.interpretations[key], q.prompt))
    else match FromHand(s.models[q.g], q.prompt, q.retrieved)
      case None => None
      case Some(i) => Some(Served(i, q.prompt))
  }

  /** The two caches together are transparent: in every state of every run, with whatever other requests and evictions
      between its lookups, a request under rules is given what retrieval and rules without any cache give for its prompt
      on the model of its snapshot, or refused where they refuse; except that the answer may echo a prompt of the same
      spelling. */
  lemma CachesAreTransparent(size: Size, o: Options, states: seq<Service>, steps: seq<Step>, n: nat, t: nat) returns (first: string)
    requires Run(size, o, states, steps) && n < |states| && t < |states[n].requests| && states[n].requests[t].Holding?
    ensures states[n].requests[t].g < |states[n].models| && Normalized(first) == Normalized(states[n].requests[t].prompt)
    ensures var q := states[n].requests[t];
      match RulesAnswer(size, states[n].models[q.g], q.prompt, RuntimeLimits(o))
      case None => Given(o, states[n], q) == None
      case Some(i) => Given(o, states[n], q) == Some(Served(i, q.prompt).(prompt := first))
  {
    hide Starts, Taken, CacheRun, CacheKey, Retrieve, RulesAnswer, FromHand, ValidModel, Normalized;
    var s := states[n];
    var q := s.requests[t];
    PrefixRuns(size, o, states, steps, n);
    RunProjects(size, o, states[..n + 1], steps[..n]);
    assert states[..n + 1][n] == s;
    assert HandFresh(size, o, s, q);
    HandAnswers(size, o, s, q);
    first := q.prompt;
    if CacheKey(s.models[q.g], q.g, o, "rules", q.prompt) in s.interpretations {
      first := InterpretationHitIsFresh(size, o, InterpretationSides(states[..n + 1]), n, q.g, q.prompt);
    } else {
      EchoesItself(size, s.models[q.g], q.prompt, RuntimeLimits(o));
    }
  }

  lemma EchoesItself(size: Size, m: MachineModel, prompt: string, limits: Limits)
    ensures RulesAnswer(size, m, prompt, limits).Some? ==> RulesAnswer(size, m, prompt, limits).value.prompt == prompt
  {
    hide Retrieve, SchemaAccepts, ScopeAccepts;
  }
}
