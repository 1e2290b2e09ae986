/** The cache of retrievals: a key that tells models, generations and prompts apart, and hits that equal recomputation. */
module RetrievalCache {
  import opened Budget
  import opened Model
  import opened PromptTerms
  import opened Retrieval
  import opened Wrappers

  ghost function Retrieve(size: Size, m: MachineModel, prompt: string, limits: Limits): Result<Retrieved, RetrievalError> {
    if !ValidModel(m) then Failure(BadModel)
    else if !PromptAccepted(prompt) then Failure(BadPrompt)
    else if !LimitsAccepted(limits) then Failure(BadLimits)
    else Fitted(size, Assembled(m, TermsOf(prompt), ScopePhrase(prompt), limits))
  }

  /** Prompts of one cached spelling, both within bounds, are answered alike on every model. */
  lemma SameSpellingSameAnswer(size: Size, m: MachineModel, p: string, q: string, limits: Limits)
    requires Normalized(p) == Normalized(q) && PromptAccepted(p) && PromptAccepted(q)
    ensures Retrieve(size, m, p, limits) == Retrieve(size, m, q, limits)
  {
    hide TermsOf, ScopePhrase, Assembled, Fitted, ValidModel;
    SameSpelling(p, q);
  }

  // The key

  const SEPARATOR: char := 31 as char

  datatype Options = Options(url: string, model: string, timeout: nat, contextBytes: nat, outputTokens: nat, remote: bool)

  function RuntimeLimits(o: Options): Limits {
    Limits(12, 16, 64, 128, 128, o.contextBytes, (o.contextBytes + 3) / 4)
  }

  function Digit(n: nat): char
    requires n < 10
  {
    ('0' as int + n) as char
  }

  function Decimal(n: nat): string {
    if n < 10 then [Digit(n)] else Decimal(n / 10) + [Digit(n % 10)]
  }

  function ValueOfDigits(s: string): int {
    if s == "" then 0 else 10 * ValueOfDigits(s[..|s| - 1]) + (s[|s| - 1] as int - '0' as int)
  }

  lemma {:induction false} DecimalReads(n: nat)
    ensures ValueOfDigits(Decimal(n)) == n && SEPARATOR !in Decimal(n)
    decreases n
  {
    if n >= 10 {
      DecimalReads(n / 10);
      assert Decimal(n)[..|Decimal(n)| - 1] == Decimal(n / 10);
    }
  }

  lemma DecimalInjective(a: nat, b: nat)
    requires Decimal(a) == Decimal(b)
    ensures a == b
  {
    DecimalReads(a);
    DecimalReads(b);
  }

  function OptionsKey(o: Options): string {
    o.url + [SEPARATOR] + o.model + [SEPARATOR] + Decimal(o.timeout) + [SEPARATOR] + Decimal(o.contextBytes) + [SEPARATOR]
    + Decimal(o.outputTokens) + [SEPARATOR] + Decimal(if o.remote then 1 else 0)
  }

  /** The end of a key: what follows the field of the mode is fixed but for the spelling. */
  function KeyTail(o: Options, prompt: string): string {
    OptionsKey(o) + [SEPARATOR] + Normalized(prompt)
  }

  function CacheKey(m: MachineModel, generation: nat, o: Options, mode: string, prompt: string): string {
    m.modelId + ([SEPARATOR] + (Decimal(m.revision) + ([SEPARATOR] + (Decimal(generation) + ([SEPARATOR]
    + (mode + ([SEPARATOR] + KeyTail(o, prompt))))))))
  }

  /** A field that cannot hold the separator is told from what follows it. */
  lemma FieldSplits(a: string, x: string, b: string, y: string)
    requires SEPARATOR !in a && SEPARATOR !in b && a + ([SEPARATOR] + x) == b + ([SEPARATOR] + y)
    ensures a == b && x == y
  {
    var s, t := a + ([SEPARATOR] + x), b + ([SEPARATOR] + y);
    assert s[|a|] == SEPARATOR && t[|b|] == SEPARATOR;
    forall i | 0 <= i < |a| ensures s[i] != SEPARATOR { assert a[i] in a; }
    forall i | 0 <= i < |b| ensures t[i] != SEPARATOR { assert b[i] in b; }
    assert |a| == |b|;
    assert a == s[..|a|] && b == t[..|b|];
    assert x == s[|a| + 1..] && y == t[|b| + 1..];
  }

  lemma IdentityPlain(s: string)
    requires Identity(s)
    ensures SEPARATOR !in s
  {
  }

  /** The longer mode goes on, after a separator, with what the options and the spelling of the other key make up. */
  ghost predicate Collides(o: Options, a: string, p: string, b: string, q: string) {
    exists u :: b == a + ([SEPARATOR] + u) && KeyTail(o, p) == u + ([SEPARATOR] + KeyTail(o, q))
  }

  lemma ModesSplit(o: Options, a: string, p: string, b: string, q: string)
    requires |a| <= |b|
    ensures a + ([SEPARATOR] + KeyTail(o, p)) == b + ([SEPARATOR] + KeyTail(o, q)) <==>
            (a == b && Normalized(p) == Normalized(q)) || Collides(o, a, p, b, q)
  {
    hide Normalized, OptionsKey;
    var s, t := a + ([SEPARATOR] + KeyTail(o, p)), b + ([SEPARATOR] + KeyTail(o, q));
    if s == t {
      assert s[..|a|] == a && t[..|b|] == b && t[|b| + 1..] == KeyTail(o, q) && s[|a| + 1..] == KeyTail(o, p);
      if |a| == |b| {
        TailTells(o, p, q);
      } else {
        var u := b[|a| + 1..];
        assert b[|a|] == s[|a|] == SEPARATOR;
        assert b == a + ([SEPARATOR] + u);
        assert KeyTail(o, p) == t[|a| + 1..] == u + ([SEPARATOR] + KeyTail(o, q));
      }
    }
    if u :| b == a + ([SEPARATOR] + u) && KeyTail(o, p) == u + ([SEPARATOR] + KeyTail(o, q)) {
      assert s == a + ([SEPARATOR] + (u + ([SEPARATOR] + KeyTail(o, q)))) == t;
    }
  }

  lemma TailTells(o: Options, p: string, q: string)
    ensures KeyTail(o, p) == KeyTail(o, q) <==> Normalized(p) == Normalized(q)
  {
    hide Normalized, OptionsKey;
    var n := |OptionsKey(o)| + 1;
    assert KeyTail(o, p)[n..] == Normalized(p) && KeyTail(o, q)[n..] == Normalized(q);
  }

  lemma CollidesLonger(o: Options, a: string, p: string, b: string, q: string)
    requires Collides(o, a, p, b, q)
    ensures |a| < |b| && SEPARATOR in b
  {
    hide KeyTail;
    var u :| b == a + ([SEPARATOR] + u) && KeyTail(o, p) == u + ([SEPARATOR] + KeyTail(o, q));
    assert b[|a|] == SEPARATOR;
  }

  /** With the options of one process, two keys are one exactly if model, revision, generation, mode and spelling are the
      same, or one mode holds a separator and goes on like the other key. */
  lemma KeyDetermines(m1: MachineModel, g1: nat, mode1: string, p1: string, m2: MachineModel, g2: nat, mode2: string, p2: string,
                      o: Options)
    requires ValidModel(m1) && ValidModel(m2)
    ensures CacheKey(m1, g1, o, mode1, p1) == CacheKey(m2, g2, o, mode2, p2) <==>
            m1.modelId == m2.modelId && m1.revision == m2.revision && g1 == g2
            && ((mode1 == mode2 && Normalized(p1) == Normalized(p2))
                || Collides(o, mode1, p1, mode2, p2) || Collides(o, mode2, p2, mode1, p1))
    ensures SEPARATOR !in mode2 ==> !Collides(o, mode1, p1, mode2, p2)
    ensures SEPARATOR !in mode1 ==> !Collides(o, mode2, p2, mode1, p1)
  {
    hide Normalized, KeyTail, Decimal, Identity, Collides;
    assert Identity(m1.modelId) && Identity(m2.modelId);
    IdentityPlain(m1.modelId);
    IdentityPlain(m2.modelId);
    DecimalReads(m1.revision);
    DecimalReads(m2.revision);
    DecimalReads(g1);
    DecimalReads(g2);
    if Collides(o, mode1, p1, mode2, p2) { CollidesLonger(o, mode1, p1, mode2, p2); }
    if Collides(o, mode2, p2, mode1, p1) { CollidesLonger(o, mode2, p2, mode1, p1); }
    if |mode1| <= |mode2| { ModesSplit(o, mode1, p1, mode2, p2); } else { ModesSplit(o, mode2, p2, mode1, p1); }
    if CacheKey(m1, g1, o, mode1, p1) == CacheKey(m2, g2, o, mode2, p2) {
      var c1, c2 := mode1 + ([SEPARATOR] + KeyTail(o, p1)), mode2 + ([SEPARATOR] + KeyTail(o, p2));
      var b1, b2 := Decimal(g1) + ([SEPARATOR] + c1), Decimal(g2) + ([SEPARATOR] + c2);
      FieldSplits(m1.modelId, Decimal(m1.revision) + ([SEPARATOR] + b1), m2.modelId, Decimal(m2.revision) + ([SEPARATOR] + b2));
      FieldSplits(Decimal(m1.revision), b1, Decimal(m2.revision), b2);
      FieldSplits(Decimal(g1), c1, Decimal(g2), c2);
    }
  }

  /** The family of keys that collide: a prompt that spells out the options and a second spelling, and a mode that takes
      the options over. */
  lemma KeysCollide(m: MachineModel, g: nat, o: Options, mode: string, a: string, p: string, q: string)
    requires ValidModel(m) && Normalized(p) == a + ([SEPARATOR] + KeyTail(o, q))
    ensures CacheKey(m, g, o, mode, p) == CacheKey(m, g, o, mode + ([SEPARATOR] + (OptionsKey(o) + ([SEPARATOR] + a))), q)
  {
    hide Normalized, OptionsKey, ValidModel, CacheKey;
    var u := OptionsKey(o) + ([SEPARATOR] + a);
    var longer := mode + ([SEPARATOR] + u);
    assert KeyTail(o, p) == u + ([SEPARATOR] + KeyTail(o, q));
    assert Collides(o, mode, p, longer, q);
    KeyDetermines(m, g, mode, p, m, g, longer, q, o);
  }

  // Threads around one cache: each answers from a snapshot, and may store its answer at any later time

  /** models[g] is the model of generation g; the last one is active. */
  datatype Shared<V> = Shared(models: seq<MachineModel>, cached: map<string, V>)

  /** One map for entries of several modes: those of one mode are computed from model and prompt, those of the others,
      which depend on the outside, may be anything. */
  datatype Setting<!V> = Setting(options: Options, mode: string, others: set<string>, compute: (MachineModel, string) -> Option<V>)

  ghost predicate Plain(modes: set<string>) {
    forall mode :: mode in modes ==> SEPARATOR !in mode
  }

  ghost predicate Answers<V(!new)>(s: Setting<V>, mode: string, m: MachineModel, p: string, value: V) {
    if mode == s.mode then s.compute(m, p) == Some(value) else mode in s.others
  }

  ghost predicate Stores<V(!new)>(s: Setting<V>, before: Shared<V>, after: Shared<V>) {
    exists g: nat, mode, p, value :: g < |before.models| && Answers(s, mode, before.models[g], p, value) && after ==
      before.(cached := before.cached[CacheKey(before.models[g], g, s.options, mode, p) := value])
  }

  /** Eviction, expiry and clearing. */
  ghost predicate Forgets<V(!new)>(before: Shared<V>, after: Shared<V>) {
    after.models == before.models && after.cached.Keys <= before.cached.Keys
    && forall k :: k in after.cached ==> after.cached[k] == before.cached[k]
  }

  ghost predicate Publishes<V(!new)>(before: Shared<V>, after: Shared<V>) {
    after.cached == before.cached
    && exists m :: ValidModel(m) && after.models == before.models + [m]
  }

  ghost predicate CacheStep<V(!new)>(s: Setting<V>, before: Shared<V>, after: Shared<V>) {
    Stores(s, before, after) || Forgets(before, after) || Publishes(before, after)
  }

  ghost predicate CacheRun<V(!new)>(s: Setting<V>, states: seq<Shared<V>>) {
    && states != [] && states[0].cached == map[] && (forall g :: 0 <= g < |states[0].models| ==> ValidModel(states[0].models[g]))
    && forall i {:trigger states[i]} :: 0 < i < |states| ==> CacheStep(s, states[i - 1], states[i])
  }

  ghost predicate Explained<V(!new)>(s: Setting<V>, shared: Shared<V>, key: string, value: V) {
    exists g: nat, mode, p :: g < |shared.models| && key == CacheKey(shared.models[g], g, s.options, mode, p)
                              && Answers(s, mode, shared.models[g], p, value)
  }

  ghost predicate CacheInvariant<V(!new)>(s: Setting<V>, shared: Shared<V>) {
    && (forall g :: 0 <= g < |shared.models| ==> ValidModel(shared.models[g]))
    && forall k :: k in shared.cached ==> Explained(s, shared, k, shared.cached[k])
  }

  lemma StoreExplains<V(!new)>(s: Setting<V>, before: Shared<V>, after: Shared<V>, k: string)
    requires Stores(s, before, after) && k in after.cached && !(k in before.cached && after.cached[k] == before.cached[k])
    ensures Explained(s, after, k, after.cached[k])
  {
    hide CacheKey, Answers;
  }

  lemma StillExplained<V(!new)>(s: Setting<V>, before: Shared<V>, after: Shared<V>, k: string, value: V)
    requires Explained(s, before, k, value) && before.models <= after.models
    ensures Explained(s, after, k, value)
  {
    hide CacheKey, Answers;
    var g: nat, mode, p :| g < |before.models| && k == CacheKey(before.models[g], g, s.options, mode, p)
                           && Answers(s, mode, before.models[g], p, value);
    assert after.models[g] == before.models[g];
  }

  lemma CacheStepKeeps<V(!new)>(s: Setting<V>, before: Shared<V>, after: Shared<V>)
    requires CacheInvariant(s, before) && CacheStep(s, before, after)
    ensures CacheInvariant(s, after)
  {
    hide CacheKey, ValidModel, Answers, Explained;
    forall k | k in after.cached ensures Explained(s, after, k, after.cached[k]) {
      if k in before.cached && after.cached[k] == before.cached[k] {
        StillExplained(s, before, after, k, before.cached[k]);
      } else {
        StoreExplains(s, before, after, k);
      }
    }
  }

  lemma {:induction false} CacheRunKeeps<V(!new)>(s: Setting<V>, states: seq<Shared<V>>, n: nat)
    requires CacheRun(s, states) && n < |states|
    ensures CacheInvariant(s, states[n])
    decreases n
  {
    if n > 0 {
      CacheRunKeeps(s, states, n - 1);
      CacheStepKeeps(s, states[n - 1], states[n]);
    }
  }

  /** At any point of any run, for a lookup in any mode at all: what is found was stored for the same generation, in this
      mode and under this spelling, unless the mode that was asked for holds a separator and collides. */
  lemma HitTraced<V(!new)>(s: Setting<V>, states: seq<Shared<V>>, n: nat, g: nat, asked: string, q: string) returns (mode: string, p: string)
    requires CacheRun(s, states) && n < |states| && Plain({s.mode} + s.others) && g < |states[n].models|
    requires CacheKey(states[n].models[g], g, s.options, asked, q) in states[n].cached
    ensures Answers(s, mode, states[n].models[g], p, states[n].cached[CacheKey(states[n].models[g], g, s.options, asked, q)])
    ensures (mode == asked && Normalized(p) == Normalized(q)) || Collides(s.options, mode, p, asked, q)
    ensures SEPARATOR !in asked ==> mode == asked && Normalized(p) == Normalized(q)
  {
    hide CacheKey, ValidModel, Normalized, CacheRun, Collides;
    CacheRunKeeps(s, states, n);
    var shared := states[n];
    var key := CacheKey(shared.models[g], g, s.options, asked, q);
    assert Explained(s, shared, key, shared.cached[key]);
    var h: nat;
    h, mode, p :| h < |shared.models| && key == CacheKey(shared.models[h], h, s.options, mode, p)
                  && Answers(s, mode, shared.models[h], p, shared.cached[key]);
    KeyDetermines(shared.models[h], h, mode, p, shared.models[g], g, asked, q, s.options);
  }

  /** Whatever is found under a key of the computed mode was computed for the same generation, from a prompt with the same
      cached spelling: an answer stored late, after the model changed, is never served to the new generation, and an
      answer of another mode never to this one. */
  lemma HitExplained<V(!new)>(s: Setting<V>, states: seq<Shared<V>>, n: nat, g: nat, q: string) returns (p: string)
    requires CacheRun(s, states) && n < |states| && Plain({s.mode} + s.others) && g < |states[n].models|
    requires CacheKey(states[n].models[g], g, s.options, s.mode, q) in states[n].cached
    ensures Normalized(p) == Normalized(q)
    ensures s.compute(states[n].models[g], p) == Some(states[n].cached[CacheKey(states[n].models[g], g, s.options, s.mode, q)])
  {
    hide CacheKey, ValidModel, Normalized, CacheRun, Collides;
    var mode;
    mode, p := HitTraced(s, states, n, g, s.mode, q);
  }

  ghost function ToOption<T, E>(r: Result<T, E>): Option<T> {
    match r case Success(v) => Some(v) case Failure(_) => None
  }

  // Retrievals

  ghost function RetrievalSetting(size: Size, o: Options): Setting<Retrieved> {
    Setting(o, "retrieval", {}, (m: MachineModel, prompt: string) => ToOption(Retrieve(size, m, prompt, RuntimeLimits(o))))
  }

  lemma RetrievalPlain(size: Size, o: Options)
    ensures var s := RetrievalSetting(size, o); Plain({s.mode} + s.others)
  {
  }

  /** A retrieval hit equals recomputation exactly when the prompt asked about is within bounds; a prompt out of bounds
      would be answered from the cache where recomputation refuses it. */
  lemma RetrievalHitIsFresh(size: Size, o: Options, states: seq<Shared<Retrieved>>, n: nat, g: nat, q: string)
    requires CacheRun(RetrievalSetting(size, o), states) && n < |states| && g < |states[n].models|
    requires CacheKey(states[n].models[g], g, o, "retrieval", q) in states[n].cached
    ensures var hit := states[n].cached[CacheKey(states[n].models[g], g, o, "retrieval", q)];
      Retrieve(size, states[n].models[g], q, RuntimeLimits(o)) == Success(hit) <==> PromptAccepted(q)
  {
    hide CacheKey, ValidModel, Normalized, CacheRun, Assembled, Fitted, Plain;
    var m := states[n].models[g];
    RetrievalPlain(size, o);
    var p := HitExplained(RetrievalSetting(size, o), states, n, g, q);
    if PromptAccepted(q) { SameSpellingSameAnswer(size, m, p, q, RuntimeLimits(o)); }
  }

  /** The retrieval as the runtime answers it, from the cache or computed. */
  ghost function Looked(size: Size, o: Options, shared: Shared<Retrieved>, g: nat, q: string): Option<Retrieved>
    requires g < |shared.models|
  {
    var key := CacheKey(shared.models[g], g, o, "retrieval", q);
    if key in shared.cached then Some(shared.cached[key])
    else ToOption(Retrieve(size, shared.models[g], q, RuntimeLimits(o)))
  }

  /** As the route answers it: it rejects a prompt that is empty or too long before anything is looked up. */
  ghost function Routed(size: Size, o: Options, shared: Shared<Retrieved>, g: nat, q: string): Option<Retrieved>
    requires g < |shared.models|
  {
    if q == "" || |q| > MAX_REQUEST then None else Looked(size, o, shared, g, q)
  }

  /** Behind the route the cache never shows: in every state of every run, for every prompt, the answer is the one that
      retrieval itself gives. */
  lemma RouteIsTransparent(size: Size, o: Options, states: seq<Shared<Retrieved>>, n: nat, g: nat, q: string)
    requires CacheRun(RetrievalSetting(size, o), states) && n < |states| && g < |states[n].models|
    ensures Routed(size, o, states[n], g, q) == ToOption(Retrieve(size, states[n].models[g], q, RuntimeLimits(o)))
  {
    hide CacheKey, ValidModel, CacheRun, Assembled, Fitted;
    var key := CacheKey(states[n].models[g], g, o, "retrieval", q);
    if PromptAccepted(q) && key in states[n].cached { RetrievalHitIsFresh(size, o, states, n, g, q); }
  }

  /** Without the route it would show: once a blank prompt has been answered, the empty one is answered too. */
  lemma BlankAnswersEmpty(size: Size, o: Options, m: MachineModel) returns (states: seq<Shared<Retrieved>>)
    requires Retrieve(size, m, " ", RuntimeLimits(o)).Success?
    ensures CacheRun(RetrievalSetting(size, o), states) && states != [] && states[|states| - 1].models == [m]
    ensures var last := states[|states| - 1];
      Looked(size, o, last, 0, "").Some? && Retrieve(size, m, "", RuntimeLimits(o)) == Failure(BadPrompt)
  {
    hide ValidModel, Assembled, Fitted;
    var answer := Retrieve(size, m, " ", RuntimeLimits(o)).value;
    var key := CacheKey(m, 0, o, "retrieval", " ");
    states := [Shared([m], map[]), Shared([m], map[key := answer])];
    assert Answers(RetrievalSetting(size, o), "retrieval", states[0].models[0], " ", answer);
    assert Stores(RetrievalSetting(size, o), states[0], states[1]);
    BlankIsEmpty();
  }

  lemma BlankIsEmpty()
    ensures Normalized(" ") == Normalized("")
  {
    assert " "[..0] == "";
  }
}
