/** The bounded part of the model that is relevant to one request: what it is made of and how it is assembled. */
module Retrieval {
  import opened Model
  import opened PromptTerms
  import opened Sequences
  import opened Wrappers

  const MAX_REQUEST: nat := 8192
  const MIN_BYTES: nat := 1024
  const MAX_BYTES: nat := 65536
  const MIN_TOKENS: nat := 256
  const MAX_TOKENS: nat := 16384
  const STRONG: nat := 80
  const WEAKEST: nat := 12

  datatype Limits = Limits(candidates: nat, assets: nat, relationships: nat, tags: nat, alarms: nat, bytes: nat, tokens: nat)

  datatype Evidence = SharedTerm(term: string) | DeclaredId | DeclaredName | DeclaredAlias
  datatype Candidate = Candidate(assetId: string, name: string, kind: string, score: nat, eligible: bool, reasons: seq<Evidence>)
  datatype CompactAsset = CompactAsset(id: string, name: string, kind: string, aliases: Option<seq<string>>)
  datatype ScopeTag = ScopeTag(id: string, assetId: string, name: string, role: string, dataType: string, unit: string)
  datatype ScopeAlarm = ScopeAlarm(id: string, assetId: string, name: string, tagId: string, severity: string)
  datatype Truncation = Truncation(candidates: bool, assets: bool, relationships: bool, tags: bool, alarms: bool, roles: bool,
                                   budget: bool)

  datatype Retrieved = Retrieved(modelId: string, modelRevision: nat, promptTerms: seq<string>, taskHints: seq<string>,
                                 roleHints: seq<string>, requestedRoles: nat, specific: bool, clarify: bool,
                                 eligible: seq<string>, eligibleCount: nat, candidates: seq<Candidate>,
                                 assets: seq<CompactAsset>, relationships: seq<Relationship>, tags: seq<ScopeTag>,
                                 alarms: seq<ScopeAlarm>, limits: Limits, truncated: Truncation)

  datatype RetrievalError = BadModel | BadPrompt | BadLimits | BudgetTooSmall

  // Ranking

  datatype Rating = Rating(score: nat, reasons: seq<Evidence>)
  datatype Rated = Rated(asset: Asset, rating: Rating)

  predicate AllPresent(terms: seq<string>, prompt: seq<string>) {
    terms != [] && forall t :: t in terms ==> t in prompt
  }

  predicate Numeric(term: string) {
    term != "" && forall i :: 0 <= i < |term| ==> '0' <= term[i] <= '9'
  }

  const NUMERIC := (term: string) => Numeric(term)

  function Numbers(terms: seq<string>): seq<string> {
    Filter(NUMERIC, terms)
  }

  function AliasesOf(a: Asset): seq<string> {
    match a.aliases case None => [] case Some(aliases) => aliases
  }

  function TermsOfAll(texts: seq<string>): seq<string> {
    if texts == [] then [] else TermsOfAll(texts[..|texts| - 1]) + TermsOf(texts[|texts| - 1])
  }

  function AssetTerms(a: Asset): seq<string> {
    SortedTerms(TermsOfAll([a.id, a.name, a.kind] + AliasesOf(a)))
  }

  predicate NumberConflict(prompt: seq<string>, terms: seq<string>) {
    Numbers(prompt) != [] && forall n :: n in Numbers(prompt) ==> n !in Numbers(terms)
  }

  function Weigh(r: Rating, points: nat, reason: Evidence): Rating {
    Rating(r.score + points, r.reasons + [reason])
  }

  function TermRating(terms: seq<string>, prompt: seq<string>): Rating {
    if terms == [] then Rating(0, [])
    else
      var r, t := TermRating(terms[..|terms| - 1], prompt), terms[|terms| - 1];
      if t in prompt then Weigh(r, if |t| > 2 then 12 else 4, SharedTerm(t)) else r
  }

  function RatingOf(a: Asset, prompt: seq<string>): Rating {
    if NumberConflict(prompt, AssetTerms(a)) then Rating(0, [])
    else
      var byTerms := TermRating(AssetTerms(a), prompt);
      var byId := if AllPresent(TermsOf(a.id), prompt) then Weigh(byTerms, 80, DeclaredId) else byTerms;
      var byName := if AllPresent(TermsOf(a.name), prompt) then Weigh(byId, 100, DeclaredName) else byId;
      if exists k :: 0 <= k < |AliasesOf(a)| && AllPresent(TermsOf(AliasesOf(a)[k]), prompt) then Weigh(byName, 90, DeclaredAlias)
      else byName
  }

  function Rate(prompt: seq<string>): Asset -> Rated {
    (a: Asset) => Rated(a, RatingOf(a, prompt))
  }

  const RELEVANT := (r: Rated) => r.rating.score > 0

  predicate RankBefore(a: Rated, b: Rated) {
    a.rating.score > b.rating.score || (a.rating.score == b.rating.score && LexLe(a.asset.id, b.asset.id))
  }

  function Ranking(): (Rated, Rated) -> bool {
    (a: Rated, b: Rated) => RankBefore(a, b)
  }

  function Ranked(m: MachineModel, prompt: seq<string>): seq<Rated> {
    SortBy(Filter(RELEVANT, Map(Rate(prompt), m.assets)), Ranking())
  }

  // Selection

  predicate KindMentioned(m: MachineModel, prompt: seq<string>) {
    exists k, t :: 0 <= k < |m.assets| && t in TermsOf(m.assets[k].kind) && t in prompt
  }

  predicate Specific(m: MachineModel, prompt: seq<string>, phrase: bool) {
    var ranked := Ranked(m, prompt);
    KindMentioned(m, prompt) || Numbers(prompt) != [] || (ranked == [] && phrase)
    || exists r :: r in ranked && r.rating.score >= STRONG
  }

  function Threshold(ranked: seq<Rated>): nat {
    if ranked == [] || ranked[0].rating.score < WEAKEST then 0 else ranked[0].rating.score
  }

  function Top(threshold: nat): Rated -> bool {
    (r: Rated) => threshold > 0 && r.rating.score == threshold
  }

  function IdOf(): Rated -> string {
    (r: Rated) => r.asset.id
  }

  function Least(a: nat, b: nat): nat {
    if a <= b then a else b
  }

  function First<T>(s: seq<T>, n: nat): seq<T> {
    s[..Least(n, |s|)]
  }

  function CandidateOf(threshold: nat): Rated -> Candidate {
    (r: Rated) => Candidate(r.asset.id, r.asset.name, r.asset.kind, r.rating.score,
                            threshold > 0 && r.rating.score == threshold, r.rating.reasons)
  }

  function Eligible(ranked: seq<Rated>, limit: nat): seq<string> {
    Map(IdOf(), Filter(Top(Threshold(ranked)), First(ranked, limit)))
  }

  /** Every asset that ties at the top, also beyond the candidate limit. */
  function AllEligible(ranked: seq<Rated>, limit: nat): seq<string> {
    AddAll(Eligible(ranked, limit), Map(IdOf(), Filter(Top(Threshold(ranked)), ranked)))
  }

  // Scope

  datatype Reach = Reach(ids: set<string>, truncated: bool)

  function FillStep(s: Reach, a: Asset, limit: nat): Reach {
    if s.truncated then s else if |s.ids| >= limit then s.(truncated := true) else s.(ids := s.ids + {a.id})
  }

  function Fill(assets: seq<Asset>, limit: nat): Reach {
    if assets == [] then Reach({}, false) else FillStep(Fill(assets[..|assets| - 1], limit), assets[|assets| - 1], limit)
  }

  function ExpandStep(s: Reach, r: Relationship, limit: nat): Reach {
    if r.from in s.ids && |s.ids| < limit then s.(ids := s.ids + {r.to})
    else if r.to in s.ids && |s.ids| < limit then s.(ids := s.ids + {r.from})
    else if (r.from in s.ids) != (r.to in s.ids) then s.(truncated := true)
    else s
  }

  function Expand(s: Reach, relationships: seq<Relationship>, limit: nat): Reach {
    if relationships == [] then s
    else ExpandStep(Expand(s, relationships[..|relationships| - 1], limit), relationships[|relationships| - 1], limit)
  }

  function SetOf(ids: seq<string>): set<string> {
    set id | id in ids
  }

  function StartOf(m: MachineModel, eligible: seq<string>, specific: bool, limit: nat): Reach {
    if eligible == [] && !specific then Fill(m.assets, limit) else Reach(SetOf(eligible), false)
  }

  function ScopeOf(m: MachineModel, eligible: seq<string>, specific: bool, limit: nat): Reach {
    var start := StartOf(m, eligible, specific, limit);
    if |start.ids| == 1 then Expand(start, m.relationships, limit) else start
  }

  // The parts of the scope

  function InIds(ids: set<string>): Asset -> bool {
    (a: Asset) => a.id in ids
  }

  function OrderedIds(m: MachineModel, eligible: seq<string>, scope: set<string>): seq<string> {
    AddAll(eligible, Map(ASSET_ID, Filter(InIds(scope), m.assets)))
  }

  function FindAsset(assets: seq<Asset>, id: string): (r: Option<Asset>)
    ensures r.Some? ==> r.value in assets && r.value.id == id
    ensures r.None? ==> forall a :: a in assets ==> a.id != id
    decreases |assets|
  {
    if assets == [] then None
    else if assets[0].id == id then Some(assets[0])
    else
      assert assets == [assets[0]] + assets[1..];
      FindAsset(assets[1..], id)
  }

  function Compact(a: Asset): CompactAsset {
    CompactAsset(a.id, a.name, a.kind, a.aliases)
  }

  function Compacts(m: MachineModel, ids: seq<string>, limit: nat): (r: seq<CompactAsset>) {
    if ids == [] then []
    else
      var before := Compacts(m, ids[..|ids| - 1], limit);
      if |before| >= limit then before
      else match FindAsset(m.assets, ids[|ids| - 1])
        case None => before
        case Some(a) => before + [Compact(a)]
  }

  function Within(scope: set<string>): Relationship -> bool {
    (r: Relationship) => r.from in scope && r.to in scope
  }

  function MeasurementScope(eligible: seq<string>, scope: set<string>): set<string> {
    if eligible == [] then scope else SetOf(eligible)
  }

  function TagIn(scope: set<string>): Tag -> bool {
    (t: Tag) => t.assetId in scope
  }

  function AlarmIn(scope: set<string>): Alarm -> bool {
    (a: Alarm) => a.assetId in scope
  }

  function RoleMatched(prompt: seq<string>): Tag -> bool {
    (t: Tag) => AllPresent(TermsOf(t.role), prompt) || AllPresent(TermsOf(t.name), prompt)
  }

  const ROLE := (t: Tag) => t.role

  function RoleHints(source: seq<Tag>, prompt: seq<string>): seq<string> {
    SortedTerms(Map(ROLE, Filter(RoleMatched(prompt), source)))
  }

  function FindRole(source: seq<Tag>, role: string, taken: seq<Tag>): (r: Option<Tag>)
    ensures r.Some? ==> r.value in source && r.value.role == role && r.value !in taken
    ensures r.None? ==> forall t :: t in source && t.role == role ==> t in taken
    decreases |source|
  {
    if source == [] then None
    else if source[0].role == role && source[0] !in taken then Some(source[0])
    else
      assert source == [source[0]] + source[1..];
      FindRole(source[1..], role, taken)
  }

  /** One tag for each hinted role, in the order of the hints. */
  function RoleTags(source: seq<Tag>, hints: seq<string>): seq<Tag> {
    if hints == [] then []
    else
      var before := RoleTags(source, hints[..|hints| - 1]);
      match FindRole(source, hints[|hints| - 1], before)
      case None => before
      case Some(t) => before + [t]
  }

  function OrderedTags(source: seq<Tag>, hints: seq<string>): seq<Tag> {
    AddAll(RoleTags(source, hints), source)
  }

  function ScopeTagOf(): Tag -> ScopeTag {
    (t: Tag) => ScopeTag(t.id, t.assetId, t.name, t.role, t.dataType, t.unit)
  }

  function ScopeAlarmOf(): Alarm -> ScopeAlarm {
    (a: Alarm) => ScopeAlarm(a.id, a.assetId, a.name, a.tagId, a.severity)
  }

  function TaskHints(prompt: seq<string>): seq<string> {
    if "alarm" in prompt then ["alarms"]
    else if "overview" in prompt || "status" in prompt || "state" in prompt then ["overview"]
    else []
  }

  // Assembly

  function Assembled(m: MachineModel, prompt: seq<string>, phrase: bool, limits: Limits): Retrieved {
    var ranked := Ranked(m, prompt);
    var eligible := Eligible(ranked, limits.candidates);
    var all := AllEligible(ranked, limits.candidates);
    var specific := Specific(m, prompt, phrase);
    var scope := ScopeOf(m, eligible, specific, limits.assets);
    var assets := Compacts(m, OrderedIds(m, eligible, scope.ids), limits.assets);
    var relationships := Filter(Within(scope.ids), m.relationships);
    var measured := MeasurementScope(eligible, scope.ids);
    var source := Filter(TagIn(measured), m.tags);
    var hints := RoleHints(source, prompt);
    var alarms := Filter(AlarmIn(measured), m.alarms);
    Retrieved(m.modelId, m.revision, prompt,
              if TaskHints(prompt) == [] && hints != [] then ["overview"] else TaskHints(prompt),
              hints, |hints|, specific, |all| > 1 || (specific && eligible == []), eligible, |all|,
              Map(CandidateOf(Threshold(ranked)), First(ranked, limits.candidates)), assets,
              First(relationships, limits.relationships), Map(ScopeTagOf(), First(OrderedTags(source, hints), limits.tags)),
              Map(ScopeAlarmOf(), First(alarms, limits.alarms)), limits,
              Truncation(|ranked| > limits.candidates || |all| > |eligible|, scope.truncated || |scope.ids| > |assets|,
                         |relationships| > limits.relationships, |source| > limits.tags, |alarms| > limits.alarms, false, false))
  }

  predicate PromptAccepted(prompt: string) {
    0 < |prompt| <= MAX_REQUEST
  }

  predicate LimitsAccepted(l: Limits) {
    l.candidates > 0 && l.assets > 0 && l.relationships > 0 && l.tags > 0 && l.alarms > 0
    && MIN_BYTES <= l.bytes <= MAX_BYTES && MIN_TOKENS <= l.tokens <= MAX_TOKENS
  }
}
