/** Retrieval as the service runs it: scoring, scope, ordering and the budget loop, each over mutable lists. */
module Retriever {
  import opened Budget
  import opened Model
  import opened PromptTerms
  import opened Retrieval
  import opened RetrievalCache
  import opened RetrievalProperties
  import opened Sequences
  import opened Wrappers

  // Scoring

  method TermsForAll(texts: seq<string>) returns (terms: seq<string>)
    ensures terms == TermsOfAll(texts)
  {
    terms := [];
    for i := 0 to |texts|
      invariant terms == TermsOfAll(texts[..i])
    {
      assert texts[..i + 1][..i] == texts[..i];
      var more := TermsFor(texts[i]);
      terms := terms + more;
    }
    assert texts[..|texts|] == texts;
  }

  method TermsForAsset(a: Asset) returns (terms: seq<string>)
    ensures terms == AssetTerms(a)
  {
    var all := TermsForAll([a.id, a.name, a.kind] + AliasesOf(a));
    terms := SortedTerms(all);
  }

  method RateTerms(terms: seq<string>, prompt: seq<string>) returns (score: nat, reasons: seq<Evidence>)
    ensures Rating(score, reasons) == TermRating(terms, prompt)
  {
    score, reasons := 0, [];
    for i := 0 to |terms|
      invariant Rating(score, reasons) == TermRating(terms[..i], prompt)
    {
      assert terms[..i + 1][..i] == terms[..i];
      if terms[i] in prompt {
        score, reasons := score + (if |terms[i]| > 2 then 12 else 4), reasons + [SharedTerm(terms[i])];
      }
    }
    assert terms[..|terms|] == terms;
  }

  method AliasMentioned(a: Asset, prompt: seq<string>) returns (found: bool)
    ensures found <==> exists k :: 0 <= k < |AliasesOf(a)| && AllPresent(TermsOf(AliasesOf(a)[k]), prompt)
  {
    var aliases := AliasesOf(a);
    for i := 0 to |aliases|
      invariant forall k :: 0 <= k < i ==> !AllPresent(TermsOf(aliases[k]), prompt)
    {
      var terms := TermsFor(aliases[i]);
      if AllPresent(terms, prompt) {
        return true;
      }
    }
    found := false;
  }

  method RateAsset(a: Asset, prompt: seq<string>) returns (score: nat, reasons: seq<Evidence>)
    ensures Rating(score, reasons) == RatingOf(a, prompt)
  {
    hide AllPresent, TermsOf, AssetTerms, NumberConflict, TermRating;
    score, reasons := 0, [];
    var terms := TermsForAsset(a);
    if NumberConflict(prompt, terms) {
      return;
    }
    score, reasons := RateTerms(terms, prompt);
    var idTerms := TermsFor(a.id);
    if AllPresent(idTerms, prompt) {
      score, reasons := score + 80, reasons + [DeclaredId];
    }
    var nameTerms := TermsFor(a.name);
    if AllPresent(nameTerms, prompt) {
      score, reasons := score + 100, reasons + [DeclaredName];
    }
    var alias := AliasMentioned(a, prompt);
    if alias {
      score, reasons := score + 90, reasons + [DeclaredAlias];
    }
  }

  method RankAssets(m: MachineModel, prompt: seq<string>) returns (ranked: seq<Rated>)
    ensures ranked == Ranked(m, prompt)
  {
    hide RatingOf, SortBy, Filter, Map;
    var scored: seq<Rated> := [];
    NoneYet(prompt, m.assets);
    for i := 0 to |m.assets|
      invariant scored == Filter(RELEVANT, Map(Rate(prompt), m.assets[..i]))
    {
      FilterMapNext(Rate(prompt), RELEVANT, m.assets, i);
      var score, reasons := RateAsset(m.assets[i], prompt);
      if score > 0 {
        scored := scored + [Rated(m.assets[i], Rating(score, reasons))];
      }
    }
    AllTaken(m.assets);
    ranked := SortBy(scored, Ranking());
  }

  lemma NoneYet(prompt: seq<string>, assets: seq<Asset>)
    ensures Filter(RELEVANT, Map(Rate(prompt), assets[..0])) == []
  {
  }

  method AnyIn(terms: seq<string>, prompt: seq<string>) returns (found: bool)
    ensures found <==> exists t :: t in terms && t in prompt
  {
    for j := 0 to |terms|
      invariant forall n :: 0 <= n < j ==> terms[n] !in prompt
    {
      if terms[j] in prompt {
        return true;
      }
    }
    found := false;
  }

  ghost predicate KindsFree(assets: seq<Asset>, prompt: seq<string>) {
    forall k, t :: 0 <= k < |assets| && t in TermsOf(assets[k].kind) ==> t !in prompt
  }

  method MentionsKind(m: MachineModel, prompt: seq<string>) returns (found: bool)
    ensures found <==> KindMentioned(m, prompt)
  {
    hide TermsOf;
    for i := 0 to |m.assets|
      invariant KindsFree(m.assets[..i], prompt)
    {
      var terms := TermsFor(m.assets[i].kind);
      found := AnyIn(terms, prompt);
      if found {
        return;
      }
    }
    AllTaken(m.assets);
    found := false;
  }

  method IsSpecific(m: MachineModel, prompt: seq<string>, text: string, ranked: seq<Rated>) returns (specific: bool)
    requires ranked == Ranked(m, prompt)
    ensures specific <==> Specific(m, prompt, ScopePhrase(text))
  {
    hide ScopePhrase, Ranked, KindMentioned;
    specific := MentionsKind(m, prompt);
    if specific || Numbers(prompt) != [] {
      return true;
    }
    if ranked == [] {
      specific := HasScopePhrase(text);
    }
    for i := 0 to |ranked|
      invariant specific <==> (ranked == [] && ScopePhrase(text)) || exists k :: 0 <= k < i && ranked[k].rating.score >= STRONG
    {
      specific := specific || ranked[i].rating.score >= STRONG;
    }
    assert (exists r :: r in ranked && r.rating.score >= STRONG)
           <==> exists k :: 0 <= k < |ranked| && ranked[k].rating.score >= STRONG;
  }

  // Selection

  method SelectCandidates(ranked: seq<Rated>, threshold: nat, limit: nat) returns (candidates: seq<Candidate>, eligible: seq<string>)
    requires threshold == Threshold(ranked)
    ensures candidates == Map(CandidateOf(threshold), First(ranked, limit)) && eligible == Eligible(ranked, limit)
  {
    hide Threshold, Map, Filter;
    candidates, eligible := [], [];
    var shown := First(ranked, limit);
    NothingShown(threshold, shown);
    for i := 0 to |shown|
      invariant candidates == Map(CandidateOf(threshold), shown[..i])
      invariant eligible == Map(IdOf(), Filter(Top(threshold), shown[..i]))
    {
      var r := shown[i];
      MapSnoc(CandidateOf(threshold), shown[..i], r);
      MapFilterNext(IdOf(), Top(threshold), shown, i);
      assert shown[..i + 1] == shown[..i] + [r];
      var top := threshold > 0 && r.rating.score == threshold;
      candidates := candidates + [Candidate(r.asset.id, r.asset.name, r.asset.kind, r.rating.score, top, r.rating.reasons)];
      if top {
        eligible := eligible + [r.asset.id];
      }
    }
    assert shown[..|shown|] == shown;
  }

  lemma NothingShown(threshold: nat, shown: seq<Rated>)
    ensures Map(CandidateOf(threshold), shown[..0]) == [] && Map(IdOf(), Filter(Top(threshold), shown[..0])) == []
  {
  }

  method CountEligible(ranked: seq<Rated>, threshold: nat, eligible: seq<string>, limit: nat) returns (all: seq<string>)
    requires threshold == Threshold(ranked) && eligible == Eligible(ranked, limit)
    requires forall i :: 0 <= i < |ranked| ==> ranked[i].rating.score > 0
    ensures all == AllEligible(ranked, limit)
  {
    hide Threshold, Eligible, Filter, Map, AddAll;
    all := eligible;
    NothingTaken(eligible, Top(threshold), IdOf(), ranked);
    for i := 0 to |ranked|
      invariant all == AddAll(eligible, Map(IdOf(), Filter(Top(threshold), ranked[..i])))
    {
      MapFilterNext(IdOf(), Top(threshold), ranked, i);
      AddAllSnoc(eligible, Map(IdOf(), Filter(Top(threshold), ranked[..i])), ranked[i].asset.id);
      NoMore(Map(IdOf(), Filter(Top(threshold), ranked[..i])));
      if ranked[i].rating.score == threshold && ranked[i].asset.id !in all {
        all := all + [ranked[i].asset.id];
      }
    }
    AllTaken(ranked);
  }

  lemma NothingTaken<T(!new)>(first: seq<string>, keep: T -> bool, f: T -> string, s: seq<T>)
    ensures AddAll(first, Map(f, Filter(keep, s[..0]))) == first
  {
  }

  lemma NoMore(s: seq<string>)
    ensures s + [] == s
  {
  }

  // Scope

  method FillScope(m: MachineModel, limit: nat) returns (ids: set<string>, truncated: bool)
    ensures Reach(ids, truncated) == Fill(m.assets, limit)
  {
    ids, truncated := {}, false;
    var i := 0;
    while i < |m.assets| && !truncated
      invariant 0 <= i <= |m.assets| && Reach(ids, truncated) == Fill(m.assets[..i], limit)
    {
      assert m.assets[..i + 1][..i] == m.assets[..i];
      if |ids| >= limit {
        truncated := true;
      } else {
        ids := ids + {m.assets[i].id};
      }
      i := i + 1;
    }
    FillStops(m.assets, i, limit);
  }

  lemma {:induction false} FillStops(assets: seq<Asset>, i: nat, limit: nat)
    requires i <= |assets| && (i == |assets| || Fill(assets[..i], limit).truncated)
    ensures Fill(assets, limit) == Fill(assets[..i], limit)
    decreases |assets|
  {
    if i < |assets| {
      assert assets[..|assets| - 1][..i] == assets[..i];
      FillStops(assets[..|assets| - 1], i, limit);
    } else {
      assert assets[..i] == assets;
    }
  }

  method ExpandScope(start: set<string>, relationships: seq<Relationship>, limit: nat) returns (ids: set<string>, truncated: bool)
    ensures Reach(ids, truncated) == Expand(Reach(start, false), relationships, limit)
  {
    ids, truncated := start, false;
    for i := 0 to |relationships|
      invariant Reach(ids, truncated) == Expand(Reach(start, false), relationships[..i], limit)
    {
      assert relationships[..i + 1][..i] == relationships[..i];
      var from, to := relationships[i].from, relationships[i].to;
      if from in ids && |ids| < limit {
        ids := ids + {to};
      } else if to in ids && |ids| < limit {
        ids := ids + {from};
      } else if (from in ids && to !in ids) || (to in ids && from !in ids) {
        truncated := true;
      }
    }
    assert relationships[..|relationships|] == relationships;
  }

  method FindScope(m: MachineModel, eligible: seq<string>, specific: bool, limit: nat) returns (ids: set<string>, truncated: bool)
    ensures Reach(ids, truncated) == ScopeOf(m, eligible, specific, limit)
  {
    ids, truncated := SetOf(eligible), false;
    NoIds(eligible);
    if ids == {} && !specific {
      ids, truncated := FillScope(m, limit);
    }
    if |ids| == 1 {
      ghost var start := Reach(ids, truncated);
      var more;
      ids, more := ExpandScope(ids, m.relationships, limit);
      FlagPassesThrough(start, m.relationships, limit);
      truncated := truncated || more;
    }
  }

  lemma NoIds(ids: seq<string>)
    ensures SetOf(ids) == {} <==> ids == []
  {
    if ids != [] { assert ids[0] in SetOf(ids); }
  }

  /** The flag does not influence the expansion. */
  lemma {:induction false} FlagPassesThrough(s: Reach, relationships: seq<Relationship>, limit: nat)
    ensures Expand(s, relationships, limit).ids == Expand(Reach(s.ids, false), relationships, limit).ids
    ensures Expand(s, relationships, limit).truncated <==> s.truncated || Expand(Reach(s.ids, false), relationships, limit).truncated
    decreases |relationships|
  {
    if relationships != [] { FlagPassesThrough(s, relationships[..|relationships| - 1], limit); }
  }

  method OrderIds(m: MachineModel, eligible: seq<string>, scope: set<string>) returns (ids: seq<string>)
    ensures ids == OrderedIds(m, eligible, scope)
  {
    hide Filter, Map, AddAll;
    ids := eligible;
    NothingTaken(eligible, InIds(scope), ASSET_ID, m.assets);
    for i := 0 to |m.assets|
      invariant ids == AddAll(eligible, Map(ASSET_ID, Filter(InIds(scope), m.assets[..i])))
    {
      MapFilterNext(ASSET_ID, InIds(scope), m.assets, i);
      AddAllSnoc(eligible, Map(ASSET_ID, Filter(InIds(scope), m.assets[..i])), m.assets[i].id);
      NoMore(Map(ASSET_ID, Filter(InIds(scope), m.assets[..i])));
      if m.assets[i].id in scope && m.assets[i].id !in ids {
        ids := ids + [m.assets[i].id];
      }
    }
    AllTaken(m.assets);
  }

  method CompactAssets(m: MachineModel, ids: seq<string>, limit: nat) returns (assets: seq<CompactAsset>)
    ensures assets == Compacts(m, ids, limit)
  {
    assets := [];
    var i := 0;
    while i < |ids| && |assets| < limit
      invariant 0 <= i <= |ids| && assets == Compacts(m, ids[..i], limit)
    {
      assert ids[..i + 1][..i] == ids[..i];
      match FindAsset(m.assets, ids[i]) {
        case None =>
        case Some(a) => assets := assets + [CompactAsset(a.id, a.name, a.kind, a.aliases)];
      }
      i := i + 1;
    }
    CompactsStop(m, ids, i, limit);
  }

  lemma {:induction false} CompactsStop(m: MachineModel, ids: seq<string>, i: nat, limit: nat)
    requires i <= |ids| && (i == |ids| || |Compacts(m, ids[..i], limit)| >= limit)
    ensures Compacts(m, ids, limit) == Compacts(m, ids[..i], limit)
    decreases |ids|
  {
    if i < |ids| {
      assert ids[..|ids| - 1][..i] == ids[..i];
      CompactsStop(m, ids[..|ids| - 1], i, limit);
    } else {
      assert ids[..i] == ids;
    }
  }

  /** The relevant items, how many there are and as many of them as the limit allows. */
  method Collect<T(!new)>(items: seq<T>, keep: T -> bool, limit: nat) returns (count: nat, collected: seq<T>)
    ensures count == |Filter(keep, items)| && collected == First(Filter(keep, items), limit)
  {
    hide Filter, First;
    count, collected := 0, [];
    NothingCollected(items, keep, limit);
    for i := 0 to |items|
      invariant count == |Filter(keep, items[..i])| && collected == First(Filter(keep, items[..i]), limit)
    {
      FilterNext(keep, items, i);
      FirstNext(Filter(keep, items[..i]), items[i], limit);
      NoneAdded(Filter(keep, items[..i]));
      if keep(items[i]) {
        count := count + 1;
        if |collected| < limit {
          collected := collected + [items[i]];
        }
      }
    }
    AllTaken(items);
  }

  lemma NothingCollected<T(!new)>(items: seq<T>, keep: T -> bool, limit: nat)
    ensures Filter(keep, items[..0]) == [] && First(Filter(keep, items[..0]), limit) == []
  {
  }

  lemma FirstNext<T>(s: seq<T>, x: T, limit: nat)
    ensures First(s + [x], limit) == if |First(s, limit)| < limit then First(s, limit) + [x] else First(s, limit)
  {
  }

  lemma NoneAdded<T>(s: seq<T>)
    ensures s + [] == s
  {
  }

  // Measurements

  method HintRoles(source: seq<Tag>, prompt: seq<string>) returns (hints: seq<string>)
    ensures hints == RoleHints(source, prompt)
  {
    hide AllPresent, TermsOf, Filter, Map;
    var roles: seq<string> := [];
    NoRoles(source, prompt);
    for i := 0 to |source|
      invariant roles == Map(ROLE, Filter(RoleMatched(prompt), source[..i]))
    {
      MapFilterNext(ROLE, RoleMatched(prompt), source, i);
      var roleTerms := TermsFor(source[i].role);
      var nameTerms := TermsFor(source[i].name);
      if AllPresent(roleTerms, prompt) || AllPresent(nameTerms, prompt) {
        roles := roles + [source[i].role];
      }
    }
    AllTaken(source);
    hints := SortedTerms(roles);
  }

  lemma NoRoles(source: seq<Tag>, prompt: seq<string>)
    ensures Map(ROLE, Filter(RoleMatched(prompt), source[..0])) == []
  {
  }

  method PickTag(source: seq<Tag>, role: string, taken: seq<Tag>) returns (ordered: seq<Tag>)
    ensures ordered == match FindRole(source, role, taken) case None => taken case Some(t) => taken + [t]
  {
    for i := 0 to |source|
      invariant FindRole(source, role, taken) == FindRole(source[i..], role, taken)
    {
      if source[i].role == role && source[i] !in taken {
        return taken + [source[i]];
      }
      assert source[i..][1..] == source[i + 1..];
    }
    ordered := taken;
  }

  method AddRemaining(first: seq<Tag>, source: seq<Tag>) returns (ordered: seq<Tag>)
    ensures ordered == AddAll(first, source)
  {
    hide AddAll;
    ordered := first;
    NothingAdded(first, source);
    for i := 0 to |source|
      invariant ordered == AddAll(first, source[..i])
    {
      AddAllSnoc(first, source[..i], source[i]);
      assert source[..i + 1] == source[..i] + [source[i]];
      if source[i] !in ordered {
        ordered := ordered + [source[i]];
      }
    }
    AllTaken(source);
  }

  lemma NothingAdded(first: seq<Tag>, source: seq<Tag>)
    ensures AddAll(first, source[..0]) == first
  {
  }

  method OrderTags(source: seq<Tag>, hints: seq<string>) returns (ordered: seq<Tag>)
    ensures ordered == OrderedTags(source, hints)
  {
    hide AddAll;
    ordered := [];
    for i := 0 to |hints|
      invariant ordered == RoleTags(source, hints[..i])
    {
      assert hints[..i + 1][..i] == hints[..i];
      ordered := PickTag(source, hints[i], ordered);
    }
    AllTaken(hints);
    ordered := AddRemaining(ordered, source);
  }

  // The budget loop

  method RemoveSpareCandidate(candidates: seq<Candidate>) returns (changed: bool, fewer: seq<Candidate>)
    ensures changed <==> Any(candidates, SPARE_CANDIDATE)
    ensures fewer == if changed then DropLast(candidates, SPARE_CANDIDATE) else candidates
  {
    changed, fewer := RemoveLast(candidates, SPARE_CANDIDATE);
  }

  /** Erases the last element that satisfies the test. */
  method RemoveLast<T>(s: seq<T>, test: T -> bool) returns (changed: bool, fewer: seq<T>)
    ensures changed <==> Any(s, test)
    ensures fewer == if changed then DropLast(s, test) else s
  {
    var i := |s|;
    assert s[..i] == s && s[i..] == [];
    while i > 0
      invariant 0 <= i <= |s| && forall k :: i <= k < |s| ==> !test(s[k])
      invariant DropLast(s, test) == DropLast(s[..i], test) + s[i..]
    {
      i := i - 1;
      assert s[..i + 1][..i] == s[..i];
      assert s[i..] == [s[i]] + s[i + 1..];
      if test(s[i]) {
        return true, s[..i] + s[i + 1..];
      }
    }
    changed, fewer := false, s;
  }

  lemma {:induction false} StripsAt(assets: seq<CompactAsset>, i: nat)
    requires i < |assets| && assets[i].aliases.Some? && forall k :: 0 <= k < i ==> assets[k].aliases.None?
    ensures StripFirst(assets) == assets[i := assets[i].(aliases := None)]
    decreases i
  {
    if i == 0 {
      assert assets[0 := assets[0].(aliases := None)] == [assets[0].(aliases := None)] + assets[1..];
    } else {
      var tail := assets[1..];
      forall k | 0 <= k < i - 1 ensures tail[k].aliases.None? { assert tail[k] == assets[k + 1]; }
      StripsAt(tail, i - 1);
      assert [assets[0]] + tail[i - 1 := tail[i - 1].(aliases := None)] == assets[i := assets[i].(aliases := None)];
    }
  }

  method EraseAliases(assets: seq<CompactAsset>) returns (changed: bool, fewer: seq<CompactAsset>)
    ensures changed <==> Any(assets, NAMED)
    ensures fewer == if changed then StripFirst(assets) else assets
  {
    hide StripFirst;
    for i := 0 to |assets|
      invariant forall k :: 0 <= k < i ==> assets[k].aliases.None?
    {
      if assets[i].aliases.Some? {
        StripsAt(assets, i);
        assert NAMED(assets[i]);
        return true, assets[i := assets[i].(aliases := None)];
      }
    }
    changed, fewer := false, assets;
  }

  /** One round; the removals are tried in order, and the first that changes something ends it. */
  method Trim(r: Retrieved) returns (changed: bool, s: Retrieved)
    ensures changed <==> Round(r).Some?
    ensures changed ==> s == Round(r).value
  {
    hide Any, DropLast, StripFirst;
    s := r.(truncated := r.truncated.(budget := true));
    var candidates, assets;
    changed, candidates := RemoveSpareCandidate(r.candidates);
    if changed {
      return true, s.(candidates := candidates, truncated := s.truncated.(candidates := true));
    }
    changed, assets := RemoveLast(r.assets, SpareAsset(r.eligible));
    if changed {
      return true, s.(assets := assets, truncated := s.truncated.(assets := true));
    }
    if r.relationships != [] {
      return true, s.(relationships := r.relationships[..|r.relationships| - 1], truncated := s.truncated.(relationships := true));
    }
    if r.alarms != [] {
      return true, s.(alarms := r.alarms[..|r.alarms| - 1], truncated := s.truncated.(alarms := true));
    }
    if |r.tags| > |r.roleHints| {
      return true, s.(tags := r.tags[..|r.tags| - 1], truncated := s.truncated.(tags := true));
    }
    if r.roleHints != [] {
      return true, s.(roleHints := r.roleHints[..|r.roleHints| - 1], clarify := true, truncated := s.truncated.(roles := true));
    }
    changed, assets := EraseAliases(r.assets);
    if changed {
      return true, s.(assets := assets, truncated := s.truncated.(assets := true));
    }
    if r.promptTerms != [] {
      return true, s.(promptTerms := r.promptTerms[..|r.promptTerms| - 1]);
    }
    if r.eligible != [] && r.eligibleCount > 1 {
      return true, s.(eligible := r.eligible[..|r.eligible| - 1]);
    }
  }

  method FitBudget(size: Size, whole: Retrieved) returns (r: Result<Retrieved, RetrievalError>)
    ensures r == Fitted(size, whole)
  {
    hide Fits, Round, Load;
    var result := whole;
    while !Fits(size, result)
      invariant Trimmed(size, whole) == Trimmed(size, result)
      decreases Load(result)
    {
      var changed, next := Trim(result);
      if !changed {
        return Failure(BudgetTooSmall);
      }
      RoundLightens(result);
      result := next;
    }
    r := Success(result);
  }

  // Retrieval

  method Assemble(m: MachineModel, text: string, limits: Limits) returns (r: Retrieved)
    requires DistinctIds(m.assets, ASSET_ID)
    ensures r == Assembled(m, TermsOf(text), ScopePhrase(text), limits)
  {
    hide TermsOf, ScopePhrase, Ranked, Eligible, AllEligible, Specific, ScopeOf, OrderedIds, Compacts, RoleHints, OrderedTags, Threshold,
         Filter, TaskHints, Map, First;
    var prompt := TermsFor(text);
    var ranked := RankAssets(m, prompt);
    var specific := IsSpecific(m, prompt, text, ranked);
    var threshold := Threshold(ranked);
    var candidates, eligible := SelectCandidates(ranked, threshold, limits.candidates);
    RankedPositive(m, prompt);
    var all := CountEligible(ranked, threshold, eligible, limits.candidates);
    var ids, truncated := FindScope(m, eligible, specific, limits.assets);
    var ordered := OrderIds(m, eligible, ids);
    var assets := CompactAssets(m, ordered, limits.assets);
    var relevantRelationships, relationships := Collect(m.relationships, Within(ids), limits.relationships);
    var measured := if eligible != [] then SetOf(eligible) else ids;
    var source := Filter(TagIn(measured), m.tags);
    var hints := HintRoles(source, prompt);
    var orderedTags := OrderTags(source, hints);
    var tags := Map(ScopeTagOf(), First(orderedTags, limits.tags));
    var relevantAlarms, alarms := Collect(m.alarms, AlarmIn(measured), limits.alarms);
    CutFlag(ranked, limits.candidates);
    CutFlag(Filter(Within(ids), m.relationships), limits.relationships);
    CutFlag(Filter(AlarmIn(measured), m.alarms), limits.alarms);
    var taskHints := TaskHints(prompt);
    if taskHints == [] && hints != [] {
      taskHints := ["overview"];
    }
    r := Retrieved(m.modelId, m.revision, prompt, taskHints, hints, |hints|, specific, |all| > 1 || (specific && eligible == []),
                   eligible, |all|, candidates, assets, relationships, tags, Map(ScopeAlarmOf(), alarms), limits,
                   Truncation(|ranked| > |candidates| || |all| > |eligible|, truncated || |ids| > |assets|,
                              relevantRelationships > |relationships|, |source| > limits.tags, relevantAlarms > |alarms|,
                              false, false));
  }

  lemma CutFlag<T>(s: seq<T>, limit: nat)
    ensures |s| > |First(s, limit)| <==> |s| > limit
  {
  }

  lemma RankedPositive(m: MachineModel, prompt: seq<string>)
    requires DistinctIds(m.assets, ASSET_ID)
    ensures forall i :: 0 <= i < |Ranked(m, prompt)| ==> Ranked(m, prompt)[i].rating.score > 0
  {
    hide Ranked, RatingOf;
    RankedMembers(m, prompt);
    forall i | 0 <= i < |Ranked(m, prompt)| ensures Ranked(m, prompt)[i].rating.score > 0 {
      assert Ranked(m, prompt)[i] in Ranked(m, prompt);
    }
  }

  method RetrieveFor(size: Size, m: MachineModel, prompt: string, limits: Limits) returns (r: Result<Retrieved, RetrievalError>)
    ensures r == Retrieve(size, m, prompt, limits)
  {
    hide ValidModel, Assembled, Fitted;
    var index := IndexModel(m, Digest(b => "", d => ""));
    if index.Failure? {
      return Failure(BadModel);
    }
    if prompt == "" || |prompt| > MAX_REQUEST {
      return Failure(BadPrompt);
    }
    if !LimitsAccepted(limits) {
      return Failure(BadLimits);
    }
    DistinctAssets(m);
    var whole := Assemble(m, prompt, limits);
    r := FitBudget(size, whole);
  }

  lemma DistinctAssets(m: MachineModel)
    requires ValidModel(m)
    ensures DistinctIds(m.assets, ASSET_ID)
  {
  }
}
