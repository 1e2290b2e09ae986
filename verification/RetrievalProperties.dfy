/** What a retrieval selects: the assets that tie at the top, a scope that is reachable and bounded, one tag per role. */
module RetrievalProperties {
  import opened BudgetProperties
  import opened Model
  import opened PromptTerms
  import opened Retrieval
  import opened Sequences

  // Scores

  /** The points of one piece of evidence. */
  function Points(e: Evidence): nat {
    match e
    case SharedTerm(t) => if |t| > 2 then 12 else 4
    case DeclaredId => 80
    case DeclaredName => 100
    case DeclaredAlias => 90
  }

  function Total(reasons: seq<Evidence>): nat {
    if reasons == [] then 0 else Total(reasons[..|reasons| - 1]) + Points(reasons[|reasons| - 1])
  }

  lemma WeighAdds(r: Rating, e: Evidence)
    requires r.score == Total(r.reasons)
    ensures var w := Weigh(r, Points(e), e);
      w.score == Total(w.reasons) && forall x :: x in w.reasons <==> x in r.reasons || x == e
  {
    assert (r.reasons + [e])[..|r.reasons|] == r.reasons;
  }

  lemma {:induction false} TermsExplained(terms: seq<string>, prompt: seq<string>)
    ensures var r := TermRating(terms, prompt);
      r.score == Total(r.reasons) && forall x :: x in r.reasons <==> x.SharedTerm? && x.term in terms && x.term in prompt
    decreases |terms|
  {
    if terms != [] {
      var front, t := terms[..|terms| - 1], terms[|terms| - 1];
      assert terms == front + [t];
      TermsExplained(front, prompt);
      if t in prompt { WeighAdds(TermRating(front, prompt), SharedTerm(t)); }
    }
  }

  ghost predicate AliasPresent(a: Asset, prompt: seq<string>) {
    exists k :: 0 <= k < |AliasesOf(a)| && AllPresent(TermsOf(AliasesOf(a)[k]), prompt)
  }

  /** A score is the sum of its reasons, and the reasons are exactly the evidence that holds: every shared term, and the
      identifier, the name or an alias when all its terms are in the prompt; none at all when the numbers conflict. */
  lemma ScoreExplained(a: Asset, prompt: seq<string>)
    ensures var r := RatingOf(a, prompt);
      && r.score == Total(r.reasons)
      && forall x :: x in r.reasons <==>
           !NumberConflict(prompt, AssetTerms(a)) && match x
             case SharedTerm(t) => t in AssetTerms(a) && t in prompt
             case DeclaredId => AllPresent(TermsOf(a.id), prompt)
             case DeclaredName => AllPresent(TermsOf(a.name), prompt)
             case DeclaredAlias => AliasPresent(a, prompt)
  {
    hide NumberConflict, AssetTerms, TermsOf, AllPresent, TermRating, Weigh, Total;
    NothingTotals();
    TermsExplained(AssetTerms(a), prompt);
    var byTerms := TermRating(AssetTerms(a), prompt);
    WeighAdds(byTerms, DeclaredId);
    var byId := if AllPresent(TermsOf(a.id), prompt) then Weigh(byTerms, 80, DeclaredId) else byTerms;
    WeighAdds(byId, DeclaredName);
    var byName := if AllPresent(TermsOf(a.name), prompt) then Weigh(byId, 100, DeclaredName) else byId;
    WeighAdds(byName, DeclaredAlias);
  }

  lemma NothingTotals()
    ensures Total([]) == 0
  {
  }

  // Ranking

  lemma RankingOrder()
    ensures TotalOrder(Ranking())
  {
    var le := Ranking();
    forall a, b ensures le(a, b) || le(b, a) { LexTotal(a.asset.id, b.asset.id); }
    forall a, b, c | le(a, b) && le(b, c) ensures le(a, c) {
      if a.rating.score == b.rating.score == c.rating.score { LexTransitive(a.asset.id, b.asset.id, c.asset.id); }
    }
  }

  /** The ranking lists the assets with any evidence, each once, best first and then by identifier. */
  lemma RankedMembers(m: MachineModel, prompt: seq<string>)
    requires DistinctIds(m.assets, ASSET_ID)
    ensures var ranked := Ranked(m, prompt);
      && SortedBy(ranked, Ranking()) && Distinct(Map(IdOf(), ranked))
      && forall r :: r in ranked <==> r.asset in m.assets && r.rating == RatingOf(r.asset, prompt) && r.rating.score > 0
  {
    hide RatingOf, RankBefore, SortBy;
    RankingOrder();
    var rated := Map(Rate(prompt), m.assets);
    var picked := Filter(RELEVANT, rated);
    SortSorts(picked, Ranking());
    SameMembers(picked, SortBy(picked, Ranking()));
    forall r ensures r in rated <==> r.asset in m.assets && r.rating == RatingOf(r.asset, prompt) {
      if r in rated {
        var i :| 0 <= i < |rated| && rated[i] == r;
        assert m.assets[i] in m.assets;
      }
      if r.asset in m.assets && r.rating == RatingOf(r.asset, prompt) {
        var i :| 0 <= i < |m.assets| && m.assets[i] == r.asset;
        assert rated[i] == r;
      }
    }
    RankedDistinct(m, prompt);
  }

  lemma RankedDistinct(m: MachineModel, prompt: seq<string>)
    requires DistinctIds(m.assets, ASSET_ID)
    ensures Distinct(Map(IdOf(), Ranked(m, prompt)))
  {
    hide RatingOf, SortBy;
    var rated := Map(Rate(prompt), m.assets);
    var picked := Filter(RELEVANT, rated);
    forall i, j | 0 <= i < j < |rated| ensures rated[i] != rated[j] {
      assert ASSET_ID(m.assets[i]) != ASSET_ID(m.assets[j]);
    }
    FilterDistinct(RELEVANT, rated);
    var ranked := Ranked(m, prompt);
    DistinctPermutation(picked, ranked);
    SameMembers(picked, ranked);
    forall i, j | 0 <= i < j < |ranked| ensures ranked[i].asset.id != ranked[j].asset.id {
      assert ranked[i] in rated && ranked[j] in rated;
      var a :| 0 <= a < |rated| && rated[a] == ranked[i];
      var b :| 0 <= b < |rated| && rated[b] == ranked[j];
      assert a != b;
      assert ASSET_ID(m.assets[a]) != ASSET_ID(m.assets[b]);
    }
  }

  /** The asset has the best rating of all, and not a negligible one. */
  ghost predicate Best(m: MachineModel, prompt: seq<string>, a: Asset) {
    && a in m.assets && RatingOf(a, prompt).score >= WEAKEST
    && forall b :: b in m.assets ==> RatingOf(b, prompt).score <= RatingOf(a, prompt).score
  }

  lemma ThresholdIs(m: MachineModel, prompt: seq<string>)
    requires DistinctIds(m.assets, ASSET_ID)
    ensures var ranked := Ranked(m, prompt);
      forall r :: r in ranked ==> (Top(Threshold(ranked))(r) <==> Best(m, prompt, r.asset))
    ensures forall a :: Best(m, prompt, a) ==> Rated(a, RatingOf(a, prompt)) in Ranked(m, prompt)
  {
    hide RatingOf, SortBy, Ranked;
    RankedMembers(m, prompt);
    var ranked := Ranked(m, prompt);
    forall r | r in ranked ensures r.rating.score <= ranked[0].rating.score {
      var i :| 0 <= i < |ranked| && ranked[i] == r;
      assert i > 0 ==> Ranking()(ranked[0], ranked[i]);
    }
    forall r | r in ranked ensures Top(Threshold(ranked))(r) <==> Best(m, prompt, r.asset) {
      assert ranked[0] in ranked;
      forall b | b in m.assets ensures RatingOf(b, prompt).score <= ranked[0].rating.score {
        if RatingOf(b, prompt).score > 0 { assert Rated(b, RatingOf(b, prompt)) in ranked; }
      }
    }
  }

  /** Eligible are exactly the assets that tie at the top; a candidate limit only shortens the list that is shown. */
  lemma EligibleExactly(m: MachineModel, prompt: seq<string>, limit: nat)
    requires DistinctIds(m.assets, ASSET_ID)
    ensures var ranked := Ranked(m, prompt);
      && Eligible(ranked, limit) <= AllEligible(ranked, limit) && |Eligible(ranked, limit)| <= limit
      && Distinct(AllEligible(ranked, limit))
      && forall id :: id in AllEligible(ranked, limit) <==> exists a :: Best(m, prompt, a) && a.id == id
  {
    hide RatingOf, SortBy, Ranked, Best, Threshold;
    RankedMembers(m, prompt);
    ThresholdIs(m, prompt);
    var ranked := Ranked(m, prompt);
    var top := Filter(Top(Threshold(ranked)), ranked);
    var shown := Filter(Top(Threshold(ranked)), First(ranked, limit));
    MapMembers(IdOf(), top);
    MapMembers(IdOf(), shown);
    forall id ensures id in Map(IdOf(), top) <==> exists a :: Best(m, prompt, a) && a.id == id {
      if r :| r in top && r.asset.id == id { assert Best(m, prompt, r.asset); }
      if a :| Best(m, prompt, a) && a.id == id { assert Rated(a, RatingOf(a, prompt)) in top; }
    }
    forall id | id in Map(IdOf(), shown) ensures id in Map(IdOf(), top) {
      var r :| r in shown && IdOf()(r) == id;
      assert r in First(ranked, limit);
      assert r in top;
    }
    ShownDistinct(ranked, limit);
    AddAllDistinct(Eligible(ranked, limit), Map(IdOf(), top));
  }

  lemma ShownDistinct(ranked: seq<Rated>, limit: nat)
    requires Distinct(Map(IdOf(), ranked))
    ensures Distinct(Eligible(ranked, limit))
  {
    hide Threshold;
    var s := First(ranked, limit);
    forall i, j | 0 <= i < j < |s| ensures s[i] != s[j] {
      assert Map(IdOf(), ranked)[i] != Map(IdOf(), ranked)[j];
    }
    var shown := Filter(Top(Threshold(ranked)), s);
    FilterDistinct(Top(Threshold(ranked)), s);
    forall i, j | 0 <= i < j < |shown| ensures shown[i].asset.id != shown[j].asset.id {
      assert shown[i] in s && shown[j] in s;
      var a :| 0 <= a < |s| && s[a] == shown[i];
      var b :| 0 <= b < |s| && s[b] == shown[j];
      assert Map(IdOf(), ranked)[a] == shown[i].asset.id && Map(IdOf(), ranked)[b] == shown[j].asset.id;
    }
  }

  lemma {:induction false} AddAllDistinct<T(!new)>(s: seq<T>, more: seq<T>)
    requires Distinct(s)
    ensures Distinct(AddAll(s, more))
    decreases |more|
  {
    if more != [] {
      DistinctSnocSeq(s, more[0]);
      AddAllDistinct(AddOnce(s, more[0]), more[1..]);
    }
  }

  // The scope

  ghost predicate Closed(ids: set<string>, relationships: seq<Relationship>) {
    forall r :: r in relationships ==> (r.from in ids <==> r.to in ids)
  }

  /** Whatever is in the scope is linked to where it started: it lies in every closed set around the start. */
  lemma {:induction false} ExpandReaches(s: Reach, relationships: seq<Relationship>, limit: nat, around: set<string>)
    requires s.ids <= around && Closed(around, relationships)
    ensures s.ids <= Expand(s, relationships, limit).ids <= around
    decreases |relationships|
  {
    if relationships != [] {
      var front, last := relationships[..|relationships| - 1], relationships[|relationships| - 1];
      assert last in relationships;
      ExpandReaches(s, front, limit, around);
    }
  }

  lemma {:induction false} ExpandBounded(s: Reach, relationships: seq<Relationship>, limit: nat)
    requires |s.ids| <= limit
    ensures |Expand(s, relationships, limit).ids| <= limit
    decreases |relationships|
  {
    if relationships != [] { ExpandBounded(s, relationships[..|relationships| - 1], limit); }
  }

  /** Unless the scope is said to be truncated, every direct neighbour of its start is in it. */
  lemma {:induction false} NeighboursCovered(s: Reach, relationships: seq<Relationship>, limit: nat, r: Relationship)
    requires r in relationships && (r.from in s.ids || r.to in s.ids) && !Expand(s, relationships, limit).truncated
    ensures r.from in Expand(s, relationships, limit).ids && r.to in Expand(s, relationships, limit).ids
    decreases |relationships|
  {
    var front, last := relationships[..|relationships| - 1], relationships[|relationships| - 1];
    ExpandKeeps(s, front, limit);
    if r in front {
      NeighboursCovered(s, front, limit, r);
    } else {
      assert r == last;
    }
  }

  lemma {:induction false} ExpandKeeps(s: Reach, relationships: seq<Relationship>, limit: nat)
    ensures s.ids <= Expand(s, relationships, limit).ids && (s.truncated ==> Expand(s, relationships, limit).truncated)
    decreases |relationships|
  {
    if relationships != [] { ExpandKeeps(s, relationships[..|relationships| - 1], limit); }
  }

  lemma {:induction false} FillDeclared(assets: seq<Asset>, limit: nat)
    ensures forall id :: id in Fill(assets, limit).ids ==> exists i :: 0 <= i < |assets| && assets[i].id == id
    decreases |assets|
  {
    if assets != [] {
      var front, last := assets[..|assets| - 1], assets[|assets| - 1];
      FillDeclared(front, limit);
      forall id | id in Fill(assets, limit).ids ensures exists i :: 0 <= i < |assets| && assets[i].id == id {
        if id in Fill(front, limit).ids {
          var i :| 0 <= i < |front| && front[i].id == id;
          assert assets[i].id == id;
        } else {
          assert assets[|assets| - 1].id == id;
        }
      }
    }
  }

  lemma FillOne(s: Reach, a: Asset, limit: nat, n: nat)
    requires a.id !in s.ids && |s.ids| == Least(limit, n) && (s.truncated <==> n > limit)
    ensures |FillStep(s, a, limit).ids| == Least(limit, n + 1) && (FillStep(s, a, limit).truncated <==> n + 1 > limit)
  {
  }

  /** Without an anchor the scope is the first assets, up to the limit. */
  lemma {:induction false} FillBounded(assets: seq<Asset>, limit: nat)
    requires DistinctIds(assets, ASSET_ID)
    ensures Fill(assets, limit).truncated <==> |assets| > limit
    ensures |Fill(assets, limit).ids| == Least(limit, |assets|)
    decreases |assets|
  {
    hide FillStep;
    if assets != [] {
      var front, last := assets[..|assets| - 1], assets[|assets| - 1];
      FillBounded(front, limit);
      FillDeclared(front, limit);
      forall i | 0 <= i < |front| ensures front[i].id != last.id {
        assert ASSET_ID(assets[i]) != ASSET_ID(assets[|assets| - 1]);
      }
      FillOne(Fill(front, limit), last, limit, |front|);
    }
  }

  function AllIds(m: MachineModel): set<string> {
    set a | a in m.assets :: a.id
  }

  /** The scope is made of declared assets, holds the eligible ones, and respects the asset limit. */
  lemma ScopeBounded(m: MachineModel, eligible: seq<string>, specific: bool, limit: nat)
    requires ValidModel(m) && Distinct(eligible) && |eligible| <= limit && SetOf(eligible) <= AllIds(m)
    ensures var scope := ScopeOf(m, eligible, specific, limit);
      SetOf(eligible) <= scope.ids <= AllIds(m) && |scope.ids| <= limit
  {
    hide ById, AssetFields, TagFields, AlarmFields, Identity, Text;
    DistinctSize(eligible, SetOf(eligible));
    FillBounded(m.assets, limit);
    FillDeclared(m.assets, limit);
    var start := StartOf(m, eligible, specific, limit);
    EndsDeclared(m);
    ExpandReaches(start, m.relationships, limit, AllIds(m));
    ExpandBounded(start, m.relationships, limit);
  }

  lemma EndsDeclared(m: MachineModel)
    requires ValidModel(m)
    ensures Closed(AllIds(m), m.relationships)
  {
    hide ById, AssetFields, TagFields, AlarmFields, Identity, Text;
    forall r | r in m.relationships ensures r.from in AllIds(m) && r.to in AllIds(m) {
      var i :| 0 <= i < |m.relationships| && m.relationships[i] == r;
      assert RelationshipFields(m.relationships[i], AssetIds(m));
      assert ASSET_ID(ById(m.assets, ASSET_ID)[r.from]) == r.from && ASSET_ID(ById(m.assets, ASSET_ID)[r.to]) == r.to;
    }
  }

  // The assembled object is coherent

  /** The list of assets starts with the eligible ones. */
  lemma {:induction false} CompactsShow(m: MachineModel, ids: seq<string>, limit: nat)
    requires forall id :: id in ids ==> id in AllIds(m)
    ensures |Compacts(m, ids, limit)| == Least(limit, |ids|)
    ensures forall i :: 0 <= i < Least(limit, |ids|) ==> Compacts(m, ids, limit)[i].id == ids[i]
    decreases |ids|
  {
    if ids != [] {
      var front, last := ids[..|ids| - 1], ids[|ids| - 1];
      assert ids == front + [last];
      CompactsShow(m, front, limit);
      assert last in ids;
    }
  }

  ghost predicate HasRole(source: seq<Tag>, role: string) {
    exists t :: t in source && t.role == role
  }

  lemma {:induction false} RoleTagsFollow(source: seq<Tag>, hints: seq<string>)
    requires Distinct(hints) && forall h :: h in hints ==> HasRole(source, h)
    ensures |RoleTags(source, hints)| == |hints|
    ensures forall i :: 0 <= i < |hints| ==> RoleTags(source, hints)[i].role == hints[i] && RoleTags(source, hints)[i] in source
    decreases |hints|
  {
    if hints != [] {
      var front, last := hints[..|hints| - 1], hints[|hints| - 1];
      assert hints == front + [last];
      RoleTagsFollow(source, front);
      var before := RoleTags(source, front);
      forall i | 0 <= i < |before| ensures before[i].role != last {
        assert front[i] == hints[i] && hints[i] != hints[|hints| - 1];
      }
      assert HasRole(source, last);
    }
  }

  /** A role is hinted exactly when some tag in the measured scope has it and its role or name is in the prompt. */
  lemma RoleHintsExactly(source: seq<Tag>, prompt: seq<string>)
    ensures Ascending(RoleHints(source, prompt))
    ensures forall h :: h in RoleHints(source, prompt) <==> exists t :: t in source && t.role == h && RoleMatched(prompt)(t)
  {
    hide AllPresent, RoleMatched, SortBy;
    var matched := Filter(RoleMatched(prompt), source);
    var roles := Map(ROLE, matched);
    LexOrder(LEX);
    SortSorts(roles, LEX);
    UniqueAscends(SortBy(roles, LEX));
    SameMembers(roles, SortBy(roles, LEX));
    MapMembers(ROLE, matched);
    assert forall h :: h in roles <==> exists t :: t in matched && t.role == h;
  }

  lemma AssembledTags(source: seq<Tag>, prompt: seq<string>, limit: nat)
    requires |RoleHints(source, prompt)| <= limit
    ensures var hints := RoleHints(source, prompt);
      var tags := Map(ScopeTagOf(), First(OrderedTags(source, hints), limit));
      |hints| <= |tags| && forall i :: 0 <= i < |hints| ==> tags[i].role == hints[i]
  {
    hide RoleHints, RoleMatched;
    RoleHintsExactly(source, prompt);
    var hints := RoleHints(source, prompt);
    forall h | h in hints ensures HasRole(source, h) {}
    RoleTagsFollow(source, hints);
    assert RoleTags(source, hints) <= OrderedTags(source, hints);
  }

  /** Every eligible asset is shown when the candidate limit does not exceed the asset limit. */
  lemma AssembledShows(m: MachineModel, prompt: seq<string>, phrase: bool, limits: Limits)
    requires ValidModel(m) && limits.candidates <= limits.assets
    ensures EligibleShown(Assembled(m, prompt, phrase, limits))
  {
    hide ValidModel, Ranked, Best, Specific, Threshold, Compacts, RoleHints, OrderedTags, ScopeOf, AllEligible, Eligible, TaskHints, Filter;
    EligibleDeclared(m, prompt, limits.candidates);
    var r := Assembled(m, prompt, phrase, limits);
    var scope := ScopeOf(m, r.eligible, r.specific, limits.assets);
    OrderedDeclared(m, r.eligible, scope.ids);
    var ids := OrderedIds(m, r.eligible, scope.ids);
    CompactsShow(m, ids, limits.assets);
    forall id | id in r.eligible ensures Shown(id, r.assets) {
      var i :| 0 <= i < |r.eligible| && r.eligible[i] == id;
      assert ids[i] == id;
      assert r.assets[i].id == id;
    }
  }

  ghost function SourceOf(m: MachineModel, prompt: seq<string>, phrase: bool, limits: Limits): seq<Tag> {
    var eligible := Eligible(Ranked(m, prompt), limits.candidates);
    Filter(TagIn(MeasurementScope(eligible, ScopeOf(m, eligible, Specific(m, prompt, phrase), limits.assets).ids)), m.tags)
  }

  /** The first tags answer the hinted roles, one each, when the tag limit leaves room for them. */
  lemma AssembledFollows(m: MachineModel, prompt: seq<string>, phrase: bool, limits: Limits)
    requires |Assembled(m, prompt, phrase, limits).roleHints| <= limits.tags
    ensures TagsFollowHints(Assembled(m, prompt, phrase, limits))
    ensures Assembled(m, prompt, phrase, limits).roleHints == RoleHints(SourceOf(m, prompt, phrase, limits), prompt)
  {
    hide Ranked, Specific, Threshold, Compacts, RoleHints, OrderedTags, ScopeOf, AllEligible, Eligible, TaskHints, Filter;
    AssembledTags(SourceOf(m, prompt, phrase, limits), prompt, limits.tags);
  }

  lemma OrderedDeclared(m: MachineModel, eligible: seq<string>, scope: set<string>)
    requires SetOf(eligible) <= AllIds(m)
    ensures eligible <= OrderedIds(m, eligible, scope) && forall id :: id in OrderedIds(m, eligible, scope) ==> id in AllIds(m)
  {
    var inScope := Filter(InIds(scope), m.assets);
    forall id | id in Map(ASSET_ID, inScope) ensures id in AllIds(m) {
      var i :| 0 <= i < |inScope| && Map(ASSET_ID, inScope)[i] == id;
      assert inScope[i] in m.assets;
    }
    assert forall id :: id in eligible ==> id in SetOf(eligible);
  }

  lemma EligibleDeclared(m: MachineModel, prompt: seq<string>, limit: nat)
    requires ValidModel(m)
    ensures var eligible := Eligible(Ranked(m, prompt), limit);
      Distinct(eligible) && |eligible| <= limit && SetOf(eligible) <= AllIds(m)
  {
    hide Ranked, Eligible, AllEligible, RatingOf, AssetFields, TagFields, AlarmFields, RelationshipFields;
    EligibleExactly(m, prompt, limit);
    var eligible, all := Eligible(Ranked(m, prompt), limit), AllEligible(Ranked(m, prompt), limit);
    forall id | id in eligible ensures id in AllIds(m) {
      assert id in all;
    }
    forall i, j | 0 <= i < j < |eligible| ensures eligible[i] != eligible[j] {
      assert all[i] != all[j];
    }
  }
}
