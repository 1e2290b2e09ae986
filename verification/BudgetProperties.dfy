/** What trimming to the budget keeps, in what order it gives things up, and when it gives up itself. */
module BudgetProperties {
  import opened Budget
  import opened Retrieval
  import opened Sequences
  import opened Wrappers

  // The two invariants of a retrieval that trimming must respect

  /** Every hinted role has its tag, at its own place. */
  ghost predicate TagsFollowHints(r: Retrieved) {
    |r.roleHints| <= |r.tags| && forall i :: 0 <= i < |r.roleHints| ==> r.tags[i].role == r.roleHints[i]
  }

  ghost predicate Shown(id: string, assets: seq<CompactAsset>) {
    exists i :: 0 <= i < |assets| && assets[i].id == id
  }

  ghost predicate EligibleShown(r: Retrieved) {
    forall id :: id in r.eligible ==> Shown(id, r.assets)
  }

  // Removing one element

  lemma {:induction false} DropLastMembers<T(!new)>(s: seq<T>, test: T -> bool)
    ensures forall x :: x in DropLast(s, test) ==> x in s
    ensures forall x :: x in s && !test(x) ==> x in DropLast(s, test)
    decreases |s|
  {
    if s != [] {
      assert s == s[..|s| - 1] + [s[|s| - 1]];
      if !test(s[|s| - 1]) { DropLastMembers(s[..|s| - 1], test); }
    }
  }

  /** What does not satisfy the test stays, in order. */
  lemma {:induction false} DropLastKeeps<T(!new)>(s: seq<T>, test: T -> bool, keep: T -> bool)
    requires forall x :: keep(x) ==> !test(x)
    ensures Filter(keep, DropLast(s, test)) == Filter(keep, s)
    decreases |s|
  {
    if s != [] {
      var front, last := s[..|s| - 1], s[|s| - 1];
      assert s == front + [last];
      FilterSnoc(keep, front, last);
      if !test(last) {
        DropLastKeeps(front, test, keep);
        FilterSnoc(keep, DropLast(front, test), last);
      }
    }
  }

  /** The stripped list is the list with one alias list removed. */
  lemma {:induction false} StripFirstAt(s: seq<CompactAsset>) returns (k: nat)
    requires Any(s, NAMED)
    ensures k < |s| && s[k].aliases.Some? && StripFirst(s) == s[k := s[k].(aliases := None)]
    decreases |s|
  {
    if s[0].aliases.Some? {
      k := 0;
      assert [s[0].(aliases := None)] + s[1..] == s[0 := s[0].(aliases := None)];
    } else {
      var i :| 0 <= i < |s| && NAMED(s[i]);
      assert NAMED(s[1..][i - 1]);
      k := StripFirstAt(s[1..]);
      k := k + 1;
    }
  }

  // What a round keeps

  lemma WithoutCoherent(r: Retrieved, part: Part)
    requires Removable(r, part)
    ensures TagsFollowHints(r) ==> TagsFollowHints(Without(r, part))
    ensures EligibleShown(r) ==> EligibleShown(Without(r, part))
  {
    hide Any, DropLast, StripFirst;
    var s := Without(r, part);
    match part
    case AnAsset =>
      DropLastMembers(r.assets, SpareAsset(r.eligible));
      forall id | EligibleShown(r) && id in r.eligible ensures Shown(id, s.assets) {
        var i :| 0 <= i < |r.assets| && r.assets[i].id == id;
        assert r.assets[i] in s.assets;
      }
    case Aliases =>
      var k := StripFirstAt(r.assets);
      forall id | EligibleShown(r) && id in r.eligible ensures Shown(id, s.assets) {
        var i :| 0 <= i < |r.assets| && r.assets[i].id == id;
        assert s.assets[i].id == id;
      }
    case _ =>
  }

  const KEPT_CANDIDATE := (c: Candidate) => c.eligible

  /** The same asset, perhaps without its aliases. */
  predicate Reduced(a: CompactAsset, b: CompactAsset) {
    a == b || a == b.(aliases := None)
  }

  ghost predicate ComesFrom(a: CompactAsset, assets: seq<CompactAsset>) {
    exists i :: 0 <= i < |assets| && Reduced(a, assets[i])
  }

  /** Everything the trimmed object shares with the one assembled. */
  ghost predicate TrimmedFrom(before: Retrieved, after: Retrieved) {
    && after.modelId == before.modelId && after.modelRevision == before.modelRevision && after.limits == before.limits
    && after.taskHints == before.taskHints && after.requestedRoles == before.requestedRoles
    && after.specific == before.specific && after.eligibleCount == before.eligibleCount
    && after.relationships <= before.relationships && after.alarms <= before.alarms && after.tags <= before.tags
    && after.roleHints <= before.roleHints && after.promptTerms <= before.promptTerms && after.eligible <= before.eligible
    && Filter(KEPT_CANDIDATE, after.candidates) == Filter(KEPT_CANDIDATE, before.candidates)
    && (forall i :: 0 <= i < |after.assets| ==> ComesFrom(after.assets[i], before.assets))
    && (after.eligibleCount <= 1 ==> after.eligible == before.eligible)
    && (after.clarify <==> before.clarify || |after.roleHints| < |before.roleHints|)
  }

  /** Nothing is given up before everything of a lower priority is gone. */
  ghost predicate InOrder(before: Retrieved, after: Retrieved) {
    && (after.assets != before.assets ==> !Any(after.candidates, SPARE_CANDIDATE))
    && (|after.relationships| < |before.relationships| ==>
          !Any(after.candidates, SPARE_CANDIDATE) && !Any(after.assets, SpareAsset(before.eligible)))
    && (|after.alarms| < |before.alarms| ==>
          !Any(after.candidates, SPARE_CANDIDATE) && !Any(after.assets, SpareAsset(before.eligible)) && after.relationships == [])
    && (|after.tags| < |before.tags| ==>
          !Any(after.candidates, SPARE_CANDIDATE) && !Any(after.assets, SpareAsset(before.eligible)) && after.relationships == []
          && after.alarms == [])
    && (|after.roleHints| < |before.roleHints| ==>
          !Any(after.candidates, SPARE_CANDIDATE) && !Any(after.assets, SpareAsset(before.eligible)) && after.relationships == []
          && after.alarms == [] && |after.tags| <= |after.roleHints| + 1)
    && (|after.promptTerms| < |before.promptTerms| ==>
          !Any(after.candidates, SPARE_CANDIDATE) && !Any(after.assets, SpareAsset(before.eligible)) && after.relationships == []
          && after.alarms == [] && after.tags == [] && after.roleHints == [] && !Any(after.assets, NAMED))
    && (|after.eligible| < |before.eligible| ==>
          after.relationships == [] && after.alarms == [] && after.tags == [] && after.roleHints == [] && !Any(after.assets, NAMED)
          && after.promptTerms == [])
  }

  /** The flags say exactly what was given up. */
  ghost predicate FlagsTell(before: Retrieved, after: Retrieved) {
    && (after.truncated.candidates <==> before.truncated.candidates || |after.candidates| < |before.candidates|)
    && (after.truncated.assets <==> before.truncated.assets || after.assets != before.assets)
    && (after.truncated.relationships <==> before.truncated.relationships || |after.relationships| < |before.relationships|)
    && (after.truncated.alarms <==> before.truncated.alarms || |after.alarms| < |before.alarms|)
    && (after.truncated.tags <==> before.truncated.tags || |after.tags| < |before.tags|)
    && (after.truncated.roles <==> before.truncated.roles || |after.roleHints| < |before.roleHints|)
    && (after.truncated.budget <==> before.truncated.budget || after != before)
  }

  function AssetLoad(assets: seq<CompactAsset>): nat {
    |assets| + Names(assets)
  }

  /** The measures behind the flags: what changed became smaller. */
  ghost predicate Lighter(before: Retrieved, after: Retrieved) {
    && (after == before || Load(after) < Load(before))
    && |after.candidates| <= |before.candidates|
    && (after.assets == before.assets || AssetLoad(after.assets) < AssetLoad(before.assets))
    && |after.relationships| <= |before.relationships| && |after.alarms| <= |before.alarms| && |after.tags| <= |before.tags|
    && |after.roleHints| <= |before.roleHints|
  }

  lemma WithoutTrims(before: Retrieved, r: Retrieved, part: Part)
    requires TrimmedFrom(before, r) && Removable(r, part)
    ensures TrimmedFrom(before, Without(r, part))
  {
    hide Any, DropLast, StripFirst, Filter;
    var s := Without(r, part);
    match part
    case ACandidate => DropLastKeeps(r.candidates, SPARE_CANDIDATE, KEPT_CANDIDATE);
    case AnAsset =>
      DropLastMembers(r.assets, SpareAsset(r.eligible));
      forall i | 0 <= i < |s.assets| ensures ComesFrom(s.assets[i], before.assets) {
        assert s.assets[i] in r.assets;
        var k :| 0 <= k < |r.assets| && r.assets[k] == s.assets[i];
      }
    case Aliases =>
      var k := StripFirstAt(r.assets);
      forall i | 0 <= i < |s.assets| ensures ComesFrom(s.assets[i], before.assets) {
        var n :| 0 <= n < |before.assets| && Reduced(r.assets[i], before.assets[n]);
        assert Reduced(s.assets[i], before.assets[n]);
      }
    case _ =>
  }

  lemma AnyDropLast<T(!new)>(s: seq<T>, test: T -> bool, other: T -> bool)
    ensures Any(DropLast(s, test), other) ==> Any(s, other)
  {
    DropLastMembers(s, test);
    if Any(DropLast(s, test), other) {
      var i :| 0 <= i < |DropLast(s, test)| && other(DropLast(s, test)[i]);
      assert DropLast(s, test)[i] in s;
    }
  }

  lemma SpareShrinks(assets: seq<CompactAsset>, eligible: seq<string>, fewer: seq<string>)
    requires fewer <= eligible
    ensures Any(assets, SpareAsset(eligible)) ==> Any(assets, SpareAsset(fewer))
  {
    if Any(assets, SpareAsset(eligible)) {
      var i :| 0 <= i < |assets| && SpareAsset(eligible)(assets[i]);
      assert SpareAsset(fewer)(assets[i]);
    }
  }

  lemma StrippedSpares(assets: seq<CompactAsset>, eligible: seq<string>)
    requires Any(assets, NAMED)
    ensures Any(StripFirst(assets), SpareAsset(eligible)) ==> Any(assets, SpareAsset(eligible))
    ensures StripFirst(assets) != assets
  {
    var k := StripFirstAt(assets);
    if Any(StripFirst(assets), SpareAsset(eligible)) {
      var i :| 0 <= i < |assets| && SpareAsset(eligible)(StripFirst(assets)[i]);
      assert SpareAsset(eligible)(assets[i]);
    }
  }

  lemma RoundInOrder(before: Retrieved, r: Retrieved)
    requires TrimmedFrom(before, r) && InOrder(before, r) && Round(r).Some?
    ensures InOrder(before, Round(r).value)
  {
    hide Any, DropLast, StripFirst, Filter;
    SpareShrinks(r.assets, before.eligible, r.eligible);
    match Next(r).value
    case AnAsset =>
      AnyDropLast(r.assets, SpareAsset(r.eligible), SpareAsset(before.eligible));
      AnyDropLast(r.assets, SpareAsset(r.eligible), NAMED);
    case Aliases => StrippedSpares(r.assets, before.eligible);
    case _ =>
  }

  lemma DropLastShorter(assets: seq<CompactAsset>, test: CompactAsset -> bool)
    requires Any(assets, test)
    ensures |DropLast(assets, test)| == |assets| - 1 && Names(DropLast(assets, test)) <= Names(assets)
  {
    DropLastLength(assets, test);
    DropLastNames(assets, test);
  }

  lemma WithoutAssets(r: Retrieved, part: Part)
    requires Removable(r, part)
    ensures var s := Without(r, part);
      && (s.assets == r.assets || AssetLoad(s.assets) < AssetLoad(r.assets))
      && (s.truncated.assets <==> r.truncated.assets || s.assets != r.assets)
  {
    hide Any, DropLast, StripFirst, Names;
    match part
    case AnAsset => DropLastShorter(r.assets, SpareAsset(r.eligible));
    case Aliases => StripFirstNames(r.assets);
    case _ =>
  }

  lemma WithoutFlags(before: Retrieved, r: Retrieved, part: Part)
    requires FlagsTell(before, r) && Lighter(before, r) && Removable(r, part)
    ensures FlagsTell(before, Without(r, part)) && Lighter(before, Without(r, part))
  {
    hide Any, DropLast, StripFirst, Names, AssetLoad, Load;
    WithoutLightens(r, part);
    WithoutAssets(r, part);
    match part
    case ACandidate => DropLastLength(r.candidates, SPARE_CANDIDATE);
    case _ =>
  }

  /** What the budget loop returns, whatever the size function. */
  lemma {:induction false} LoopKeeps(size: Size, before: Retrieved, r: Retrieved)
    requires TrimmedFrom(before, r) && InOrder(before, r) && FlagsTell(before, r) && Lighter(before, r)
    ensures var end := Trimmed(size, r); TrimmedFrom(before, end) && InOrder(before, end) && FlagsTell(before, end)
    ensures TagsFollowHints(r) ==> TagsFollowHints(Trimmed(size, r))
    ensures EligibleShown(r) ==> EligibleShown(Trimmed(size, r))
    ensures Fits(size, Trimmed(size, r)) || Round(Trimmed(size, r)).None?
    decreases Load(r)
  {
    hide TrimmedFrom, InOrder, FlagsTell, Lighter, TagsFollowHints, EligibleShown, Round, Next, Without, Load, Fits;
    if !Fits(size, r) && Round(r).Some? {
      RoundLightens(r);
      NextIsRemovable(r);
      WithoutTrims(before, r, Next(r).value);
      RoundInOrder(before, r);
      WithoutFlags(before, r, Next(r).value);
      WithoutCoherent(r, Next(r).value);
      LoopKeeps(size, before, Round(r).value);
    }
  }

  lemma TrimmedFromSelf(r: Retrieved)
    ensures TrimmedFrom(r, r) && InOrder(r, r) && FlagsTell(r, r) && Lighter(r, r)
  {
    forall i | 0 <= i < |r.assets| ensures ComesFrom(r.assets[i], r.assets) {
      assert Reduced(r.assets[i], r.assets[i]);
    }
  }

  /** With nothing left to remove only the identity remains. */
  ghost predicate OnlyIdentity(r: Retrieved) {
    && r.relationships == [] && r.alarms == [] && r.tags == [] && r.roleHints == [] && r.promptTerms == []
    && (forall i :: 0 <= i < |r.candidates| ==> r.candidates[i].eligible)
    && (forall i :: 0 <= i < |r.assets| ==> r.assets[i].id in r.eligible && r.assets[i].aliases.None?)
    && (r.eligible == [] || r.eligibleCount <= 1)
  }

  lemma NothingLeft(r: Retrieved)
    ensures Round(r).None? <==> OnlyIdentity(r)
  {
    if Round(r).None? {
      forall i | 0 <= i < |r.candidates| ensures r.candidates[i].eligible {
        assert !SPARE_CANDIDATE(r.candidates[i]);
      }
      forall i | 0 <= i < |r.assets| ensures r.assets[i].id in r.eligible && r.assets[i].aliases.None? {
        assert !SpareAsset(r.eligible)(r.assets[i]) && !NAMED(r.assets[i]);
      }
    }
  }

  /** The object after some rounds; it stays once nothing is left. */
  function After(r: Retrieved, rounds: nat): Retrieved
    decreases rounds
  {
    if rounds == 0 then r else match Round(r) case None => r case Some(s) => After(s, rounds - 1)
  }

  ghost predicate FitsAfter(size: Size, r: Retrieved, k: nat) {
    Fits(size, After(r, k))
  }

  /** The loop stops at the first object that fits, and it fails exactly when none on the way does. */
  lemma {:induction false} FirstThatFits(size: Size, r: Retrieved)
    ensures Fitted(size, r).Success? <==> exists k: nat :: FitsAfter(size, r, k)
    ensures Fitted(size, r).Success? ==>
      exists k: nat :: FitsAfter(size, r, k) && Fitted(size, r).value == After(r, k) && forall j: nat :: j < k ==> !FitsAfter(size, r, j)
    ensures Fitted(size, r).Failure? ==> OnlyIdentity(Trimmed(size, r)) && !Fits(size, Trimmed(size, r))
    decreases Load(r)
  {
    hide Round, Load, Fits, OnlyIdentity;
    if Fits(size, r) {
      assert FitsAfter(size, r, 0);
    } else if Round(r).None? {
      NothingLeft(r);
      forall k: nat ensures !FitsAfter(size, r, k) { }
    } else {
      RoundLightens(r);
      var s := Round(r).value;
      FirstThatFits(size, s);
      forall k: nat ensures FitsAfter(size, s, k) <==> FitsAfter(size, r, k + 1) { }
      if k: nat :| FitsAfter(size, r, k) {
        assert k != 0 && FitsAfter(size, s, k - 1);
      }
      if Fitted(size, s).Success? {
        var k: nat :| FitsAfter(size, s, k) && Fitted(size, s).value == After(s, k) && forall j: nat :: j < k ==> !FitsAfter(size, s, j);
        assert FitsAfter(size, r, k + 1) && After(r, k + 1) == After(s, k);
        forall j: nat | j < k + 1 ensures !FitsAfter(size, r, j) {
          if j > 0 { assert !FitsAfter(size, s, j - 1); }
        }
      }
    }
  }

  /** The main result on the budget, for the object as it was assembled: it fits; what it lost was lost in order and
      flagged; a hint that survives keeps its tag, and a lost one forces clarification; an eligible identifier that
      survives keeps its asset, and a sole one survives. */
  lemma BudgetKeepsIdentity(size: Size, r: Retrieved)
    requires Fitted(size, r).Success?
    ensures var end := Fitted(size, r).value;
      && Fits(size, end) && TrimmedFrom(r, end) && InOrder(r, end) && FlagsTell(r, end)
      && (TagsFollowHints(r) ==> TagsFollowHints(end)) && (EligibleShown(r) ==> EligibleShown(end))
      && (r.eligibleCount <= 1 ==> end.eligible == r.eligible)
      && (|end.roleHints| < |r.roleHints| ==> end.clarify)
  {
    hide Round, Load, Fits, InOrder, FlagsTell, TagsFollowHints, EligibleShown;
    TrimmedFromSelf(r);
    LoopKeeps(size, r, r);
  }
}
