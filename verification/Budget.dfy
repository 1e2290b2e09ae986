/** Trimming a retrieval until it fits its budget: the least needed first, the identity never. */
module Budget {
  import opened Retrieval
  import opened Wrappers

  /** The length of the serialised object: some function of it. */
  type Size = Retrieved -> nat

  function Tokens(bytes: nat): nat {
    (bytes + 3) / 4
  }

  predicate Fits(size: Size, r: Retrieved) {
    size(r) <= r.limits.bytes && Tokens(size(r)) <= r.limits.tokens
  }

  /** The sequence without its last element that satisfies the test. */
  function DropLast<T>(s: seq<T>, test: T -> bool): seq<T> {
    if s == [] then []
    else if test(s[|s| - 1]) then s[..|s| - 1]
    else DropLast(s[..|s| - 1], test) + [s[|s| - 1]]
  }

  predicate Any<T>(s: seq<T>, test: T -> bool) {
    exists i :: 0 <= i < |s| && test(s[i])
  }

  const SPARE_CANDIDATE := (c: Candidate) => !c.eligible

  function SpareAsset(eligible: seq<string>): CompactAsset -> bool {
    (a: CompactAsset) => a.id !in eligible
  }

  const NAMED := (a: CompactAsset) => a.aliases.Some?

  function StripFirst(assets: seq<CompactAsset>): seq<CompactAsset> {
    if assets == [] then []
    else if assets[0].aliases.Some? then [assets[0].(aliases := None)] + assets[1..]
    else [assets[0]] + StripFirst(assets[1..])
  }

  function Front<T>(s: seq<T>): seq<T> {
    if s == [] then [] else s[..|s| - 1]
  }

  /** What a round can give up, the least needed first. */
  datatype Part = ACandidate | AnAsset | ARelationship | AnAlarm | ATag | ARole | Aliases | ATerm | AnEligible

  predicate Removable(r: Retrieved, part: Part) {
    match part
    case ACandidate => Any(r.candidates, SPARE_CANDIDATE)
    case AnAsset => Any(r.assets, SpareAsset(r.eligible))
    case ARelationship => r.relationships != []
    case AnAlarm => r.alarms != []
    case ATag => |r.tags| > |r.roleHints|
    case ARole => r.roleHints != []
    case Aliases => Any(r.assets, NAMED)
    case ATerm => r.promptTerms != []
    case AnEligible => r.eligible != [] && r.eligibleCount > 1
  }

  function Next(r: Retrieved): Option<Part> {
    if Removable(r, ACandidate) then Some(ACandidate)
    else if Removable(r, AnAsset) then Some(AnAsset)
    else if Removable(r, ARelationship) then Some(ARelationship)
    else if Removable(r, AnAlarm) then Some(AnAlarm)
    else if Removable(r, ATag) then Some(ATag)
    else if Removable(r, ARole) then Some(ARole)
    else if Removable(r, Aliases) then Some(Aliases)
    else if Removable(r, ATerm) then Some(ATerm)
    else if Removable(r, AnEligible) then Some(AnEligible)
    else None
  }

  function Without(r: Retrieved, part: Part): Retrieved {
    var t := r.truncated.(budget := true);
    match part
    case ACandidate => r.(candidates := DropLast(r.candidates, SPARE_CANDIDATE), truncated := t.(candidates := true))
    case AnAsset => r.(assets := DropLast(r.assets, SpareAsset(r.eligible)), truncated := t.(assets := true))
    case ARelationship => r.(relationships := Front(r.relationships), truncated := t.(relationships := true))
    case AnAlarm => r.(alarms := Front(r.alarms), truncated := t.(alarms := true))
    case ATag => r.(tags := Front(r.tags), truncated := t.(tags := true))
    case ARole => r.(roleHints := Front(r.roleHints), clarify := true, truncated := t.(roles := true))
    case Aliases => r.(assets := StripFirst(r.assets), truncated := t.(assets := true))
    case ATerm => r.(promptTerms := Front(r.promptTerms), truncated := t)
    case AnEligible => r.(eligible := Front(r.eligible), truncated := t)
  }

  /** The one removal of a round; none when only the identity remains. */
  function Round(r: Retrieved): Option<Retrieved> {
    match Next(r)
    case None => None
    case Some(part) => Some(Without(r, part))
  }

  lemma NextIsRemovable(r: Retrieved)
    requires Round(r).Some?
    ensures Next(r).Some? && Removable(r, Next(r).value) && Round(r).value == Without(r, Next(r).value)
  {
    hide Removable;
  }

  // Termination

  function Names(assets: seq<CompactAsset>): nat {
    if assets == [] then 0 else Names(assets[..|assets| - 1]) + if assets[|assets| - 1].aliases.Some? then 1 else 0
  }

  /** How much there is left to remove. */
  function Load(r: Retrieved): nat {
    |r.candidates| + |r.assets| + Names(r.assets) + |r.relationships| + |r.alarms| + |r.tags| + |r.roleHints| + |r.promptTerms|
    + |r.eligible|
  }

  lemma {:induction false} DropLastLength<T>(s: seq<T>, test: T -> bool)
    requires Any(s, test)
    ensures |DropLast(s, test)| == |s| - 1
  {
    if !test(s[|s| - 1]) {
      var i :| 0 <= i < |s| && test(s[i]);
      assert s[..|s| - 1][i] == s[i];
      DropLastLength(s[..|s| - 1], test);
    }
  }

  lemma {:induction false} DropLastNames(s: seq<CompactAsset>, test: CompactAsset -> bool)
    ensures Names(DropLast(s, test)) <= Names(s)
    decreases |s|
  {
    if s != [] && !test(s[|s| - 1]) {
      DropLastNames(s[..|s| - 1], test);
      assert (DropLast(s[..|s| - 1], test) + [s[|s| - 1]])[..|DropLast(s[..|s| - 1], test)|] == DropLast(s[..|s| - 1], test);
    }
  }

  lemma {:induction false} NamesCons(a: CompactAsset, s: seq<CompactAsset>)
    ensures Names([a] + s) == (if a.aliases.Some? then 1 else 0) + Names(s)
    decreases |s|
  {
    if s != [] {
      NamesCons(a, s[..|s| - 1]);
      assert ([a] + s)[..|s|] == [a] + s[..|s| - 1];
    }
  }

  lemma {:induction false} StripFirstNames(s: seq<CompactAsset>)
    requires Any(s, NAMED)
    ensures Names(StripFirst(s)) == Names(s) - 1 && |StripFirst(s)| == |s|
    decreases |s|
  {
    assert s == [s[0]] + s[1..];
    NamesCons(s[0], s[1..]);
    if s[0].aliases.Some? {
      NamesCons(s[0].(aliases := None), s[1..]);
    } else {
      var i :| 0 <= i < |s| && NAMED(s[i]);
      assert NAMED(s[1..][i - 1]);
      StripFirstNames(s[1..]);
      NamesCons(s[0], StripFirst(s[1..]));
    }
  }

  /** Every round removes something. */
  lemma WithoutLightens(r: Retrieved, part: Part)
    requires Removable(r, part)
    ensures Load(Without(r, part)) < Load(r)
  {
    hide Any, DropLast, StripFirst, Names;
    match part
    case ACandidate => DropLastLength(r.candidates, SPARE_CANDIDATE);
    case AnAsset =>
      DropLastLength(r.assets, SpareAsset(r.eligible));
      DropLastNames(r.assets, SpareAsset(r.eligible));
    case Aliases => StripFirstNames(r.assets);
    case _ =>
  }

  lemma RoundLightens(r: Retrieved)
    requires Round(r).Some?
    ensures Load(Round(r).value) < Load(r)
  {
    NextIsRemovable(r);
    WithoutLightens(r, Next(r).value);
  }

  /** Where the loop ends: at the first object that fits, or with nothing left to remove. */
  function Trimmed(size: Size, r: Retrieved): Retrieved
    decreases Load(r)
  {
    if Fits(size, r) || Round(r).None? then r
    else
      RoundLightens(r);
      Trimmed(size, Round(r).value)
  }

  function Fitted(size: Size, r: Retrieved): Result<Retrieved, RetrievalError> {
    var end := Trimmed(size, r);
    if Fits(size, end) then Success(end) else Failure(BudgetTooSmall)
  }
}
