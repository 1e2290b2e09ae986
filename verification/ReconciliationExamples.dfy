/** Reconciliations at concrete models: where one pass is not enough, and where a result is too large for the next one. */
module ReconciliationExamples {
  import opened ExampleModels
  import opened Model
  import opened Reconciliation
  import opened ReconciliationChains
  import opened ReconciliationFixedPoint
  import opened ReconciliationLimits
  import opened ReconciliationOutcomes
  import opened ReconciliationProperties
  import opened ReconciliationTwice
  import opened Screen
  import opened WellFormedViews
  import opened Wrappers

  // Where one pass is not enough

  const LIST_ALARMS := Task(TaskKind.Alarms, None, 1, "alarms", None, None)

  lemma ExampleResolves(digest: Digest)
    ensures Resolved(IndexOf(BEFORE, digest), LIST_ALARMS)
         == Success(AlarmsView(IndexOf(BEFORE, digest), LIST_ALARMS.(modelId := Some("plant"))))
  {
    hide AlarmsView, ById;
  }

  lemma ExampleDependency(x: Index, task: Task)
    requires ValidIndex(x) && x.model == BEFORE && task.kind.Alarms? && task.anchor.None? && task.roles.None?
    ensures DependencyForAlarm(HIGH, TagOf(x, HIGH), x.digest) in AlarmsView(x, task).dependencies
  {
    hide ValidIndex, ScopedAlarms, AlarmsView, DependencyForAlarm, TagOf;
    AlarmMembers(x, task);
    AlarmsListed(x, task);
    var alarms := ScopedAlarms(x, task);
    assert HIGH in x.model.alarms;
    var i :| 0 <= i < |alarms| && alarms[i] == HIGH;
  }

  lemma ExampleOldIds(x: Index, task: Task)
    requires ValidIndex(x) && x.model == BEFORE
    ensures "late" !in Ids(AlarmsView(x, task).components)
  {
    hide ValidIndex, ScopedAlarms, DependencyForAlarm, TagOf, InScope;
    AlarmMembers(x, task);
    var v, alarms := AlarmsView(x, task), ScopedAlarms(x, task);
    forall k | 0 <= k < |v.components| ensures v.components[k].id != "late" {
      assert alarms[k] in alarms && alarms[k].id[0] == 'h';
    }
  }

  lemma ExampleNewAlarm(x: Index, task: Task)
    requires ValidIndex(x) && x.model == AFTER && task.kind.Alarms? && task.anchor.None? && task.roles.None?
    ensures AlarmComponentFor(x, LATE, TagOf(x, LATE)) in AlarmsView(x, task).components
  {
    hide ValidIndex, ScopedAlarms;
    var alarms := ScopedAlarms(x, task);
    AlarmMembers(x, task);
    assert LATE in x.model.alarms;
    var i :| 0 <= i < |alarms| && alarms[i] == LATE;
    assert AlarmsView(x, task).components[i] == AlarmComponentFor(x, LATE, TagOf(x, LATE));
  }

  lemma ExampleConflict(x1: Index, x2: Index)
    requires ValidIndex(x1) && ValidIndex(x2) && x1.model == BEFORE && x2.model == AFTER
    ensures ConflictsTag(x2, DependencyForAlarm(HIGH, TagOf(x1, HIGH), x1.digest), "level")
  {
    hide ById, ValidModel;
    PlantValid(BEFORE, "number", "m");
    PlantValid(AFTER, "number", "cm");
    AlarmFacts(x2);
    assert HIGH in x2.model.alarms;
  }

  lemma ExampleLate(x1: Index, x2: Index, v: View)
    requires ValidIndex(x1) && ValidIndex(x2) && x1.model == BEFORE && x2.model == AFTER
    requires v == AlarmsView(x1, LIST_ALARMS.(modelId := Some("plant"))) && WellFormed(v)
    requires Resolved(x2, NewTask(x2, v.task)).Success?
    ensures LateBlock(x2, v)
  {
    hide ValidIndex, WellFormed, DifferencesOf, AlarmsView, OverviewView, ConflictsTag, RemovesTag, TaskAccepted, DependencyForAlarm;
    WellFormedParts(v);
    DifferencesRead(x2, v);
    ExampleTask(x1);
    ExampleOldIds(x1, LIST_ALARMS.(modelId := Some("plant")));
    ExampleDependency(x1, LIST_ALARMS.(modelId := Some("plant")));
    ExampleConflict(x1, x2);
    assert "level" in DifferencesOf(x2, v).conflictedTags;
    var again := NewTask(x2, v.task).(modelId := Some(x2.model.modelId));
    ExampleNewAlarm(x2, again);
    assert Latest(x2, v) == AlarmsView(x2, again);
  }

  lemma ExampleTask(x1: Index)
    ensures AlarmsView(x1, LIST_ALARMS.(modelId := Some("plant"))).task == LIST_ALARMS.(modelId := Some("plant"))
  {
  }

  /** One pass does not suffice in general: a tag changes its unit while a second alarm on it is declared. The first
      pass shows the new alarm live, the second one blocks it. */
  lemma OnePassIsNotEnough(digest: Digest)
    returns (o1: (seq<string>, seq<string>), o2: (seq<string>, seq<string>), first: View, second: View)
    ensures var x1, x2 := IndexOf(BEFORE, digest), IndexOf(AFTER, digest);
      && ValidIndex(x1) && ValidIndex(x2) && Resolved(x1, LIST_ALARMS).Success?
      && var v := Resolved(x1, LIST_ALARMS).value;
         && Orders(v, o1.0, o1.1) && Reconciled(x2, v, o1.0, o1.1) == Success(first)
         && Orders(first, o2.0, o2.1) && Reconciled(x2, first, o2.0, o2.1) == Success(second)
         && first != second
  {
    hide ValidModel, Reconciled, AlarmsView, OverviewView, LateBlock, FreshView, Resolved, Enumerates, ById, Oversized, WellFormed;
    var x1, x2 := IndexOf(BEFORE, digest), IndexOf(AFTER, digest);
    PlantValid(BEFORE, "number", "m");
    PlantValid(AFTER, "number", "cm");
    ExampleResolves(digest);
    var v := Resolved(x1, LIST_ALARMS).value;
    o1 := SomeOrders(v);
    FirstSucceeds(x1, x2, LIST_ALARMS, o1.0, o1.1);
    SplitReconciled(x2, v, o1.0, o1.1);
    first := Reconciled(x2, v, o1.0, o1.1).value;
    o2 := SomeOrders(first);
    assert !Exhausts(x1, x2, LIST_ALARMS);
    ResolvedIsFresh(x1, LIST_ALARMS);
    FreshIsUnmarked(x1, v);
    ResolvedFixedPoint(x1, x2, LIST_ALARMS, o1, o2);
    ExampleLate(x1, x2, v);
    second := Reconciled(x2, first, o2.0, o2.1).value;
  }

  // Where a result is too large

  /** A letter for each digit to the base of 16, and a name for each number below 4096. */
  function Letter(d: nat): char {
    if d < 16 then ('a' as int + d) as char else 'z'
  }

  function Name(i: nat): string {
    [Letter(i / 256), Letter(i / 16 % 16), Letter(i % 16)]
  }

  function CrowdTag(i: nat, role: string): Tag {
    Tag(Name(i), "tank", "Level", role, "number", "m", PROBE)
  }

  function CrowdAlarm(i: nat, threshold: real): Alarm {
    Alarm(Name(i), "tank", "High", Name(i), ">", threshold, "high")
  }

  /** As many tags and alarms as a model may have. */
  function Crowd(revision: nat, role: string, threshold: real): MachineModel {
    MachineModel("plant", revision, "Plant", [TANK], [], seq(MAX_TAGS, i requires 0 <= i => CrowdTag(i, role)),
                 seq(MAX_ALARMS, i requires 0 <= i => CrowdAlarm(i, threshold)))
  }

  const ROLE_A := Task(TaskKind.Alarms, None, 1, "alarms", None, Some(["a"]))

  lemma NamesDiffer(i: nat, j: nat)
    requires i < MAX_TAGS && j < MAX_TAGS && Name(i) == Name(j)
    ensures i == j
  {
    hide Letter;
    assert Name(i)[0] == Name(j)[0] && Name(i)[1] == Name(j)[1] && Name(i)[2] == Name(j)[2];
    Digits(i);
    Digits(j);
    LettersDiffer(i / 256, j / 256);
    LettersDiffer(i / 16 % 16, j / 16 % 16);
    LettersDiffer(i % 16, j % 16);
  }

  lemma Digits(i: nat)
    requires i < MAX_TAGS
    ensures i == 256 * (i / 256) + 16 * (i / 16 % 16) + i % 16
    ensures i / 256 < 16 && i / 16 % 16 < 16 && i % 16 < 16
  {
    assert i / 256 == i / 16 / 16;
  }

  lemma LettersDiffer(c: nat, d: nat)
    requires c < 16 && d < 16
    ensures Letter(c) == Letter(d) ==> c == d
  {
  }

  lemma CrowdDistinct(m: MachineModel, revision: nat, role: string, threshold: real)
    requires m == Crowd(revision, role, threshold)
    ensures DistinctIds(m.tags, TAG_ID) && DistinctIds(m.alarms, ALARM_ID)
  {
    hide Name;
    forall i, j | 0 <= i < j < MAX_TAGS ensures Name(i) != Name(j) {
      if Name(i) == Name(j) { NamesDiffer(i, j); }
    }
  }

  lemma CrowdTagValid(i: nat, role: string)
    requires role == "a" || role == "b"
    ensures TagFields(CrowdTag(i, role), {"tank"})
  {
    hide Lower;
    LowerWords();
  }

  lemma CrowdAlarmValid(i: nat, role: string, threshold: real, tags: map<string, Tag>)
    requires Name(i) in tags && tags[Name(i)] == CrowdTag(i, role)
    ensures AlarmFields(CrowdAlarm(i, threshold), {"tank"}, tags)
  {
    hide Lower;
    LowerWords();
  }

  lemma CrowdValid(m: MachineModel, revision: nat, role: string, threshold: real)
    requires m == Crowd(revision, role, threshold) && revision <= 2 && (role == "a" || role == "b")
    ensures ValidModel(m)
  {
    hide ById, DistinctIds, AssetFields, TagFields, AlarmFields, RelationshipFields, Identity, Text, CrowdTag, CrowdAlarm;
    PlantNamed();
    TankIds();
    TankValid();
    CrowdDistinct(m, revision, role, threshold);
    OneDistinct(TANK);
    assert AssetIds(m) == {"tank"};
    forall i | 0 <= i < MAX_TAGS ensures TagFields(m.tags[i], {"tank"}) { CrowdTagValid(i, role); }
    forall i | 0 <= i < MAX_ALARMS ensures AlarmFields(m.alarms[i], {"tank"}, TagMap(m)) {
      CrowdTagFound(m, revision, role, threshold, i);
      CrowdAlarmValid(i, role, threshold, TagMap(m));
    }
    assert m.assets[0] == TANK;
  }

  lemma OneDistinct(a: Asset)
    ensures DistinctIds([a], ASSET_ID) && DistinctIds([], RELATIONSHIP_ID)
  {
  }

  lemma CrowdTagFound(m: MachineModel, revision: nat, role: string, threshold: real, i: nat)
    requires m == Crowd(revision, role, threshold) && i < MAX_TAGS
    ensures Name(i) in TagMap(m) && TagMap(m)[Name(i)] == CrowdTag(i, role)
  {
    hide Name;
    CrowdDistinct(m, revision, role, threshold);
    ByIdFinds(m.tags, TAG_ID, i);
  }

  lemma CrowdAlarmFound(m: MachineModel, revision: nat, role: string, threshold: real, i: nat)
    requires m == Crowd(revision, role, threshold) && i < MAX_ALARMS
    ensures var alarms := ById(m.alarms, ALARM_ID); Name(i) in alarms && alarms[Name(i)] == CrowdAlarm(i, threshold)
  {
    hide Name;
    CrowdDistinct(m, revision, role, threshold);
    ByIdFinds(m.alarms, ALARM_ID, i);
  }

  lemma CrowdExhausts(x1: Index, x2: Index)
    requires x1 == IndexOf(Crowd(1, "a", 1.0), x1.digest) && x2 == IndexOf(Crowd(2, "b", 2.0), x2.digest)
    ensures Exhausts(x1, x2, ROLE_A)
  {
    hide Name, ById, InScope, RemadeTwice, TagOf, Crowd;
    CrowdIds(x1.model, 1, "a", 1.0);
    forall a | a in x1.model.alarms
      ensures a.id in x2.alarms && x2.alarms[a.id].tagId == a.id
      ensures InScope(ROLE_A, a.assetId, TagOf(x1, a).role) && RemadeTwice(x1, x2, a)
    {
      var i := CrowdMember(x1.model, 1, "a", 1.0, a);
      CrowdRemade(x1, x2, i);
    }
    forall a | a in x2.model.alarms ensures !InScope(ROLE_A, a.assetId, TagOf(x2, a).role) {
      var i := CrowdMember(x2.model, 2, "b", 2.0, a);
      CrowdRemade(x1, x2, i);
    }
  }

  lemma CrowdMember(m: MachineModel, revision: nat, role: string, threshold: real, a: Alarm) returns (i: nat)
    requires m == Crowd(revision, role, threshold) && a in m.alarms
    ensures i < MAX_ALARMS && a == CrowdAlarm(i, threshold)
  {
    i :| i < MAX_ALARMS && a == m.alarms[i];
  }

  lemma CrowdIds(m: MachineModel, revision: nat, role: string, threshold: real)
    requires m == Crowd(revision, role, threshold)
    ensures |m.alarms| == MAX_ALARMS && forall a, b :: a in m.alarms && b in m.alarms && a.id == b.id ==> a == b
  {
    hide Name;
    CrowdDistinct(m, revision, role, threshold);
  }

  lemma CrowdRemade(x1: Index, x2: Index, i: nat)
    requires x1 == IndexOf(Crowd(1, "a", 1.0), x1.digest) && x2 == IndexOf(Crowd(2, "b", 2.0), x2.digest) && i < MAX_ALARMS
    ensures var a, b := CrowdAlarm(i, 1.0), CrowdAlarm(i, 2.0);
      && a.id in x2.alarms && x2.alarms[a.id] == b && RemadeTwice(x1, x2, a)
      && InScope(ROLE_A, a.assetId, TagOf(x1, a).role) && !InScope(ROLE_A, b.assetId, TagOf(x2, b).role)
  {
    hide Name, ById;
    CrowdTagFound(x1.model, 1, "a", 1.0, i);
    CrowdTagFound(x2.model, 2, "b", 2.0, i);
    CrowdAlarmFound(x2.model, 2, "b", 2.0, i);
    RolesDiffer();
  }

  lemma RolesDiffer()
    ensures "a" != "b" && "b" !in ["a"] && "a" in ["a"]
  {
    assert "a"[0] != "b"[0];
  }

  lemma CrowdResolves(x: Index)
    requires x == IndexOf(Crowd(1, "a", 1.0), x.digest)
    ensures Resolved(x, ROLE_A).Success?
  {
    hide AlarmsView, OverviewView, ById;
  }

  /** The one case that the limits refuse: 2048 alarms, every one on a tag of its own, all changed in both ways. The first
      pass succeeds with more issues than the second one accepts. */
  lemma TooManyIssues(digest: Digest) returns (o1: (seq<string>, seq<string>), o2: (seq<string>, seq<string>), first: View)
    ensures var x1, x2 := IndexOf(Crowd(1, "a", 1.0), digest), IndexOf(Crowd(2, "b", 2.0), digest);
      && ValidIndex(x1) && ValidIndex(x2) && Resolved(x1, ROLE_A).Success?
      && var v := Resolved(x1, ROLE_A).value;
         && Orders(v, o1.0, o1.1) && Reconciled(x2, v, o1.0, o1.1) == Success(first)
         && |first.issues| > MAX_COMPONENTS
         && Orders(first, o2.0, o2.1) && Reconciled(x2, first, o2.0, o2.1) == Failure(InvalidView)
  {
    hide ValidModel, Reconciled, Resolved, Exhausts, Enumerates, ById, Crowd, LateBlock, Oversized;
    var x1, x2 := IndexOf(Crowd(1, "a", 1.0), digest), IndexOf(Crowd(2, "b", 2.0), digest);
    CrowdValid(x1.model, 1, "a", 1.0);
    CrowdValid(x2.model, 2, "b", 2.0);
    CrowdResolves(x1);
    CrowdExhausts(x1, x2);
    var v := Resolved(x1, ROLE_A).value;
    o1 := SomeOrders(v);
    assert x1.model.modelId == x2.model.modelId by { CrowdNamed(); }
    FirstSucceeds(x1, x2, ROLE_A, o1.0, o1.1);
    first := Reconciled(x2, v, o1.0, o1.1).value;
    o2 := SomeOrders(first);
    SecondFits(x1, x2, ROLE_A, o1);
    OnlyIssuesExceed(x1, x2, ROLE_A, o1);
    ResolvedFixedPoint(x1, x2, ROLE_A, o1, o2);
  }

  lemma CrowdNamed()
    ensures Crowd(1, "a", 1.0).modelId == Crowd(2, "b", 2.0).modelId
  {
  }
}
