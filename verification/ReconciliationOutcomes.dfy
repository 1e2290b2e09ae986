/** When reconciling succeeds, what it does to a view of the same model, and what blocks a component. */
module ReconciliationOutcomes {
  import opened Model
  import opened Reconciliation
  import opened ReconciliationChains
  import opened ReconciliationFixedPoint
  import opened ReconciliationProperties
  import opened ReconciliationTwice
  import opened Screen
  import opened Sequences
  import opened WellFormedViews
  import opened Wrappers

  // Sizes

  lemma ResolvedSize(x: Index, task: Task)
    requires ValidIndex(x) && Resolved(x, task).Success?
    ensures var v := Resolved(x, task).value;
      |v.components| == |v.dependencies| <= MAX_TAGS && |v.issues| <= 1 && v.changes == None
  {
    hide TagsOf, ScopedAlarms, ById, DistinctIds, KindFor, AssetName, InScope, AssetFields, TagFields, AlarmFields, RelationshipFields;
    var effective := task.(modelId := Some(x.model.modelId));
    if task.kind.Overview? {
      OverviewMembers(x, effective);
      PigeonHole(TagsOf(x, effective, OverviewAssets(x, effective)), x.model.tags);
    } else {
      AlarmMembers(x, effective);
      PigeonHole(ScopedAlarms(x, effective), x.model.alarms);
    }
  }

  // Success

  lemma AcceptedAgain(x1: Index, x2: Index, task: Task)
    requires x1.model.modelId == x2.model.modelId && TaskAccepted(x1, task)
    ensures TaskAccepted(x2, NewTask(x2, task.(modelId := Some(x1.model.modelId))))
         <==> (task.anchor.Some? ==> task.anchor.value in x2.assets)
  {
    hide RolesAccepted;
  }

  /** The first reconciliation of a resolved view, with any revision of the same model, fails only when the anchor of
      its task is gone; the size limit is never reached. */
  lemma FirstSucceeds(x1: Index, x2: Index, task: Task, tagOrder: seq<string>, alarmOrder: seq<string>)
    requires ValidIndex(x1) && ValidIndex(x2) && x1.model.modelId == x2.model.modelId && Resolved(x1, task).Success?
    requires Orders(Resolved(x1, task).value, tagOrder, alarmOrder)
    ensures var v := Resolved(x1, task).value;
      Reconciled(x2, v, tagOrder, alarmOrder).Success? <==> (task.anchor.Some? ==> task.anchor.value in x2.assets)
    ensures var v := Resolved(x1, task).value;
      var r := Reconciled(x2, v, tagOrder, alarmOrder); r.Failure? ==> r.error == InvalidTask
  {
    hide ValidIndex, FreshView, TaskAccepted, OverviewView, AlarmsView, AllNotes, DifferencesOf, Verdict, MergedDependencies, Enumerates,
         AddAll, TagDependenciesOf, AlarmDependenciesOf;
    var v := Resolved(x1, task).value;
    ResolvedSize(x1, task);
    ResolvedIsFresh(x1, task);
    AcceptedAgain(x1, x2, task);
    if Resolved(x2, NewTask(x2, v.task)).Success? {
      ResolvedSize(x2, NewTask(x2, v.task));
    }
  }

  // The same model

  lemma NothingTouched(x: Index, v: View)
    requires ValidIndex(x) && FreshView(x, v)
    ensures DifferencesOf(x, v) == Differences({}, {}, {}, {}, {}, {})
    ensures forall d :: d in v.dependencies ==> NotesOf(x, d) == NOTHING
  {
    hide DifferencesOf, Touched, NotesOf, Paired, ValidIndex, ConflictsTag, RemovesTag, AlarmRedefined, AlarmGone;
    WellFormedParts(v);
    DifferencesRead(x, v);
    NoRelationships(x, v);
    TouchesFacts(x);
    forall d | d in v.dependencies ensures NotesOf(x, d) == NOTHING { UntouchedNotes(x, d); }
    var d := DifferencesOf(x, v);
    assert d.conflictedTags == {} && d.removedTags == {} && d.conflictedAlarms == {} && d.removedAlarms == {};
  }

  lemma MergeOneWithItself(v: View, i: nat)
    requires WellFormed(v) && i < |v.components| && v.components[i].status == Live
    ensures i < |v.dependencies|
    ensures MergeComponent(v.components[i], Differences({}, {}, {}, {}, {}, {}), v.components) == v.components[i]
    ensures MergeDependency(v.dependencies[i], Differences({}, {}, {}, {}, {}, {}), v.dependencies) == v.dependencies[i]
  {
    hide WellFormed, KeyOf, Paired;
    WellFormedParts(v);
    FoundIs(v.components, v.dependencies, i, v);
  }

  lemma OwnPartsKnown(v: View)
    ensures Filter(NewComponent(v.components), v.components) == []
    ensures Filter(NewDependency(v.dependencies), v.dependencies) == []
  {
    hide KeyOf;
    forall c | c in v.components ensures !NewComponent(v.components)(c) {
      var i :| 0 <= i < |v.components| && v.components[i] == c;
      assert Map(ComponentIds(), v.components)[i] == c.id;
    }
    forall d | d in v.dependencies ensures !NewDependency(v.dependencies)(d) {
      var i :| 0 <= i < |v.dependencies| && v.dependencies[i] == d;
      assert Map(DependencyKeys(), v.dependencies)[i] == KeyOf(d);
    }
    FilterNothing(NewComponent(v.components), v.components);
    FilterNothing(NewDependency(v.dependencies), v.dependencies);
  }

  lemma MergeWithItself(v: View)
    requires WellFormed(v) && forall c :: c in v.components ==> c.status == Live
    ensures var none := Differences({}, {}, {}, {}, {}, {});
      && MergedComponents(v.components, none, v.components) == v.components
      && MergedDependencies(v.dependencies, none, v.dependencies) == v.dependencies
  {
    hide WellFormed, KeyOf, MergeComponent, MergeDependency, Filter, Paired, Distinct, DistinctKeys;
    var none := Differences({}, {}, {}, {}, {}, {});
    WellFormedParts(v);
    OwnPartsKnown(v);
    forall i | 0 <= i < |v.components|
      ensures MergeComponent(v.components[i], none, v.components) == v.components[i]
      ensures MergeDependency(v.dependencies[i], none, v.dependencies) == v.dependencies[i]
    {
      assert v.components[i] in v.components;
      MergeOneWithItself(v, i);
    }
  }

  lemma ResolvedAgain(x: Index, task: Task)
    requires Resolved(x, task).Success?
    requires Resolved(x, task).value.task == task.(modelId := Some(x.model.modelId))
    ensures Resolved(x, NewTask(x, Resolved(x, task).value.task)) == Resolved(x, task)
    ensures NewTask(x, Resolved(x, task).value.task) == Resolved(x, task).value.task
  {
    hide OverviewView, AlarmsView;
    var again := NewTask(x, Resolved(x, task).value.task);
    assert again == task.(modelId := Some(x.model.modelId));
  }

  lemma NoNotes(x: Index, v: View, notes: Notes)
    requires forall c :: c in notes.changes <==> exists d :: d in v.dependencies && c in NotesOf(x, d).changes
    requires forall n :: n in notes.issues <==> exists d :: d in v.dependencies && n in NotesOf(x, d).issues
    requires forall d :: d in v.dependencies ==> NotesOf(x, d) == NOTHING
    ensures AddAll(v.issues, notes.issues) == v.issues && AddAll([], notes.changes) == []
  {
    hide NotesOf;
    AddAllKnown(v.issues, notes.issues);
    AddAllKnown([], notes.changes);
  }

  /** Reconciling a view with the very model that produced it only records that it was reconciled. */
  lemma ReconciledWithItself(x: Index, task: Task, tagOrder: seq<string>, alarmOrder: seq<string>)
    requires ValidIndex(x) && Resolved(x, task).Success? && Orders(Resolved(x, task).value, tagOrder, alarmOrder)
    ensures var v := Resolved(x, task).value;
      Reconciled(x, v, tagOrder, alarmOrder) == Success(v.(changes := Some([]), reconciled := true))
  {
    hide ValidIndex, Resolved, AllNotes, DifferencesOf, MergedComponents, MergedDependencies, Enumerates, WellFormed, AddAll, NotesOf,
         FreshView;
    var v := Resolved(x, task).value;
    ResolvedSize(x, task);
    ResolvedIsFresh(x, task);
    FreshIsUnmarked(x, v);
    LiveFresh(x, v);
    ResolvedAgain(x, task);
    NothingTouched(x, v);
    MergeWithItself(v);
    NotesMembers(x, v, tagOrder, alarmOrder);
    NoNotes(x, v, AllNotes(x, v, tagOrder, alarmOrder));
    AddAllKnown(v.issues, v.issues);
    FreshStatus(x, v);
  }

  lemma FreshStatus(x: Index, v: View)
    requires FreshView(x, v)
    ensures !v.reconciled && (v.status == if v.issues == [] then Ready else NeedsReview)
  {
  }

  // What blocks

  /** A dependency is held back exactly when its own binding no longer stands, or when another bound alarm now names
      its tag and was bound to something else: also a sibling that did not change itself. */
  lemma BlockedExactly(x: Index, v: View, i: nat)
    requires ValidIndex(x) && WellFormed(v) && i < |v.dependencies|
    ensures DependencyBlocked(v.dependencies[i], DifferencesOf(x, v))
       <==> Touched(x, v.dependencies[i])
            || exists other :: other in v.dependencies && AlarmTagChanged(x, other)
                               && CurrentTagId(x, other) == v.dependencies[i].tagId
  {
    hide DifferencesOf, SummaryAltered, PartAltered, ValidIndex, InScope;
    WellFormedParts(v);
    DifferencesRead(x, v);
    var dep, d := v.dependencies[i], DifferencesOf(x, v);
    assert Paired(v.task, v.components[i], dep);
    if Touched(x, dep) { TouchedIsBlocked(x, v, i); }
    forall other | other in v.dependencies && AlarmTagChanged(x, other) ensures CurrentTagId(x, other) in d.conflictedTags {
      assert ConflictsTag(x, other, CurrentTagId(x, other));
    }
    if DependencyBlocked(dep, d) {
      BlockedHasCause(x, v, i);
    }
  }

  lemma SameKeySame(v: View, i: nat, other: Dependency)
    requires WellFormed(v) && i < |v.dependencies| && other in v.dependencies && KeyOf(other) == KeyOf(v.dependencies[i])
    ensures other == v.dependencies[i]
  {
    hide KeyOf, Paired;
    WellFormedParts(v);
    var k :| 0 <= k < |v.dependencies| && v.dependencies[k] == other;
  }

  lemma SameKind(v: View, i: nat, other: Dependency)
    requires WellFormed(v) && i < |v.dependencies| && other in v.dependencies
    ensures v.dependencies[i].alarm.Some? <==> other.alarm.Some?
  {
    hide InScope, SummaryAltered, PartAltered;
    WellFormedParts(v);
    var k :| 0 <= k < |v.dependencies| && v.dependencies[k] == other;
    assert Paired(v.task, v.components[k], other) && Paired(v.task, v.components[i], v.dependencies[i]);
  }

  /** A dependency whose tag is no longer declared does not stand. */
  lemma MissingTagTouches(x: Index, task: Task, c: Component, d: Dependency)
    requires ValidIndex(x) && Paired(task, c, d) && d.tagId !in x.tags
    ensures Touched(x, d)
  {
    hide ById, ValidModel, InScope;
    AlarmFacts(x);
  }

  lemma BlockedHasCause(x: Index, v: View, i: nat)
    requires ValidIndex(x) && WellFormed(v) && i < |v.dependencies|
    requires DependencyBlocked(v.dependencies[i], DifferencesOf(x, v))
    ensures Touched(x, v.dependencies[i])
            || exists other :: other in v.dependencies && AlarmTagChanged(x, other)
                               && CurrentTagId(x, other) == v.dependencies[i].tagId
  {
    hide DifferencesOf, ValidIndex, WellFormed, Paired, Touched, FateOfTag, AlarmTagChanged, AlarmRedefined, CurrentTagId, DistinctKeys;
    WellFormedParts(v);
    DifferencesRead(x, v);
    TouchesFacts(x);
    OnlyAlarms(x);
    var dep, d := v.dependencies[i], DifferencesOf(x, v);
    if dep.tagId in d.conflictedTags {
      var other :| other in v.dependencies && ConflictsTag(x, other, dep.tagId);
      SameKind(v, i, other);
      AlarmConflictsOnly(x, other);
      if other.alarm.None? { SameKeySame(v, i, other); }
    } else if dep.tagId in d.removedTags {
      MissingTagTouches(x, v.task, v.components[i], dep) by {
        var other :| other in v.dependencies && RemovesTag(x, other, dep.tagId);
        RemovedMissing(x, other, dep.tagId);
      }
    } else {
      var id := dep.alarm.value.alarmId;
      var other :| other in v.dependencies && other.alarm.Some? && Touched(x, other) && other.alarm.value.alarmId == id;
      SameKeySame(v, i, other);
    }
  }

  lemma RemovedMissing(x: Index, d: Dependency, t: string)
    requires RemovesTag(x, d, t)
    ensures t !in x.tags
  {
  }

  // The walk of the maps

  lemma {:induction false} SameTagNotes(x: Index, deps: map<string, Dependency>, a: seq<string>, b: seq<string>)
    requires Enumerates(a, deps.Keys) && Enumerates(b, deps.Keys)
    ensures forall c :: c in TagNotesIn(x, deps, a).changes <==> c in TagNotesIn(x, deps, b).changes
    ensures forall n :: n in TagNotesIn(x, deps, a).issues <==> n in TagNotesIn(x, deps, b).issues
  {
    hide TagNotes, Distinct;
    TagNotesMembers(x, deps, a);
    TagNotesMembers(x, deps, b);
  }

  lemma {:induction false} SameAlarmNotes(x: Index, deps: map<string, Dependency>, a: seq<string>, b: seq<string>)
    requires Enumerates(a, deps.Keys) && Enumerates(b, deps.Keys) && forall k :: k in deps ==> deps[k].alarm.Some?
    ensures forall c :: c in AlarmNotesIn(x, deps, a).changes <==> c in AlarmNotesIn(x, deps, b).changes
    ensures forall n :: n in AlarmNotesIn(x, deps, a).issues <==> n in AlarmNotesIn(x, deps, b).issues
  {
    hide AlarmNotes, Distinct;
    AlarmNotesMembers(x, deps, a);
    AlarmNotesMembers(x, deps, b);
  }

  lemma SameNotes(x: Index, v: View, o1: (seq<string>, seq<string>), o2: (seq<string>, seq<string>))
    requires Orders(v, o1.0, o1.1) && Orders(v, o2.0, o2.1)
    ensures forall c :: c in NotesFor(x, v, o1).changes <==> c in NotesFor(x, v, o2).changes
    ensures forall n :: n in NotesFor(x, v, o1).issues <==> n in NotesFor(x, v, o2).issues
  {
    hide TagNotesIn, AlarmNotesIn, RelationshipNotesIn, Distinct, TagDependenciesOf, AlarmDependenciesOf;
    SameTagNotes(x, TagDependenciesOf(v.dependencies), o1.0, o2.0);
    SameAlarmNotes(x, AlarmDependenciesOf(v.dependencies), o1.1, o2.1);
  }

  lemma MergedAlike(x: Index, v: View, latest: View, a: Notes, b: Notes)
    requires (forall c :: c in a.changes <==> c in b.changes) && (forall n :: n in a.issues <==> n in b.issues)
    ensures var r, s := Merged(x, v, latest, a), Merged(x, v, latest, b);
      && s == r.(changes := s.changes, issues := s.issues)
      && (forall c :: c in ChangesOf(r) <==> c in ChangesOf(s)) && (forall n :: n in r.issues <==> n in s.issues)
  {
    hide DifferencesOf, MergedComponents, MergedDependencies, PriorConflict;
    IssuesEmpty(v.issues, a.issues, latest.issues);
    IssuesEmpty(v.issues, b.issues, latest.issues);
    assert a.issues == [] <==> b.issues == [] by {
      if a.issues != [] { assert a.issues[0] in b.issues; }
      if b.issues != [] { assert b.issues[0] in a.issues; }
    }
  }

  /** The order in which the hash maps are walked shows in nothing but the order of new changes and issues. */
  lemma WalkIrrelevant(x: Index, v: View, o1: (seq<string>, seq<string>), o2: (seq<string>, seq<string>))
    requires Orders(v, o1.0, o1.1) && Orders(v, o2.0, o2.1)
    ensures match (Reconciled(x, v, o1.0, o1.1), Reconciled(x, v, o2.0, o2.1))
      case (Failure(e), Failure(f)) => e == f
      case (Success(r), Success(s)) =>
        && s == r.(changes := s.changes, issues := s.issues)
        && (forall c :: c in ChangesOf(r) <==> c in ChangesOf(s)) && (forall n :: n in r.issues <==> n in s.issues)
      case _ => false
  {
    hide Resolved, Merged, Oversized, OtherModel, AllNotes, Distinct, TagDependenciesOf, AlarmDependenciesOf, ChangesOf;
    SameNotes(x, v, o1, o2);
    if Resolved(x, NewTask(x, v.task)).Success? {
      MergedAlike(x, v, Latest(x, v), NotesFor(x, v, o1), NotesFor(x, v, o2));
    }
  }
}
