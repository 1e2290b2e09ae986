/** Reconciling again with the same model: the fixed point, and the one case that needs a second pass. */
module ReconciliationTwice {
  import opened Model
  import opened Reconciliation
  import opened ReconciliationChains
  import opened ReconciliationFixedPoint
  import opened ReconciliationProperties
  import opened Screen
  import opened Sequences
  import opened WellFormedViews
  import opened Wrappers

  /** A newly declared alarm on a tag that is in conflict: the first pass admits it live. */
  ghost predicate LateBlock(x: Index, v: View)
    requires Resolved(x, NewTask(x, v.task)).Success?
  {
    exists c :: c in Latest(x, v).components && c.id !in Ids(v.components) && c.tagId in DifferencesOf(x, v).conflictedTags
  }

  /** In overviews there is no such case: a tag in conflict is a bound tag. */
  lemma OverviewHasNoLateBlock(x: Index, v: View)
    requires ValidIndex(x) && WellFormed(v) && v.task.kind.Overview? && Resolved(x, NewTask(x, v.task)).Success?
    ensures !LateBlock(x, v)
  {
    hide DifferencesOf, Resolved, ValidIndex, FreshView, AlarmTagChanged, FateOfTag;
    WellFormedParts(v);
    DifferencesRead(x, v);
    FreshFacts(x, v);
    var l := Latest(x, v);
    forall c | c in l.components && c.tagId in DifferencesOf(x, v).conflictedTags ensures c.id in Ids(v.components) {
      var j :| 0 <= j < |l.components| && l.components[j] == c;
      assert Paired(l.task, l.components[j], l.dependencies[j]);
      var dep :| dep in v.dependencies && ConflictsTag(x, dep, c.tagId);
      var i :| 0 <= i < |v.dependencies| && v.dependencies[i] == dep;
      assert Paired(v.task, v.components[i], v.dependencies[i]);
      AlarmConflictsOnly(x, dep);
      assert Ids(v.components)[i] == c.id;
    }
  }

  lemma AlarmConflictsOnly(x: Index, d: Dependency)
    ensures d.alarm.None? ==> !AlarmTagChanged(x, d)
  {
  }

  /** A first result to start from: everything the second pass needs to know of it. */
  ghost predicate FirstPass(x: Index, v: View, notes: Notes, r: View) {
    && ValidIndex(x) && WellFormed(v) && WellFormed(r)
    && Resolved(x, NewTask(x, v.task)).Success?
    && r == Merged(x, v, Latest(x, v), notes)
    && (forall c :: c in notes.changes <==> exists d :: d in v.dependencies && c in NotesOf(x, d).changes)
    && (forall n :: n in notes.issues <==> exists d :: d in v.dependencies && n in NotesOf(x, d).issues)
  }

  lemma FirstPassHolds(x: Index, v: View, tagOrder: seq<string>, alarmOrder: seq<string>)
    requires ValidIndex(x) && WellFormed(v)
    requires Orders(v, tagOrder, alarmOrder) && Reconciled(x, v, tagOrder, alarmOrder).Success?
    ensures FirstPass(x, v, AllNotes(x, v, tagOrder, alarmOrder), Reconciled(x, v, tagOrder, alarmOrder).value)
  {
    hide Merged, Resolved, AllNotes, NotesOf, WellFormed, ValidIndex, Reconciled, Enumerates;
    SplitReconciled(x, v, tagOrder, alarmOrder);
    StepWellFormed(x, v, tagOrder, alarmOrder);
    NotesMembers(x, v, tagOrder, alarmOrder);
  }

  lemma SameLatest(x: Index, v: View, notes: Notes, r: View)
    requires FirstPass(x, v, notes, r)
    ensures NewTask(x, r.task) == NewTask(x, v.task) && r.modelId == x.model.modelId && r.task.modelId == Some(x.model.modelId)
  {
    hide WellFormed, Resolved, ValidIndex, MergedComponents, MergedDependencies, Verdict, FreshView;
    FreshFacts(x, v);
  }

  /** The merged places, as the second pass sees them. */
  lemma Places(x: Index, v: View, notes: Notes, r: View)
    requires FirstPass(x, v, notes, r)
    ensures var d, l := DifferencesOf(x, v), Latest(x, v);
      var n := |v.components|;
      && |r.components| == |r.dependencies| && n <= |r.components| && |v.dependencies| == n
      && (forall i :: 0 <= i < n ==> r.components[i] == MergeComponent(v.components[i], d, l.components)
                                     && r.dependencies[i] == MergeDependency(v.dependencies[i], d, l.dependencies))
      && (forall i :: n <= i < |r.components| ==> NewAt(l, r.components[i], r.dependencies[i], v.components))
      && DistinctKeys(v.dependencies) && Distinct(Ids(v.components)) && Distinct(Ids(r.components))
      && AllPaired(r.task, r.components, r.dependencies)
  {
    hide Resolved, ValidIndex, MergeComponent, MergeDependency, DifferencesOf, NewAt, WellFormed, Merged, NotesOf;
    MergedPlaces(x, v, notes);
    WellFormedParts(v);
    WellFormedParts(r);
  }

  /** The second pass finds the same dependencies touched. */
  lemma TouchedAgain(x: Index, v: View, notes: Notes, r: View)
    requires FirstPass(x, v, notes, r)
    ensures forall dep :: Touched(x, dep) ==> (dep in v.dependencies <==> dep in r.dependencies)
    ensures DifferencesOf(x, r) == DifferencesOf(x, v)
  {
    hide Resolved, ValidIndex, DifferencesOf, NewAt, WellFormed, Merged, NotesOf, Touched, MergeComponent, DependencyBlocked,
         Paired, FreshView, Blocked, MarkFor, KeyOf, Distinct;
    Places(x, v, notes, r);
    FreshFacts(x, v);
    var l := Latest(x, v);
    forall dep | Touched(x, dep) ensures dep in v.dependencies <==> dep in r.dependencies {
      if dep in v.dependencies {
        var i :| 0 <= i < |v.dependencies| && v.dependencies[i] == dep;
        TouchedIsBlocked(x, v, i);
        assert r.dependencies[i] == dep;
      }
      if dep in r.dependencies {
        var i :| 0 <= i < |r.dependencies| && r.dependencies[i] == dep;
        if i < |v.components| {
          var j := MergeAt(x, v, i);
          if !DependencyBlocked(v.dependencies[i], DifferencesOf(x, v)) {
            FreshUntouched(x, l, j);
          }
        } else {
          NewIsLive(x, v, r.components[i], r.dependencies[i]);
        }
      }
    }
    SameDifferences(x, v, r);
  }

  lemma FreshUntouched(x: Index, l: View, j: nat)
    requires FreshView(x, l) && j < |l.dependencies|
    ensures !Touched(x, l.dependencies[j])
  {
    hide Touched;
    assert l.dependencies[j] in l.dependencies;
  }

  /** A dependency is merged once and for all. */
  lemma DependencySettled(x: Index, v: View, notes: Notes, r: View, i: nat)
    requires FirstPass(x, v, notes, r) && i < |r.dependencies|
    ensures MergeDependency(r.dependencies[i], DifferencesOf(x, v), Latest(x, v).dependencies) == r.dependencies[i]
  {
    hide Resolved, ValidIndex, DifferencesOf, WellFormed, Merged, NotesOf, Touched, MergeComponent, Paired, FreshView,
         Blocked, MarkFor, KeyOf, Distinct, DependencyBlocked;
    Places(x, v, notes, r);
    FreshFacts(x, v);
    var l, d := Latest(x, v), DifferencesOf(x, v);
    WellFormedParts(l);
    if i < |v.components| {
      var j := MergeAt(x, v, i);
      if !DependencyBlocked(v.dependencies[i], d) {
        FoundIs(l.components, l.dependencies, j, l);
      }
    } else {
      var j :| 0 <= j < |l.components| == |l.dependencies| && r.components[i] == l.components[j]
               && r.dependencies[i] == l.dependencies[j];
      FoundIs(l.components, l.dependencies, j, l);
    }
  }

  lemma UntouchedTagDeclared(x: Index, task: Task, c: Component, dep: Dependency)
    requires Paired(task, c, dep) && !Touched(x, dep)
    ensures c.tagId in x.tags
  {
    hide InScope, SummaryAltered, PartAltered;
  }

  lemma DeclaredNotRemoved(x: Index, v: View, t: string)
    requires WellFormed(v) && t in x.tags
    ensures t !in DifferencesOf(x, v).removedTags
  {
    hide DifferencesOf, AlarmTagChanged, Paired;
    WellFormedParts(v);
    DifferencesRead(x, v);
  }

  /** Only a conflict on its tag can block a component that the other sets do not mention. */
  lemma OnlyTagConflict(c: Component, d: Differences)
    requires c.relationshipId == "" && d.removedRelationships == {} && d.changedRelationships == {}
    requires c.alarmId !in d.conflictedAlarms && c.alarmId !in d.removedAlarms && c.tagId !in d.removedTags
    requires c.tagId != "" && c.status == Live
    ensures Blocked(c, d) <==> c.tagId in d.conflictedTags
    ensures MarkFor(c, d) == if Blocked(c, d) then Mark(Conflicting, BindingChanged) else Mark(c.status, c.reason)
  {
  }

  lemma NewUnblocked(x: Index, v: View, notes: Notes, r: View, i: nat)
    requires FirstPass(x, v, notes, r) && |v.components| <= i < |r.components|
    ensures r.components[i].id !in Ids(v.components) && r.components[i] in Latest(x, v).components
    ensures Blocked(r.components[i], DifferencesOf(x, v)) <==> r.components[i].tagId in DifferencesOf(x, v).conflictedTags
    ensures r.components[i].status == Live
    ensures MarkFor(r.components[i], DifferencesOf(x, v))
         == if Blocked(r.components[i], DifferencesOf(x, v)) then Mark(Conflicting, BindingChanged)
            else Mark(r.components[i].status, r.components[i].reason)
    ensures FindComponent(Latest(x, v).components, r.components[i].id) == Some(r.components[i])
  {
    hide Resolved, DifferencesOf, Merged, NotesOf, FreshView, Distinct, ValidIndex, SummaryAltered, PartAltered, InScope,
         Touched, WellFormed, Blocked, MarkFor, MergeComponent, MergeDependency, KeyOf, DistinctKeys;
    Places(x, v, notes, r);
    FreshFacts(x, v);
    var l := Latest(x, v);
    WellFormedParts(l);
    WellFormedParts(v);
    NoRelationships(x, v);
    var j :| 0 <= j < |l.components| == |l.dependencies| && r.components[i] == l.components[j]
             && r.dependencies[i] == l.dependencies[j] && r.components[i].id !in Ids(v.components);
    var c := l.components[j];
    assert c in l.components;
    FreshUntouched(x, l, j);
    LiveFresh(x, l);
    assert Paired(l.task, c, l.dependencies[j]);
    FoundIs(l.components, l.dependencies, j, l);
    NewAlarmUnknown(x, v, c);
    UntouchedTagDeclared(x, l.task, c, l.dependencies[j]);
    DeclaredNotRemoved(x, v, c.tagId);
    OnlyTagConflict(c, DifferencesOf(x, v));
  }

  /** A new component is not an old alarm, and what no alarm view binds is in neither alarm set. */
  lemma NewAlarmUnknown(x: Index, v: View, c: Component)
    requires ValidIndex(x) && WellFormed(v) && c.id !in Ids(v.components)
    requires c.alarmId == "" || c.alarmId == c.id
    ensures c.alarmId !in DifferencesOf(x, v).conflictedAlarms && c.alarmId !in DifferencesOf(x, v).removedAlarms
  {
    hide DifferencesOf, ValidIndex, InScope, SummaryAltered, PartAltered;
    WellFormedParts(v);
    DifferencesRead(x, v);
    forall dep | dep in v.dependencies && dep.alarm.Some? ensures dep.alarm.value.alarmId != c.alarmId {
      var i :| 0 <= i < |v.dependencies| && v.dependencies[i] == dep;
      assert Paired(v.task, v.components[i], v.dependencies[i]);
      assert Ids(v.components)[i] == dep.alarm.value.alarmId;
    }
    OnlyAlarms(x);
  }

  /** A component is merged once and for all, except that a late block falls on the second pass. */
  lemma ComponentSettled(x: Index, v: View, notes: Notes, r: View, i: nat)
    requires FirstPass(x, v, notes, r) && i < |r.components|
    ensures var d := DifferencesOf(x, v);
      var again := MergeComponent(r.components[i], d, Latest(x, v).components);
      if i >= |v.components| && r.components[i].tagId in d.conflictedTags
      then again == Marked(r.components[i], Mark(Conflicting, BindingChanged)) && again != r.components[i]
      else again == r.components[i]
  {
    hide Resolved, ValidIndex, DifferencesOf, WellFormed, Merged, NotesOf, Touched, FreshView, KeyOf, Distinct,
         DependencyBlocked, Paired;
    Places(x, v, notes, r);
    var d := DifferencesOf(x, v);
    if i < |v.components| {
      var j := MergeAt(x, v, i);
      BlockedTogether(x, v, i);
      FreshFacts(x, v);
      var l := Latest(x, v);
      WellFormedParts(l);
      LiveFresh(x, l);
      WellFormedParts(v);
      PairedHere(v.task, v.components[i], v.dependencies[i]);
      if !DependencyBlocked(v.dependencies[i], d) {
        PairedHere(l.task, l.components[j], l.dependencies[j]);
        assert l.components[j] in l.components;
      }
      OldSettled(x, v, i, j, r.components[i]);
    } else {
      NewUnblocked(x, v, notes, r, i);
    }
  }

  lemma PairedHere(task: Task, c: Component, d: Dependency)
    requires Paired(task, c, d)
    ensures c.relationshipId == ""
  {
  }

  lemma OldSettled(x: Index, v: View, i: nat, j: nat, rc: Component)
    requires i < |v.components| && Resolved(x, NewTask(x, v.task)).Success?
    requires WellFormed(Latest(x, v))
    requires var c, d, l := v.components[i], DifferencesOf(x, v), Latest(x, v);
      && rc == MergeComponent(c, d, l.components)
      && (if Blocked(c, d) then rc == Marked(c, MarkFor(c, d))
          else j < |l.components| && rc == l.components[j] && rc.id == c.id && rc.tagId == c.tagId
               && rc.alarmId == c.alarmId && rc.relationshipId == c.relationshipId && rc.status == Live)
      && (Blocked(c, d) ==> PriorBlocked(rc))
    ensures MergeComponent(rc, DifferencesOf(x, v), Latest(x, v).components) == rc
  {
    hide DifferencesOf, Resolved, WellFormed;
    var c, d, l := v.components[i], DifferencesOf(x, v), Latest(x, v);
    if Blocked(c, d) {
      assert MarkFor(rc, d) == MarkFor(c, d);
    } else {
      FoundIs(l.components, l.dependencies, j, l);
    }
  }

  // The second pass as a whole

  lemma NoNewComponents(prior: seq<Component>, result: seq<Component>, latest: seq<Component>)
    requires Ids(result) == Ids(prior) + Ids(Filter(NewComponent(prior), latest))
    ensures Filter(NewComponent(result), latest) == []
    ensures forall c :: c in latest ==> c.id in Ids(result)
  {
    var added := Filter(NewComponent(prior), latest);
    forall c | c in latest ensures c.id in Ids(result) {
      if c.id !in Ids(prior) {
        assert c in added;
        var k :| 0 <= k < |added| && added[k] == c;
        assert Ids(added)[k] == c.id;
      }
    }
    FilterNothing(NewComponent(result), latest);
  }

  lemma NoNewDependencies(prior: seq<Dependency>, result: seq<Dependency>, latest: seq<Dependency>)
    requires Keys(result) == Keys(prior) + Keys(Filter(NewDependency(prior), latest))
    ensures Filter(NewDependency(result), latest) == []
  {
    hide KeyOf;
    var added := Filter(NewDependency(prior), latest);
    forall dep | dep in latest ensures KeyOf(dep) in Keys(result) {
      if KeyOf(dep) !in Keys(prior) {
        assert dep in added;
        var k :| 0 <= k < |added| && added[k] == dep;
        assert Keys(added)[k] == KeyOf(dep);
      }
    }
    FilterNothing(NewDependency(result), latest);
  }

  /** Nothing of the fresh view is new the second time. */
  lemma NothingNew(x: Index, v: View, notes: Notes, r: View)
    requires FirstPass(x, v, notes, r)
    ensures Filter(NewComponent(r.components), Latest(x, v).components) == []
    ensures Filter(NewDependency(r.dependencies), Latest(x, v).dependencies) == []
    ensures forall c :: c in Latest(x, v).components ==> c.id in Ids(r.components)
  {
    hide Resolved, ValidIndex, DifferencesOf, WellFormed, NotesOf, Verdict, FreshView, AddAll, MergedComponents, MergedDependencies,
         Filter, Ids, Keys;
    var l, d := Latest(x, v), DifferencesOf(x, v);
    MergedIds(v.components, d, l.components);
    MergedKeys(v.dependencies, d, l.dependencies);
    NoNewComponents(v.components, r.components, l.components);
    NoNewDependencies(v.dependencies, r.dependencies, l.dependencies);
  }

  /** The second pass has no note to add. */
  lemma NotesSettled(x: Index, v: View, notes: Notes, r: View, again: Notes)
    requires FirstPass(x, v, notes, r)
    requires forall c :: c in again.changes <==> exists d :: d in r.dependencies && c in NotesOf(x, d).changes
    requires forall n :: n in again.issues <==> exists d :: d in r.dependencies && n in NotesOf(x, d).issues
    ensures AddAll(ChangesOf(r), again.changes) == ChangesOf(r)
    ensures AddAll(AddAll(r.issues, again.issues), Latest(x, v).issues) == r.issues
  {
    hide Resolved, ValidIndex, DifferencesOf, WellFormed, NotesOf, Touched, FreshView, MergedComponents, MergedDependencies, Verdict;
    TouchedAgain(x, v, notes, r);
    forall c | c in again.changes ensures c in ChangesOf(r) {
      var dep :| dep in r.dependencies && c in NotesOf(x, dep).changes;
      UntouchedNotes(x, dep);
      assert c in notes.changes;
    }
    forall n | n in again.issues ensures n in r.issues {
      var dep :| dep in r.dependencies && n in NotesOf(x, dep).issues;
      UntouchedNotes(x, dep);
      assert n in notes.issues;
    }
    AddAllKnown(ChangesOf(r), again.changes);
    AddAllKnown(r.issues, again.issues);
    AddAllKnown(r.issues, Latest(x, v).issues);
  }

  lemma ConflictChangeMeans(x: Index, task: Task, c: Component, d: Dependency, change: Change)
    requires ValidIndex(x) && Paired(task, c, d) && change in NotesOf(x, d).changes && ConflictChange(change)
    ensures Altered(x, d)
  {
    hide ById, ValidModel, InScope;
    AlarmFacts(x);
  }

  lemma NoConflictMarks(c: Component, d: Differences, latest: seq<Component>)
    requires d.conflictedTags == {} && d.conflictedAlarms == {} && d.changedRelationships == {}
    requires forall l :: l in latest ==> l.status == Live
    ensures MergeComponent(c, d, latest).status == Conflicting ==> c.status == Conflicting
  {
  }

  /** Without a conflict this time or before, the result carries no trace of one. */
  lemma NoConflictAfter(x: Index, v: View, notes: Notes, r: View)
    requires FirstPass(x, v, notes, r) && r.status != Conflict
    ensures !PriorConflict(r)
  {
    hide Resolved, ValidIndex, DifferencesOf, WellFormed, NotesOf, FreshView, MergedComponents, MergedDependencies, Paired, Altered,
         Gone, MergeComponent, MergeDependency, KeyOf, Distinct;
    var d, l := DifferencesOf(x, v), Latest(x, v);
    assert d.conflictedTags == {} && d.conflictedAlarms == {} && d.changedRelationships == {} && !PriorConflict(v);
    DifferencesEmpty(x, v);
    Places(x, v, notes, r);
    FreshFacts(x, v);
    LiveFresh(x, l);
    WellFormedParts(v);
    forall change | change in ChangesOf(r) ensures !ConflictChange(change) {
      if change !in ChangesOf(v) && ConflictChange(change) {
        var dep :| dep in v.dependencies && change in NotesOf(x, dep).changes;
        var i :| 0 <= i < |v.dependencies| && v.dependencies[i] == dep;
        ConflictChangeMeans(x, v.task, v.components[i], dep, change);
      }
    }
    forall i | 0 <= i < |r.components| ensures r.components[i].status != Conflicting {
      if i < |v.components| {
        assert v.components[i] in v.components;
        NoConflictMarks(v.components[i], d, l.components);
      } else {
        NewIsLive(x, v, r.components[i], r.dependencies[i]);
      }
    }
  }

  lemma VerdictSettled(x: Index, v: View, notes: Notes, r: View)
    requires FirstPass(x, v, notes, r)
    ensures Verdict(r, DifferencesOf(x, v), r.issues) == r.status
  {
    hide Resolved, ValidIndex, DifferencesOf, WellFormed, NotesOf, FreshView, MergedComponents, MergedDependencies;
    if r.status != Conflict { NoConflictAfter(x, v, notes, r); }
  }

  lemma DependenciesSettled(x: Index, v: View, notes: Notes, r: View)
    requires FirstPass(x, v, notes, r)
    ensures MergedDependencies(r.dependencies, DifferencesOf(x, v), Latest(x, v).dependencies) == r.dependencies
  {
    hide DifferencesOf, MergeDependency, Merged, NotesOf, WellFormed, ValidIndex, Resolved;
    NothingNew(x, v, notes, r);
    forall i | 0 <= i < |r.dependencies|
      ensures MergeDependency(r.dependencies[i], DifferencesOf(x, v), Latest(x, v).dependencies) == r.dependencies[i]
    {
      DependencySettled(x, v, notes, r, i);
    }
  }

  function SecondView(r: View, d: Differences, latest: seq<Component>): View {
    r.(components := Map(ComponentMerger(d, latest), r.components))
  }

  /** Reconciling the result with the same model: only the late blocks still fall. */
  lemma SecondPass(x: Index, v: View, notes: Notes, r: View, tagOrder: seq<string>, alarmOrder: seq<string>)
    requires FirstPass(x, v, notes, r) && |r.components| <= MAX_COMPONENTS && Orders(r, tagOrder, alarmOrder)
    ensures Reconciled(x, r, tagOrder, alarmOrder)
         == if Oversized(r) then Failure(InvalidView)
            else Success(SecondView(r, DifferencesOf(x, v), Latest(x, v).components))
  {
    hide Resolved, DifferencesOf, WellFormed, ValidIndex, NotesOf, MergeComponent, MergedDependencies, Verdict, AddAll, AllNotes,
         Oversized, Enumerates, ChangesOf;
    var l := Latest(x, v);
    SameLatest(x, v, notes, r);
    TouchedAgain(x, v, notes, r);
    NothingNew(x, v, notes, r);
    DependenciesSettled(x, v, notes, r);
    NotesMembers(x, r, tagOrder, alarmOrder);
    NotesSettled(x, v, notes, r, AllNotes(x, r, tagOrder, alarmOrder));
    VerdictSettled(x, v, notes, r);
    ResultShape(x, v, notes, r);
    assert Latest(x, r) == l;
    assert Merged(x, r, l, AllNotes(x, r, tagOrder, alarmOrder)) == SecondView(r, DifferencesOf(x, v), l.components);
  }

  lemma ResultShape(x: Index, v: View, notes: Notes, r: View)
    requires FirstPass(x, v, notes, r)
    ensures r.changes == Some(ChangesOf(r)) && r.reconciled && r.task == NewTask(x, r.task)
    ensures Latest(x, v).(task := r.task, components := r.components, dependencies := r.dependencies, issues := r.issues,
                          changes := r.changes, status := r.status, reconciled := true) == r
  {
    hide Resolved, DifferencesOf, WellFormed, ValidIndex, NotesOf, MergedComponents, MergedDependencies, Verdict, AddAll;
  }

  lemma SecondIsFirst(x: Index, v: View, notes: Notes, r: View)
    requires FirstPass(x, v, notes, r)
    ensures SecondView(r, DifferencesOf(x, v), Latest(x, v).components) == r <==> !LateBlock(x, v)
  {
    hide Resolved, DifferencesOf, WellFormed, ValidIndex, NotesOf, MergeComponent, MergeDependency, Verdict, AddAll, MergedDependencies,
         Merged, LateBlock, MergedComponents, FirstPass;
    FirstPassResolves(x, v, notes, r);
    var d, l, n := DifferencesOf(x, v), Latest(x, v), |v.components|;
    Places(x, v, notes, r);
    MergedIs(x, v, notes, r);
    var second := SecondView(r, d, l.components);
    forall i | 0 <= i < |r.components|
      ensures second.components[i] != r.components[i] <==> i >= n && r.components[i].tagId in d.conflictedTags
    {
      ComponentSettled(x, v, notes, r, i);
    }
    LateAt(x, v, r);
    if !LateBlock(x, v) {
      assert second.components == r.components;
    }
  }

  /** A late block is a place of the result after the old ones. */
  lemma LateAt(x: Index, v: View, r: View)
    requires Resolved(x, NewTask(x, v.task)).Success?
    requires r.components == MergedComponents(v.components, DifferencesOf(x, v), Latest(x, v).components)
    ensures LateBlock(x, v) <==>
      exists i :: |v.components| <= i < |r.components| && r.components[i].tagId in DifferencesOf(x, v).conflictedTags
  {
    hide Resolved, DifferencesOf, MergeComponent;
    var d, l, n := DifferencesOf(x, v), Latest(x, v), |v.components|;
    var added := Filter(NewComponent(v.components), l.components);
    if LateBlock(x, v) {
      var c :| c in l.components && c.id !in Ids(v.components) && c.tagId in d.conflictedTags;
      assert c in added;
      var k :| 0 <= k < |added| && added[k] == c;
      assert r.components[n + k] == c;
    }
    forall i | n <= i < |r.components| ensures r.components[i] in l.components && r.components[i].id !in Ids(v.components) {
      assert r.components[i] == added[i - n];
      assert added[i - n] in added;
    }
  }

  lemma FirstPassResolves(x: Index, v: View, notes: Notes, r: View)
    requires FirstPass(x, v, notes, r)
    ensures Resolved(x, NewTask(x, v.task)).Success?
  {
    hide Resolved;
  }

  lemma MergedIs(x: Index, v: View, notes: Notes, r: View)
    requires FirstPass(x, v, notes, r)
    ensures r.components == MergedComponents(v.components, DifferencesOf(x, v), Latest(x, v).components)
  {
    hide MergedComponents, Resolved, DifferencesOf, WellFormed, ValidIndex, NotesOf, MergedDependencies, Verdict, AddAll;
  }

  /** The fixed point: reconciling the result again with the same model gives the result itself exactly when no new
      component stands on a tag in conflict; whatever the walks of the maps. It is refused only if it outgrew the limits
      on the input. */
  lemma FixedPoint(x: Index, v: View, o1: (seq<string>, seq<string>), o2: (seq<string>, seq<string>))
    requires ValidIndex(x) && WellFormed(v) && Orders(v, o1.0, o1.1) && Reconciled(x, v, o1.0, o1.1).Success?
    requires Orders(Reconciled(x, v, o1.0, o1.1).value, o2.0, o2.1)
    ensures Resolved(x, NewTask(x, v.task)).Success?
    ensures var r := Reconciled(x, v, o1.0, o1.1).value;
      match Reconciled(x, r, o2.0, o2.1)
      case Failure(e) => e == InvalidView && Oversized(r)
      case Success(again) => !Oversized(r) && (again == r <==> !LateBlock(x, v)) && (v.task.kind.Overview? ==> again == r)
  {
    hide Resolved, DifferencesOf, WellFormed, ValidIndex, AllNotes, Reconciled, LateBlock, Oversized, Enumerates, Merged, NotesOf;
    SplitReconciled(x, v, o1.0, o1.1);
    FirstPassHolds(x, v, o1.0, o1.1);
    var r, notes := Reconciled(x, v, o1.0, o1.1).value, NotesFor(x, v, o1);
    SecondPass(x, v, notes, r, o2.0, o2.1);
    SecondIsFirst(x, v, notes, r);
    if v.task.kind.Overview? { OverviewHasNoLateBlock(x, v); }
  }

  ghost function NotesFor(x: Index, v: View, o: (seq<string>, seq<string>)): Notes
    requires Orders(v, o.0, o.1)
  {
    AllNotes(x, v, o.0, o.1)
  }

  /** A third pass always equals the second. */
  lemma ThirdPass(x: Index, v: View, o1: (seq<string>, seq<string>), o2: (seq<string>, seq<string>), o3: (seq<string>, seq<string>))
    requires ValidIndex(x) && WellFormed(v) && Orders(v, o1.0, o1.1) && Reconciled(x, v, o1.0, o1.1).Success?
    requires var r := Reconciled(x, v, o1.0, o1.1).value;
      && Orders(r, o2.0, o2.1) && Reconciled(x, r, o2.0, o2.1).Success?
      && Orders(Reconciled(x, r, o2.0, o2.1).value, o3.0, o3.1)
    ensures var second := Reconciled(x, Reconciled(x, v, o1.0, o1.1).value, o2.0, o2.1).value;
      Reconciled(x, second, o3.0, o3.1) == Success(second)
  {
    hide Resolved, DifferencesOf, WellFormed, ValidIndex, AllNotes, Reconciled, Oversized, Enumerates, Merged, NotesOf;
    SplitReconciled(x, v, o1.0, o1.1);
    FirstPassHolds(x, v, o1.0, o1.1);
    StepWellFormed(x, v, o1.0, o1.1);
    var r, notes := Reconciled(x, v, o1.0, o1.1).value, NotesFor(x, v, o1);
    SecondPass(x, v, notes, r, o2.0, o2.1);
    var second := Reconciled(x, r, o2.0, o2.1).value;
    assert !Oversized(second) by { SameSizes(r, second, DifferencesOf(x, v), Latest(x, v).components); }
    NothingNew(x, v, notes, r);
    FirstPassTask(x, v, notes, r);
    FixedPoint(x, r, o2, o3);
  }

  lemma FirstPassTask(x: Index, v: View, notes: Notes, r: View)
    requires FirstPass(x, v, notes, r)
    ensures NewTask(x, r.task) == NewTask(x, v.task) && Latest(x, r) == Latest(x, v)
  {
    hide WellFormed, Resolved, ValidIndex, Merged, NotesOf;
    SameLatest(x, v, notes, r);
  }

  lemma SameSizes(r: View, second: View, d: Differences, latest: seq<Component>)
    requires second == SecondView(r, d, latest)
    ensures Oversized(second) == Oversized(r)
  {
  }
}
