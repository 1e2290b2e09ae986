/** The exact verdict of a reconciliation, and what reconciling again with the same model adds. */
module ReconciliationFixedPoint {
  import opened Model
  import opened Reconciliation
  import opened ReconciliationChains
  import opened ReconciliationProperties
  import opened Screen
  import opened Sequences
  import opened WellFormedViews
  import opened Wrappers

  /** The bound tag or alarm is still declared, but means something else. */
  ghost predicate Altered(x: Index, d: Dependency) {
    match d.alarm
    case None => d.tagId in x.tags && BindingOf(x.tags[d.tagId]) != d.binding
    case Some(p) => p.alarmId in x.alarms
                    && (DefinitionOf(x.alarms[p.alarmId]) != p.definition
                        || BindingOf(TagOf(x, x.alarms[p.alarmId])) != d.binding)
  }

  ghost predicate Gone(x: Index, d: Dependency) {
    match d.alarm case None => d.tagId !in x.tags case Some(p) => p.alarmId !in x.alarms
  }

  lemma TouchedMeans(x: Index, task: Task, c: Component, d: Dependency)
    requires ValidIndex(x) && Paired(task, c, d)
    ensures Touched(x, d) <==> Altered(x, d) || Gone(x, d)
  {
    hide ById, ValidModel, InScope;
    AlarmFacts(x);
  }

  // The notes, read off the list of dependencies

  function NotesOf(x: Index, d: Dependency): Notes {
    if d.alarm.None? then TagNotes(x, d) else AlarmNotes(x, d)
  }

  lemma UntouchedNotes(x: Index, d: Dependency)
    ensures !Touched(x, d) ==> NotesOf(x, d) == NOTHING
    ensures NotesOf(x, d) == NOTHING ==> !Touched(x, d)
  {
  }

  lemma {:induction false} TagNotesMembers(x: Index, deps: map<string, Dependency>, order: seq<string>)
    requires forall t :: t in order ==> t in deps
    ensures forall c :: c in TagNotesIn(x, deps, order).changes <==> exists t :: t in order && c in TagNotes(x, deps[t]).changes
    ensures forall n :: n in TagNotesIn(x, deps, order).issues <==> exists t :: t in order && n in TagNotes(x, deps[t]).issues
    decreases |order|
  {
    hide TagNotes;
    if order != [] {
      var front, last := order[..|order| - 1], order[|order| - 1];
      TagNotesMembers(x, deps, front);
      assert forall t :: t in order <==> t in front || t == last;
    }
  }

  lemma {:induction false} AlarmNotesMembers(x: Index, deps: map<string, Dependency>, order: seq<string>)
    requires forall a :: a in order ==> a in deps && deps[a].alarm.Some?
    ensures forall c :: c in AlarmNotesIn(x, deps, order).changes <==> exists a :: a in order && c in AlarmNotes(x, deps[a]).changes
    ensures forall n :: n in AlarmNotesIn(x, deps, order).issues <==> exists a :: a in order && n in AlarmNotes(x, deps[a]).issues
    decreases |order|
  {
    hide AlarmNotes;
    if order != [] {
      var front, last := order[..|order| - 1], order[|order| - 1];
      AlarmNotesMembers(x, deps, front);
      assert forall a :: a in order <==> a in front || a == last;
    }
  }

  lemma TagSide(x: Index, deps: seq<Dependency>, order: seq<string>) returns (notes: Notes)
    requires DistinctKeys(deps) && Enumerates(order, TagDependenciesOf(deps).Keys)
    ensures notes == TagNotesIn(x, TagDependenciesOf(deps), order)
    ensures forall c :: c in notes.changes <==> exists d :: d in deps && d.alarm.None? && c in NotesOf(x, d).changes
    ensures forall n :: n in notes.issues <==> exists d :: d in deps && d.alarm.None? && n in NotesOf(x, d).issues
  {
    hide TagNotes, AlarmNotes, TagDependenciesOf, AlarmDependenciesOf, TagNotesIn, Distinct, DistinctKeys;
    MapsFaithful(deps);
    var tags := TagDependenciesOf(deps);
    TagNotesMembers(x, tags, order);
    notes := TagNotesIn(x, tags, order);
    forall t | t in order ensures tags[t] in deps && tags[t].alarm.None? && NotesOf(x, tags[t]) == TagNotes(x, tags[t]) {}
    forall d | d in deps && d.alarm.None? ensures d.tagId in order && tags[d.tagId] == d && NotesOf(x, d) == TagNotes(x, d) {}
  }

  lemma AlarmSide(x: Index, deps: seq<Dependency>, order: seq<string>) returns (notes: Notes)
    requires DistinctKeys(deps) && Enumerates(order, AlarmDependenciesOf(deps).Keys)
    ensures notes == AlarmNotesIn(x, AlarmDependenciesOf(deps), order)
    ensures forall c :: c in notes.changes <==> exists d :: d in deps && d.alarm.Some? && c in NotesOf(x, d).changes
    ensures forall n :: n in notes.issues <==> exists d :: d in deps && d.alarm.Some? && n in NotesOf(x, d).issues
  {
    hide TagNotes, AlarmNotes, TagDependenciesOf, AlarmDependenciesOf, AlarmNotesIn, Distinct, DistinctKeys;
    MapsFaithful(deps);
    var alarms := AlarmDependenciesOf(deps);
    AlarmNotesMembers(x, alarms, order);
    notes := AlarmNotesIn(x, alarms, order);
    forall a | a in order ensures alarms[a] in deps && alarms[a].alarm.Some? && NotesOf(x, alarms[a]) == AlarmNotes(x, alarms[a]) {}
    forall d | d in deps && d.alarm.Some?
      ensures d.alarm.value.alarmId in order && alarms[d.alarm.value.alarmId] == d && NotesOf(x, d) == AlarmNotes(x, d) {}
  }

  /** The notes of a well-formed view are those of its dependencies, in whatever order the maps are walked. */
  lemma NotesMembers(x: Index, v: View, tagOrder: seq<string>, alarmOrder: seq<string>)
    requires WellFormed(v) && Orders(v, tagOrder, alarmOrder)
    ensures var notes := AllNotes(x, v, tagOrder, alarmOrder);
      && (forall c :: c in notes.changes <==> exists d :: d in v.dependencies && c in NotesOf(x, d).changes)
      && (forall n :: n in notes.issues <==> exists d :: d in v.dependencies && n in NotesOf(x, d).issues)
  {
    hide NotesOf, Paired, DistinctKeys, WellFormed, Enumerates, Both;
    WellFormedParts(v);
    NoRelationships(x, v);
    OrdersEnumerate(v, tagOrder, alarmOrder);
    var ts := TagSide(x, v.dependencies, tagOrder);
    var als := AlarmSide(x, v.dependencies, alarmOrder);
    CombineNotes(x, v.dependencies, ts, als);
    assert AllNotes(x, v, tagOrder, alarmOrder) == Both(Both(ts, als), NOTHING);
  }

  lemma CombineNotes(x: Index, deps: seq<Dependency>, ts: Notes, als: Notes)
    requires forall c :: c in ts.changes <==> exists d :: d in deps && d.alarm.None? && c in NotesOf(x, d).changes
    requires forall n :: n in ts.issues <==> exists d :: d in deps && d.alarm.None? && n in NotesOf(x, d).issues
    requires forall c :: c in als.changes <==> exists d :: d in deps && d.alarm.Some? && c in NotesOf(x, d).changes
    requires forall n :: n in als.issues <==> exists d :: d in deps && d.alarm.Some? && n in NotesOf(x, d).issues
    ensures var notes := Both(Both(ts, als), NOTHING);
      && (forall c :: c in notes.changes <==> exists d :: d in deps && c in NotesOf(x, d).changes)
      && (forall n :: n in notes.issues <==> exists d :: d in deps && n in NotesOf(x, d).issues)
  {
    hide NotesOf;
    var notes := Both(Both(ts, als), NOTHING);
    forall c ensures c in notes.changes <==> exists d :: d in deps && c in NotesOf(x, d).changes {
      assert c in notes.changes <==> c in ts.changes || c in als.changes;
    }
    forall n ensures n in notes.issues <==> exists d :: d in deps && n in NotesOf(x, d).issues {
      assert n in notes.issues <==> n in ts.issues || n in als.issues;
    }
  }

  lemma OrdersEnumerate(v: View, tagOrder: seq<string>, alarmOrder: seq<string>)
    requires Orders(v, tagOrder, alarmOrder)
    ensures Enumerates(tagOrder, TagDependenciesOf(v.dependencies).Keys)
    ensures Enumerates(alarmOrder, AlarmDependenciesOf(v.dependencies).Keys)
    ensures forall a :: a in alarmOrder ==> a in AlarmDependenciesOf(v.dependencies)
    ensures forall t :: t in tagOrder ==> t in TagDependenciesOf(v.dependencies)
  {
  }

  // The sets and the verdict

  /** What one dependency puts into the sets, and why. */
  lemma CauseAndMark(x: Index, task: Task, c: Component, dep: Dependency)
    requires ValidIndex(x) && Paired(task, c, dep)
    ensures Altered(x, dep) <==> (exists t :: ConflictsTag(x, dep, t)) || AlarmRedefined(x, dep)
    ensures Gone(x, dep) <==> (exists t :: RemovesTag(x, dep, t)) || AlarmGone(x, dep)
  {
    hide ById, ValidModel, InScope;
    AlarmFacts(x);
    if dep.alarm.None? {
      assert ConflictsTag(x, dep, dep.tagId) <==> Altered(x, dep);
      assert RemovesTag(x, dep, dep.tagId) <==> Gone(x, dep);
    } else {
      assert ConflictsTag(x, dep, CurrentTagId(x, dep)) <==> AlarmTagChanged(x, dep);
    }
  }

  /** Which of the sets are empty is told by what became of the dependencies. */
  lemma DifferencesEmpty(x: Index, v: View)
    requires ValidIndex(x) && WellFormed(v)
    ensures var d := DifferencesOf(x, v);
      && d.removedRelationships == {} && d.changedRelationships == {}
      && (d.conflictedTags != {} || d.conflictedAlarms != {} <==> exists dep :: dep in v.dependencies && Altered(x, dep))
      && (d.removedTags != {} || d.removedAlarms != {} <==> exists dep :: dep in v.dependencies && Gone(x, dep))
  {
    hide DifferencesOf, ValidIndex, Paired, Altered, Gone, ConflictsTag, RemovesTag, AlarmRedefined, AlarmGone;
    WellFormedParts(v);
    DifferencesRead(x, v);
    NoRelationships(x, v);
    OnlyAlarms(x);
    var d := DifferencesOf(x, v);
    forall dep | dep in v.dependencies
      ensures Altered(x, dep) <==> (exists t :: ConflictsTag(x, dep, t)) || AlarmRedefined(x, dep)
      ensures Gone(x, dep) <==> (exists t :: RemovesTag(x, dep, t)) || AlarmGone(x, dep)
    {
      var i :| 0 <= i < |v.dependencies| && v.dependencies[i] == dep;
      CauseAndMark(x, v.task, v.components[i], dep);
    }
    ConflictsFilled(x, v, d);
    RemovalsFilled(x, v, d);
  }

  lemma ConflictsFilled(x: Index, v: View, d: Differences)
    requires forall t :: t in d.conflictedTags <==> exists dep :: dep in v.dependencies && ConflictsTag(x, dep, t)
    requires forall dep :: AlarmRedefined(x, dep) ==> dep.alarm.Some?
    requires forall a :: a in d.conflictedAlarms <==>
      exists dep :: dep in v.dependencies && AlarmRedefined(x, dep) && dep.alarm.value.alarmId == a
    ensures d.conflictedTags != {} || d.conflictedAlarms != {} <==>
      exists dep :: dep in v.dependencies && ((exists t :: ConflictsTag(x, dep, t)) || AlarmRedefined(x, dep))
  {
    hide ConflictsTag, AlarmRedefined;
    forall dep | dep in v.dependencies && AlarmRedefined(x, dep) ensures d.conflictedAlarms != {} {
      assert dep.alarm.value.alarmId in d.conflictedAlarms;
    }
    forall dep, t | dep in v.dependencies && ConflictsTag(x, dep, t) ensures d.conflictedTags != {} {
      assert t in d.conflictedTags;
    }
    if d.conflictedTags != {} { var t :| t in d.conflictedTags; }
    if d.conflictedAlarms != {} { var a :| a in d.conflictedAlarms; }
  }

  lemma RemovalsFilled(x: Index, v: View, d: Differences)
    requires forall t :: t in d.removedTags <==> exists dep :: dep in v.dependencies && RemovesTag(x, dep, t)
    requires forall dep :: AlarmGone(x, dep) ==> dep.alarm.Some?
    requires forall a :: a in d.removedAlarms <==>
      exists dep :: dep in v.dependencies && AlarmGone(x, dep) && dep.alarm.value.alarmId == a
    ensures d.removedTags != {} || d.removedAlarms != {} <==>
      exists dep :: dep in v.dependencies && ((exists t :: RemovesTag(x, dep, t)) || AlarmGone(x, dep))
  {
    hide RemovesTag, AlarmGone;
    forall dep | dep in v.dependencies && AlarmGone(x, dep) ensures d.removedAlarms != {} {
      assert dep.alarm.value.alarmId in d.removedAlarms;
    }
    forall dep, t | dep in v.dependencies && RemovesTag(x, dep, t) ensures d.removedTags != {} {
      assert t in d.removedTags;
    }
    if d.removedTags != {} { var t :| t in d.removedTags; }
    if d.removedAlarms != {} { var a :| a in d.removedAlarms; }
  }

  /** The exact verdict of any reconciliation of a well-formed view. */
  lemma VerdictExact(x: Index, v: View, tagOrder: seq<string>, alarmOrder: seq<string>)
    requires ValidIndex(x) && WellFormed(v)
    requires Orders(v, tagOrder, alarmOrder) && Reconciled(x, v, tagOrder, alarmOrder).Success?
    ensures Resolved(x, NewTask(x, v.task)).Success?
    ensures var r := Reconciled(x, v, tagOrder, alarmOrder).value;
      var conflict := PriorConflict(v) || exists dep :: dep in v.dependencies && Altered(x, dep);
      var review := (exists dep :: dep in v.dependencies && Gone(x, dep)) || v.issues != [] || Latest(x, v).issues != []
                    || v.status == NeedsReview;
      r.status == if conflict then Conflict else if review then NeedsReview else Ready
  {
    hide Resolved, DifferencesOf, PriorConflict, AllNotes, Altered, Gone, NotesOf, MergedComponents, MergedDependencies, WellFormed, ValidIndex;
    SplitReconciled(x, v, tagOrder, alarmOrder);
    DifferencesEmpty(x, v);
    NotesMembers(x, v, tagOrder, alarmOrder);
    var notes := AllNotes(x, v, tagOrder, alarmOrder);
    var issues := AddAll(AddAll(v.issues, notes.issues), Latest(x, v).issues);
    if notes.issues != [] {
      assert notes.issues[0] in notes.issues;
      var dep := NoteSource(x, v, notes.issues[0]);
    }
    assert issues == [] <==> v.issues == [] && notes.issues == [] && Latest(x, v).issues == [] by {
      IssuesEmpty(v.issues, notes.issues, Latest(x, v).issues);
    }
  }

  lemma IssuesEmpty(a: seq<Issue>, b: seq<Issue>, c: seq<Issue>)
    ensures AddAll(AddAll(a, b), c) == [] <==> a == [] && b == [] && c == []
  {
    var all := AddAll(AddAll(a, b), c);
    if b != [] { assert b[0] in all; }
    if c != [] { assert c[0] in all; }
  }

  /** A note has a cause: some dependency altered or gone. */
  lemma NoteSource(x: Index, v: View, n: Issue) returns (dep: Dependency)
    requires ValidIndex(x) && WellFormed(v)
    requires exists d :: d in v.dependencies && n in NotesOf(x, d).issues
    ensures dep in v.dependencies && (Altered(x, dep) || Gone(x, dep))
  {
    hide NotesOf, Altered, Gone, Touched, ValidIndex, Paired;
    dep :| dep in v.dependencies && n in NotesOf(x, dep).issues;
    var i :| 0 <= i < |v.dependencies| && v.dependencies[i] == dep;
    assert Paired(v.task, v.components[i], v.dependencies[i]);
    TouchedMeans(x, v.task, v.components[i], dep);
    UntouchedNotes(x, dep);
  }

  // The first reconciliation of a resolved view

  /** Between two revisions, something in the scope of the task kept its identity and changed its meaning. */
  ghost predicate MeaningChanged(x1: Index, x2: Index, task: Task) {
    if task.kind.Overview?
    then exists t :: t in x1.model.tags && InScope(task, t.assetId, t.role)
                     && t.id in x2.tags && BindingOf(x2.tags[t.id]) != BindingOf(t)
    else exists a :: a in x1.model.alarms && InScope(task, a.assetId, TagOf(x1, a).role) && AlarmRemade(x1, x2, a)
  }

  /** The alarm is still declared, but it or the tag it names means something else. */
  ghost predicate AlarmRemade(x1: Index, x2: Index, a: Alarm) {
    a.id in x2.alarms && (DefinitionOf(x2.alarms[a.id]) != DefinitionOf(a)
                          || BindingOf(TagOf(x2, x2.alarms[a.id])) != BindingOf(TagOf(x1, a)))
  }

  /** Something in the scope of the task is no longer declared. */
  ghost predicate Undeclared(x1: Index, x2: Index, task: Task) {
    if task.kind.Overview?
    then exists t :: t in x1.model.tags && InScope(task, t.assetId, t.role) && t.id !in x2.tags
    else exists a :: a in x1.model.alarms && InScope(task, a.assetId, TagOf(x1, a).role) && a.id !in x2.alarms
  }

  lemma OverviewBoundTo(x1: Index, x2: Index, task: Task)
    requires ValidIndex(x1) && task.kind.Overview?
    ensures (exists d :: d in OverviewView(x1, task).dependencies && Altered(x2, d)) <==> MeaningChanged(x1, x2, task)
    ensures (exists d :: d in OverviewView(x1, task).dependencies && Gone(x2, d)) <==> Undeclared(x1, x2, task)
  {
    hide ValidIndex, TagsOf, InScope, KindFor, AssetName;
    OverviewMembers(x1, task);
    var tags := TagsOf(x1, task, OverviewAssets(x1, task));
    var deps := OverviewView(x1, task).dependencies;
    forall i | 0 <= i < |tags|
      ensures deps[i] == DependencyFor(tags[i], x1.digest) && deps[i] in deps && tags[i] in tags {}
    forall t | t in tags ensures DependencyFor(t, x1.digest) in deps {
      var i :| 0 <= i < |tags| && tags[i] == t;
      assert deps[i] == DependencyFor(t, x1.digest);
    }
    forall d | d in deps ensures exists t :: t in tags && d == DependencyFor(t, x1.digest) {
      var i :| 0 <= i < |deps| && deps[i] == d;
      assert tags[i] in tags;
    }
  }

  lemma AlarmsBoundTo(x1: Index, x2: Index, task: Task)
    requires ValidIndex(x1) && task.kind.Alarms?
    ensures (exists d :: d in AlarmsView(x1, task).dependencies && Altered(x2, d)) <==> MeaningChanged(x1, x2, task)
    ensures (exists d :: d in AlarmsView(x1, task).dependencies && Gone(x2, d)) <==> Undeclared(x1, x2, task)
  {
    hide ValidIndex, ScopedAlarms, InScope, DependencyForAlarm, TagOf, Altered, Gone, AlarmRemade;
    AlarmMembers(x1, task);
    var alarms := ScopedAlarms(x1, task);
    var deps := AlarmsView(x1, task).dependencies;
    forall a | a in alarms
      ensures var d := DependencyForAlarm(a, TagOf(x1, a), x1.digest);
        d in deps && (Altered(x2, d) <==> AlarmRemade(x1, x2, a)) && (Gone(x2, d) <==> a.id !in x2.alarms)
    {
      AlarmFateRead(x1, x2, a);
      var i :| 0 <= i < |alarms| && alarms[i] == a;
      assert deps[i] == DependencyForAlarm(a, TagOf(x1, a), x1.digest);
    }
    forall d | d in deps ensures exists a :: a in alarms && d == DependencyForAlarm(a, TagOf(x1, a), x1.digest) {
      var i :| 0 <= i < |deps| && deps[i] == d;
      assert alarms[i] in alarms;
    }
  }

  lemma AlarmFateRead(x1: Index, x2: Index, a: Alarm)
    ensures var d := DependencyForAlarm(a, TagOf(x1, a), x1.digest);
      (Altered(x2, d) <==> AlarmRemade(x1, x2, a)) && (Gone(x2, d) <==> a.id !in x2.alarms)
  {
  }

  /** The exact verdict between two revisions of one model. */
  lemma FirstVerdict(x1: Index, x2: Index, task: Task, tagOrder: seq<string>, alarmOrder: seq<string>)
    requires ValidIndex(x1) && ValidIndex(x2) && Resolved(x1, task).Success?
    requires var v := Resolved(x1, task).value;
      Orders(v, tagOrder, alarmOrder) && Reconciled(x2, v, tagOrder, alarmOrder).Success?
    ensures var v := Resolved(x1, task).value;
      Resolved(x2, NewTask(x2, v.task)).Success?
    ensures var v := Resolved(x1, task).value;
      var r := Reconciled(x2, v, tagOrder, alarmOrder).value;
      r.status == if MeaningChanged(x1, x2, task) then Conflict
                  else if Undeclared(x1, x2, task) || v.issues != [] || Latest(x2, v).issues != [] then NeedsReview
                  else Ready
  {
    hide FreshView, AlarmsView, OverviewView, ValidIndex, Reconciled, Altered, Gone, InScope, Orders;
    var v := Resolved(x1, task).value;
    ResolvedIsFresh(x1, task);
    FreshIsUnmarked(x1, v);
    VerdictExact(x2, v, tagOrder, alarmOrder);
    var effective := task.(modelId := Some(x1.model.modelId));
    ScopeOfEffective(x1, x2, task);
    if task.kind.Overview? {
      OverviewBoundTo(x1, x2, effective);
    } else {
      AlarmsBoundTo(x1, x2, effective);
    }
  }

  lemma FreshIsUnmarked(x: Index, v: View)
    requires FreshView(x, v)
    ensures WellFormed(v) && !PriorConflict(v) && (v.status == NeedsReview ==> v.issues != [])
  {
    hide WellFormed;
  }

  lemma ScopeOfEffective(x1: Index, x2: Index, task: Task)
    ensures var effective := task.(modelId := Some(x1.model.modelId));
      && MeaningChanged(x1, x2, effective) == MeaningChanged(x1, x2, task)
      && Undeclared(x1, x2, effective) == Undeclared(x1, x2, task)
  {
    var effective := task.(modelId := Some(x1.model.modelId));
    assert forall owner, role :: InScope(effective, owner, role) == InScope(task, owner, role);
  }

  /** A ready verdict means what it says: the components are exactly the live ones of the fresh view. */
  lemma ReadyMeansFresh(x: Index, v: View, tagOrder: seq<string>, alarmOrder: seq<string>)
    requires ValidIndex(x) && WellFormed(v)
    requires Orders(v, tagOrder, alarmOrder) && Reconciled(x, v, tagOrder, alarmOrder).Success?
    requires Reconciled(x, v, tagOrder, alarmOrder).value.status == Ready
    ensures Resolved(x, NewTask(x, v.task)).Success?
    ensures var r := Reconciled(x, v, tagOrder, alarmOrder).value;
      && (forall c :: c in r.components <==> c in Latest(x, v).components)
      && (forall c :: c in r.components ==> c.status == Live)
      && Distinct(Ids(r.components))
  {
    hide Resolved, DifferencesOf, PriorConflict, AllNotes, MergedComponents, MergedDependencies, ValidIndex, Paired,
         MergeComponent, MergeDependency, DependencyBlocked, Verdict, Reconciled, FreshView, Distinct, Enumerates;
    SplitReconciled(x, v, tagOrder, alarmOrder);
    StepWellFormed(x, v, tagOrder, alarmOrder);
    var r := Reconciled(x, v, tagOrder, alarmOrder).value;
    var l, d := Latest(x, v), DifferencesOf(x, v);
    WellFormedParts(v);
    WellFormedParts(r);
    FreshFacts(x, v);
    LiveFresh(x, l);
    MergedPlaces(x, v, AllNotes(x, v, tagOrder, alarmOrder));
    forall i | 0 <= i < |r.components| ensures r.components[i] in l.components {
      assert r.components[i] in r.components;
      if i < |v.components| {
        if DependencyBlocked(v.dependencies[i], d) { BlockedDependencyMarks(x, v, i); VerdictOf(x, v, tagOrder, alarmOrder); }
        var j := MergeAt(x, v, i);
        assert !PriorBlocked(r.components[i]);
        assert l.components[j] in l.components;
      } else {
        NewIsLive(x, v, r.components[i], r.dependencies[i]);
      }
    }
    ComponentConservation(x, v, tagOrder, alarmOrder);
    forall c | c in l.components ensures c in r.components {
      var id := c.id;
      FreshIdsKept(v, l, r, id);
      var i :| 0 <= i < |r.components| && r.components[i].id == id;
      assert r.components[i] in l.components;
      SameIdSame(l, r.components[i], c);
    }
  }

  lemma VerdictOf(x: Index, v: View, tagOrder: seq<string>, alarmOrder: seq<string>)
    requires Orders(v, tagOrder, alarmOrder) && Reconciled(x, v, tagOrder, alarmOrder).Success?
    ensures var r := Reconciled(x, v, tagOrder, alarmOrder).value; r.status == Verdict(v, DifferencesOf(x, v), r.issues)
  {
    hide Verdict, DifferencesOf, Resolved, AllNotes, MergedComponents, MergedDependencies;
  }

  lemma LiveFresh(x: Index, l: View)
    requires FreshView(x, l)
    ensures forall c :: c in l.components ==> c.status == Live
  {
  }

  lemma SameIdSame(l: View, a: Component, b: Component)
    requires Distinct(Ids(l.components)) && a in l.components && b in l.components && a.id == b.id
    ensures a == b
  {
    var i :| 0 <= i < |l.components| && l.components[i] == a;
    var j :| 0 <= j < |l.components| && l.components[j] == b;
    assert Ids(l.components)[i] == Ids(l.components)[j];
  }

  /** No identifier of the fresh view is lost by the merge. */
  lemma FreshIdsKept(v: View, l: View, r: View, id: string)
    requires Ids(r.components) == Ids(v.components) + Ids(Filter(NewComponent(v.components), l.components))
    requires exists c :: c in l.components && c.id == id
    ensures exists i :: 0 <= i < |r.components| && r.components[i].id == id
  {
    var c :| c in l.components && c.id == id;
    var added := Filter(NewComponent(v.components), l.components);
    var ids := Ids(r.components);
    if id in Ids(v.components) {
      var k :| 0 <= k < |v.components| && Ids(v.components)[k] == id;
      assert ids[k] == id && r.components[k].id == id;
    } else {
      assert c in added;
      var k :| 0 <= k < |added| && added[k] == c;
      assert Ids(added)[k] == id;
      assert ids[|v.components| + k] == id && r.components[|v.components| + k].id == id;
    }
  }
}
