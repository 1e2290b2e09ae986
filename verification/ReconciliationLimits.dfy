/** When a result is too large to be reconciled again: how many issues a pass can add, and exactly when they exceed the limit. */
module ReconciliationLimits {
  import opened Model
  import opened Reconciliation
  import opened ReconciliationChains
  import opened ReconciliationFixedPoint
  import opened ReconciliationOutcomes
  import opened ReconciliationProperties
  import opened ReconciliationTwice
  import opened Screen
  import opened Sequences
  import opened WellFormedViews
  import opened Wrappers

  // Lengths

  /** Appending once appends everything exactly if nothing is there twice. */
  lemma {:induction false} AddAllFull<T(!new)>(s: seq<T>, more: seq<T>)
    requires Distinct(s)
    ensures |AddAll(s, more)| <= |s| + |more|
    ensures |AddAll(s, more)| == |s| + |more| <==> Distinct(s + more)
    decreases |more|
  {
    hide Distinct;
    if more == [] {
      assert s + more == s;
    } else {
      DistinctSnocSeq(s, more[0]);
      AddAllFull(AddOnce(s, more[0]), more[1..]);
      if more[0] in s {
        Repeated(s, more);
      } else {
        assert s + [more[0]] + more[1..] == s + more;
      }
    }
  }

  lemma Repeated<T>(s: seq<T>, more: seq<T>)
    requires more != [] && more[0] in s
    ensures !Distinct(s + more)
  {
    var i :| 0 <= i < |s| && s[i] == more[0];
    assert (s + more)[i] == (s + more)[|s|];
  }

  lemma {:induction false} AddAllLength<T(!new)>(s: seq<T>, more: seq<T>)
    ensures |AddAll(s, more)| <= |s| + |more|
    decreases |more|
  {
    if more != [] { AddAllLength(AddOnce(s, more[0]), more[1..]); }
  }

  lemma {:induction false} TagNotesLength(x: Index, deps: map<string, Dependency>, order: seq<string>)
    requires forall t :: t in order ==> t in deps
    ensures |TagNotesIn(x, deps, order).changes| <= |order| && |TagNotesIn(x, deps, order).issues| <= |order|
    decreases |order|
  {
    if order != [] { TagNotesLength(x, deps, order[..|order| - 1]); }
  }

  ghost predicate BothChanged(x: Index, d: Dependency) {
    AlarmTagChanged(x, d) && AlarmRedefined(x, d)
  }

  lemma OneAlarmNotes(x: Index, d: Dependency)
    requires ValidIndex(x) && d.alarm.Some?
    ensures var notes := AlarmNotes(x, d);
      && |notes.changes| <= 2 && |notes.issues| <= 2 && (|notes.issues| == 2 <==> BothChanged(x, d))
      && (BothChanged(x, d) ==>
            notes.issues == [AlarmTagConflict(CurrentTagId(x, d)), AlarmConflict(d.alarm.value.alarmId)])
  {
    hide ValidIndex;
    AlarmFacts(x);
  }

  /** The alarms add two issues each exactly if each has changed in both ways, and then these. */
  lemma {:induction false} AlarmNotesLength(x: Index, deps: map<string, Dependency>, order: seq<string>)
    requires ValidIndex(x)
    requires forall a :: a in order ==> a in deps && deps[a].alarm.Some? && deps[a].alarm.value.alarmId == a
    ensures var notes := AlarmNotesIn(x, deps, order);
      && |notes.changes| <= 2 * |order| && |notes.issues| <= 2 * |order|
      && (|notes.issues| == 2 * |order| <==> forall i :: 0 <= i < |order| ==> BothChanged(x, deps[order[i]]))
      && (|notes.issues| == 2 * |order| ==> forall i :: 0 <= i < |order| ==>
            notes.issues[2 * i] == AlarmTagConflict(CurrentTagId(x, deps[order[i]]))
            && notes.issues[2 * i + 1] == AlarmConflict(order[i]))
    decreases |order|
  {
    hide ValidIndex, BothChanged, AlarmNotes, CurrentTagId, AlarmTagChanged, AlarmRedefined, AlarmGone, AlarmTagGone;
    if order != [] {
      var front, last := order[..|order| - 1], order[|order| - 1];
      AlarmNotesLength(x, deps, front);
      OneAlarmNotes(x, deps[last]);
    }
  }

  /** Two issues for each alarm repeat nothing exactly if the tags differ. */
  lemma PairsDistinct(tags: seq<string>, alarms: seq<string>, issues: seq<Issue>)
    requires |tags| == |alarms| && |issues| == 2 * |tags| && Distinct(alarms)
    requires forall i :: 0 <= i < |tags| ==> issues[2 * i] == AlarmTagConflict(tags[i]) && issues[2 * i + 1] == AlarmConflict(alarms[i])
    ensures Distinct(issues) <==> Distinct(tags)
    ensures NoAlarms !in issues
  {
    forall k | 0 <= k < |issues|
      ensures issues[k] == if k % 2 == 0 then AlarmTagConflict(tags[k / 2]) else AlarmConflict(alarms[k / 2])
    {
      assert k == 2 * (k / 2) + k % 2;
    }
    if Distinct(tags) {
      forall i, j | 0 <= i < j < |issues| ensures issues[i] != issues[j] {
        if i % 2 == j % 2 { assert i / 2 < j / 2; }
      }
    }
    if Distinct(issues) {
      forall i, j | 0 <= i < j < |tags| ensures tags[i] != tags[j] {
        assert issues[2 * i] != issues[2 * j];
      }
    }
  }

  // The walks

  function BoundIds(deps: seq<Dependency>): seq<string> {
    seq(|deps|, i requires 0 <= i < |deps| => if deps[i].alarm.Some? then deps[i].alarm.value.alarmId else deps[i].tagId)
  }

  /** An alarm view has no tag dependencies; each map has at most as many keys as there are dependencies. */
  lemma OrdersBounded(v: View, order: (seq<string>, seq<string>))
    requires WellFormed(v) && Orders(v, order.0, order.1)
    ensures |order.0| <= |v.dependencies| && |order.1| <= |v.dependencies|
    ensures if v.task.kind.Overview? then order.1 == [] else order.0 == []
  {
    hide Paired, TagDependenciesOf, AlarmDependenciesOf, WellFormed;
    var tags, alarms := TagDependenciesOf(v.dependencies), AlarmDependenciesOf(v.dependencies);
    forall t | t in order.0 ensures t in BoundIds(v.dependencies) && v.task.kind.Overview? {
      var i :| 0 <= i < |v.dependencies| && v.dependencies[i] == tags[t];
      assert BoundIds(v.dependencies)[i] == t;
      KindAt(v, i);
    }
    forall a | a in order.1 ensures a in BoundIds(v.dependencies) && !v.task.kind.Overview? {
      var i :| 0 <= i < |v.dependencies| && v.dependencies[i] == alarms[a];
      assert BoundIds(v.dependencies)[i] == a;
      KindAt(v, i);
    }
    PigeonHole(order.0, BoundIds(v.dependencies));
    PigeonHole(order.1, BoundIds(v.dependencies));
    if order.0 != [] { assert order.0[0] in order.0; }
    if order.1 != [] { assert order.1[0] in order.1; }
  }

  lemma KindAt(v: View, i: nat)
    requires WellFormed(v) && i < |v.dependencies|
    ensures v.dependencies[i].alarm.Some? <==> !v.task.kind.Overview?
  {
    hide InScope, SummaryAltered, PartAltered;
    assert Paired(v.task, v.components[i], v.dependencies[i]);
  }

  lemma WalkSize(v: View, order: (seq<string>, seq<string>))
    requires WellFormed(v) && Orders(v, order.0, order.1) && v.task.kind.Alarms?
    ensures |order.1| == |v.dependencies|
    ensures forall d :: d in v.dependencies ==> d.alarm.Some? && d.alarm.value.alarmId in order.1
                                                && AlarmDependenciesOf(v.dependencies)[d.alarm.value.alarmId] == d
  {
    hide Paired, TagDependenciesOf, AlarmDependenciesOf, WellFormed;
    WellFormedParts(v);
    MapsFaithful(v.dependencies);
    OrdersBounded(v, order);
    var ids := BoundIds(v.dependencies);
    forall i | 0 <= i < |ids| ensures v.dependencies[i].alarm.Some? && ids[i] in order.1 {
      KindAt(v, i);
      assert v.dependencies[i] in v.dependencies;
    }
    forall i, j | 0 <= i < j < |ids| ensures ids[i] != ids[j] {
      assert KeyOf(v.dependencies[i]) != KeyOf(v.dependencies[j]);
    }
    PigeonHole(ids, order.1);
  }

  // Too many issues

  /** Every alarm of the one model is in scope and changed in both ways in the other, no two of them now name one tag,
      none is in scope any more, and there are as many as a model may have. */
  ghost predicate Exhausts(x1: Index, x2: Index, task: Task) {
    && |x1.model.alarms| == MAX_ALARMS
    && (forall a :: a in x1.model.alarms ==> InScope(task, a.assetId, TagOf(x1, a).role) && RemadeTwice(x1, x2, a))
    && (forall a, b :: a in x1.model.alarms && b in x1.model.alarms && a.id in x2.alarms && b.id in x2.alarms && a != b ==>
          x2.alarms[a.id].tagId != x2.alarms[b.id].tagId)
    && forall a :: a in x2.model.alarms ==> !InScope(task, a.assetId, TagOf(x2, a).role)
  }

  ghost predicate RemadeTwice(x1: Index, x2: Index, a: Alarm) {
    a.id in x2.alarms && DefinitionOf(x2.alarms[a.id]) != DefinitionOf(a)
    && BindingOf(TagOf(x2, x2.alarms[a.id])) != BindingOf(TagOf(x1, a))
  }

  /** The walk of the alarms and the tags they now name. */
  function NamedTags(x: Index, deps: map<string, Dependency>, order: seq<string>): (tags: seq<string>)
    requires forall a :: a in order ==> a in deps
    ensures |tags| == |order|
  {
    seq(|order|, i requires 0 <= i < |order| => CurrentTagId(x, deps[order[i]]))
  }

  /** What a pass over alarms adds to an empty list exceeds twice their number exactly if every alarm changed in both
      ways, no two name one tag, and the fresh view is empty. */
  lemma AlarmIssues(x: Index, deps: map<string, Dependency>, order: seq<string>, latest: seq<Issue>)
    requires ValidIndex(x) && Distinct(order) && (latest == [] || latest == [NoAlarms])
    requires forall a :: a in order ==> a in deps && deps[a].alarm.Some? && deps[a].alarm.value.alarmId == a
    ensures |AddAll(AddAll([], AlarmNotesIn(x, deps, order).issues), latest)| <= 2 * |order| + 1
    ensures |AddAll(AddAll([], AlarmNotesIn(x, deps, order).issues), latest)| == 2 * |order| + 1 <==>
            latest != [] && Distinct(NamedTags(x, deps, order)) && forall i :: 0 <= i < |order| ==> BothChanged(x, deps[order[i]])
  {
    hide AlarmNotesIn, BothChanged, ValidIndex, CurrentTagId, Distinct, AddAll;
    var issues := AlarmNotesIn(x, deps, order).issues;
    AlarmNotesLength(x, deps, order);
    AddAllConcat([], issues, latest);
    NoneDistinct();
    AddAllFull([], issues + latest);
    assert [] + (issues + latest) == issues + latest;
    if |issues| == 2 * |order| {
      PairsDistinct(NamedTags(x, deps, order), order, issues);
      if latest != [] {
        DistinctSnocSeq(issues, NoAlarms);
      }
    }
  }

  lemma NoneDistinct()
    ensures Distinct<Issue>([])
  {
  }

  lemma NotesInOrder(x: Index, v: View, order: (seq<string>, seq<string>))
    requires WellFormed(v) && Orders(v, order.0, order.1)
    ensures forall t :: t in order.0 ==> t in TagDependenciesOf(v.dependencies)
    ensures forall a :: a in order.1 ==> a in AlarmDependenciesOf(v.dependencies)
    ensures var notes, tags, alarms := AllNotes(x, v, order.0, order.1), TagNotesIn(x, TagDependenciesOf(v.dependencies), order.0),
                                       AlarmNotesIn(x, AlarmDependenciesOf(v.dependencies), order.1);
      notes.changes == tags.changes + alarms.changes && notes.issues == tags.issues + alarms.issues
  {
    hide TagNotesIn, AlarmNotesIn, TagDependenciesOf, AlarmDependenciesOf, RelationshipNotesIn, Paired, WellFormed;
    WellFormedParts(v);
    NoRelationships(x, v);
    OrdersEnumerate(v, order.0, order.1);
  }

  /** Of a first result only the list of issues can be too long. */
  lemma OnlyIssuesExceed(x1: Index, x2: Index, task: Task, order: (seq<string>, seq<string>))
    requires ValidIndex(x1) && ValidIndex(x2) && Resolved(x1, task).Success?
    requires var v := Resolved(x1, task).value; Orders(v, order.0, order.1) && Reconciled(x2, v, order.0, order.1).Success?
    ensures var v := Resolved(x1, task).value;
      && Resolved(x2, NewTask(x2, v.task)).Success?
      && var r := Reconciled(x2, v, order.0, order.1).value;
         && (Oversized(r) <==> |r.issues| > MAX_COMPONENTS)
         && r.issues == AddAll(AddAll(v.issues, AllNotes(x2, v, order.0, order.1).issues), Latest(x2, v).issues)
  {
    hide ValidIndex, FreshView, TaskAccepted, OverviewView, AlarmsView, DifferencesOf, Verdict, Enumerates, WellFormed, Resolved,
         MergedComponents, MergedDependencies, AddAll, TagNotesIn, AlarmNotesIn, RelationshipNotesIn, TagDependenciesOf,
         AlarmDependenciesOf, AllNotes;
    var v := Resolved(x1, task).value;
    ResolvedSize(x1, task);
    ResolvedIsFresh(x1, task);
    FreshIsUnmarked(x1, v);
    StepWellFormed(x2, v, order.0, order.1);
    SplitReconciled(x2, v, order.0, order.1);
    WellFormedParts(Reconciled(x2, v, order.0, order.1).value);
    ChangesBounded(x2, v, order);
    AddAllLength(ChangesOf(v), AllNotes(x2, v, order.0, order.1).changes);
  }

  lemma ChangesBounded(x: Index, v: View, order: (seq<string>, seq<string>))
    requires ValidIndex(x) && WellFormed(v) && Orders(v, order.0, order.1)
    ensures |AllNotes(x, v, order.0, order.1).changes| <= 2 * |v.dependencies|
    ensures v.task.kind.Overview? ==> |AllNotes(x, v, order.0, order.1).issues| <= |v.dependencies|
  {
    hide ValidIndex, WellFormed, TagNotesIn, AlarmNotesIn, TagDependenciesOf, AlarmDependenciesOf, AllNotes, Orders;
    NotesInOrder(x, v, order);
    OrdersBounded(v, order);
    TagNotesLength(x, TagDependenciesOf(v.dependencies), order.0);
    AlarmNotesLength(x, AlarmDependenciesOf(v.dependencies), order.1);
  }

  /** An overview never outgrows the limits. */
  lemma OverviewFits(x1: Index, x2: Index, task: Task, order: (seq<string>, seq<string>))
    requires ValidIndex(x1) && ValidIndex(x2) && Resolved(x1, task).Success? && task.kind.Overview?
    requires var v := Resolved(x1, task).value; Orders(v, order.0, order.1) && Reconciled(x2, v, order.0, order.1).Success?
    ensures !Oversized(Reconciled(x2, Resolved(x1, task).value, order.0, order.1).value)
  {
    hide ValidIndex, FreshView, TaskAccepted, OverviewView, AlarmsView, Enumerates, WellFormed, Resolved, Reconciled, AddAll,
         TagDependenciesOf, AlarmDependenciesOf, AllNotes, Oversized;
    var v := Resolved(x1, task).value;
    OnlyIssuesExceed(x1, x2, task, order);
    ResolvedSize(x1, task);
    ResolvedSize(x2, NewTask(x2, v.task));
    ResolvedIsFresh(x1, task);
    FreshIsUnmarked(x1, v);
    ChangesBounded(x2, v, order);
    var notes := AllNotes(x2, v, order.0, order.1);
    AddAllLength(v.issues, notes.issues);
    AddAllLength(AddAll(v.issues, notes.issues), Latest(x2, v).issues);
  }

  // Alarm views

  /** The walk goes over the alarms, each under its identifier. */
  ghost predicate Walks(x1: Index, alarms: seq<Alarm>, deps: map<string, Dependency>, order: seq<string>) {
    && Distinct(order)
    && (forall a :: a in alarms ==> a.id in order && a.id in deps && deps[a.id] == DependencyForAlarm(a, TagOf(x1, a), x1.digest))
    && (forall k :: k in order ==> k in deps && exists a :: a in alarms && a.id == k)
  }

  lemma AlarmsListed(x: Index, task: Task)
    ensures var deps, alarms := AlarmsView(x, task).dependencies, ScopedAlarms(x, task);
      |deps| == |alarms|
      && forall i :: 0 <= i < |alarms| ==> deps[i] == DependencyForAlarm(alarms[i], TagOf(x, alarms[i]), x.digest)
    ensures AlarmsView(x, task).task == task
  {
    hide ScopedAlarms, DependencyForAlarm, TagOf;
  }

  lemma AlarmsWalked(x1: Index, task: Task, order: (seq<string>, seq<string>))
    requires ValidIndex(x1) && task.kind.Alarms? && Orders(AlarmsView(x1, task), order.0, order.1)
    ensures Walks(x1, ScopedAlarms(x1, task), AlarmDependenciesOf(AlarmsView(x1, task).dependencies), order.1)
    ensures |order.1| == |ScopedAlarms(x1, task)| && order.0 == []
  {
    hide ValidIndex, ScopedAlarms, AlarmDependenciesOf, TagDependenciesOf, WellFormed, DependencyForAlarm, TagOf, Touched, Distinct,
         AlarmsView, Orders;
    var v, alarms := AlarmsView(x1, task), ScopedAlarms(x1, task);
    AlarmsListed(x1, task);
    FreshAlarms(x1, task);
    WalkSize(v, order);
    OrdersBounded(v, order);
    OrdersEnumerate(v, order.0, order.1);
    var deps := AlarmDependenciesOf(v.dependencies);
    forall a | a in alarms ensures a.id in order.1 && deps[a.id] == DependencyForAlarm(a, TagOf(x1, a), x1.digest) {
      var i :| 0 <= i < |alarms| && alarms[i] == a;
      AlarmNamed(x1, a);
      assert v.dependencies[i] in v.dependencies;
    }
    forall k | k in order.1 ensures exists a :: a in alarms && a.id == k {
      var i :| 0 <= i < |alarms| && v.dependencies[i] == deps[k];
      AlarmNamed(x1, alarms[i]);
      assert alarms[i] in alarms;
    }
  }

  lemma AlarmNamed(x1: Index, a: Alarm)
    ensures var d := DependencyForAlarm(a, TagOf(x1, a), x1.digest); d.alarm.Some? && d.alarm.value.alarmId == a.id
  {
  }

  lemma RemadeRead(x1: Index, x2: Index, a: Alarm)
    requires ValidIndex(x2)
    ensures var d := DependencyForAlarm(a, TagOf(x1, a), x1.digest);
      && (BothChanged(x2, d) <==> RemadeTwice(x1, x2, a))
      && (a.id in x2.alarms ==> CurrentTagId(x2, d) == x2.alarms[a.id].tagId)
  {
    hide ValidIndex;
    AlarmFacts(x2);
  }

  lemma AllRemade(x1: Index, x2: Index, alarms: seq<Alarm>, deps: map<string, Dependency>, order: seq<string>)
    requires ValidIndex(x2) && Walks(x1, alarms, deps, order)
    ensures (forall i :: 0 <= i < |order| ==> BothChanged(x2, deps[order[i]])) <==> forall a :: a in alarms ==> RemadeTwice(x1, x2, a)
  {
    hide ValidIndex, BothChanged, RemadeTwice, DependencyForAlarm, TagOf, Distinct;
    forall i, a | 0 <= i < |order| && a in alarms && a.id == order[i]
      ensures BothChanged(x2, deps[order[i]]) <==> RemadeTwice(x1, x2, a) { RemadeRead(x1, x2, a); }
    forall i | 0 <= i < |order| ensures exists a :: a in alarms && a.id == order[i] {
      assert order[i] in order;
    }
  }

  lemma TagsApart(x1: Index, x2: Index, alarms: seq<Alarm>, deps: map<string, Dependency>, order: seq<string>)
    requires ValidIndex(x2) && Walks(x1, alarms, deps, order) && forall a :: a in alarms ==> a.id in x2.alarms
    requires forall a, b :: a in alarms && b in alarms && a.id == b.id ==> a == b
    ensures Distinct(NamedTags(x2, deps, order)) <==>
            forall a, b :: a in alarms && b in alarms && a != b ==> x2.alarms[a.id].tagId != x2.alarms[b.id].tagId
  {
    hide ValidIndex, DependencyForAlarm, TagOf, CurrentTagId;
    var tags := NamedTags(x2, deps, order);
    forall i, a | 0 <= i < |order| && a in alarms && a.id == order[i] ensures tags[i] == x2.alarms[a.id].tagId {
      RemadeRead(x1, x2, a);
    }
    if Distinct(tags) {
      forall a, b | a in alarms && b in alarms && a != b ensures x2.alarms[a.id].tagId != x2.alarms[b.id].tagId {
        var i :| 0 <= i < |order| && order[i] == a.id;
        var j :| 0 <= j < |order| && order[j] == b.id;
        assert tags[i] != tags[j];
      }
    } else {
      var i, j :| 0 <= i < j < |tags| && tags[i] == tags[j];
      assert order[i] in order && order[j] in order;
      var a :| a in alarms && a.id == order[i];
      var b :| b in alarms && b.id == order[j];
      assert a != b;
    }
  }

  lemma AllInScope(x: Index, task: Task)
    requires ValidIndex(x)
    ensures |ScopedAlarms(x, task)| == MAX_ALARMS <==>
            |x.model.alarms| == MAX_ALARMS && forall a :: a in x.model.alarms ==> InScope(task, a.assetId, TagOf(x, a).role)
    ensures |ScopedAlarms(x, task)| <= MAX_ALARMS
    ensures ScopedAlarms(x, task) == [] <==> forall a :: a in x.model.alarms ==> !InScope(task, a.assetId, TagOf(x, a).role)
  {
    hide ScopedAlarms, InScope, TagOf, ById, TagFields, AlarmFields, AssetFields, RelationshipFields;
    AlarmMembers(x, task);
    var alarms := ScopedAlarms(x, task);
    DistinctItems(x.model.alarms, ALARM_ID);
    PigeonHole(alarms, x.model.alarms);
    if forall a :: a in x.model.alarms ==> InScope(task, a.assetId, TagOf(x, a).role) {
      PigeonHole(x.model.alarms, alarms);
    } else {
      var a :| a in x.model.alarms && !InScope(task, a.assetId, TagOf(x, a).role);
      DistinctSnocSeq(alarms, a);
      PigeonHole(alarms + [a], x.model.alarms);
    }
    if alarms != [] { assert alarms[0] in alarms; }
  }

  lemma AlarmsResolved(x: Index, task: Task)
    requires Resolved(x, task).Success? && !task.kind.Overview?
    ensures Resolved(x, task).value == AlarmsView(x, task.(modelId := Some(x.model.modelId))) && task.kind.Alarms?
    ensures Resolved(x, task).value.task == task.(modelId := Some(x.model.modelId))
    ensures Resolved(x, task).value.issues == if ScopedAlarms(x, task.(modelId := Some(x.model.modelId))) == [] then [NoAlarms] else []
  {
    hide ScopedAlarms;
  }

  /** The scope of a task does not depend on the model it names. */
  lemma ScopeStays(task: Task, other: Task)
    requires other.anchor == task.anchor && other.roles == task.roles
    ensures forall owner, role :: InScope(other, owner, role) == InScope(task, owner, role)
  {
  }

  /** What the alarms of a view add, against the two models. */
  lemma AlarmIssuesExceed(x1: Index, x2: Index, task: Task, order: (seq<string>, seq<string>), latest: seq<Issue>)
    requires ValidIndex(x1) && ValidIndex(x2) && task.kind.Alarms? && Orders(AlarmsView(x1, task), order.0, order.1)
    requires latest == if ScopedAlarms(x2, task) == [] then [NoAlarms] else []
    ensures forall a :: a in order.1 ==> a in AlarmDependenciesOf(AlarmsView(x1, task).dependencies)
    ensures var notes := AlarmNotesIn(x2, AlarmDependenciesOf(AlarmsView(x1, task).dependencies), order.1);
      |AddAll(AddAll([], notes.issues), latest)| > MAX_COMPONENTS <==> Exhausts(x1, x2, task)
  {
    hide ValidIndex, ScopedAlarms, AlarmDependenciesOf, TagDependenciesOf, AlarmsView, Orders, AlarmNotesIn, AddAll, Walks, Distinct, InScope,
         TagOf, BothChanged, NamedTags;
    var alarms, deps := ScopedAlarms(x1, task), AlarmDependenciesOf(AlarmsView(x1, task).dependencies);
    AlarmsWalked(x1, task, order);
    AllInScope(x1, task);
    AllInScope(x2, task);
    AlarmMembers(x1, task);
    WalkedParts(x1, alarms, deps, order.1);
    AlarmIssues(x2, deps, order.1, latest);
    AllRemade(x1, x2, alarms, deps, order.1);
    UniqueAlarms(x1);
    if forall a :: a in alarms ==> RemadeTwice(x1, x2, a) {
      TagsApart(x1, x2, alarms, deps, order.1);
    }
  }

  lemma WalkedParts(x1: Index, alarms: seq<Alarm>, deps: map<string, Dependency>, order: seq<string>)
    requires Walks(x1, alarms, deps, order)
    ensures Distinct(order) && forall k :: k in order ==> k in deps && deps[k].alarm.Some? && deps[k].alarm.value.alarmId == k
  {
    hide Distinct, TagOf;
    forall k | k in order ensures deps[k].alarm.Some? && deps[k].alarm.value.alarmId == k {
      var a :| a in alarms && a.id == k;
      AlarmNamed(x1, a);
    }
  }

  lemma UniqueAlarms(x: Index)
    requires ValidIndex(x)
    ensures forall a, b :: a in x.model.alarms && b in x.model.alarms && a.id == b.id ==> a == b
  {
    hide ValidIndex;
    AlarmFacts(x);
  }

  lemma NoTagNotes(x: Index, v: View, order: (seq<string>, seq<string>))
    requires order.0 == []
    ensures TagNotesIn(x, TagDependenciesOf(v.dependencies), order.0) == NOTHING
  {
  }

  lemma SameExhaustion(x1: Index, x2: Index, task: Task, other: Task)
    requires forall owner, role :: InScope(other, owner, role) == InScope(task, owner, role)
    ensures Exhausts(x1, x2, task) <==> Exhausts(x1, x2, other)
  {
    hide InScope, TagOf, RemadeTwice;
  }

  lemma NotExhausted(x1: Index, x2: Index, task: Task)
    requires ValidIndex(x1) && ScopedAlarms(x1, task) == []
    ensures !Exhausts(x1, x2, task)
  {
    hide ValidIndex, ScopedAlarms;
    AllInScope(x1, task);
    if |x1.model.alarms| == MAX_ALARMS { assert x1.model.alarms[0] in x1.model.alarms; }
  }

  lemma AlarmsFit(x1: Index, x2: Index, task: Task, order: (seq<string>, seq<string>))
    requires ValidIndex(x1) && ValidIndex(x2) && Resolved(x1, task).Success? && !task.kind.Overview?
    requires var v := Resolved(x1, task).value; Orders(v, order.0, order.1) && Reconciled(x2, v, order.0, order.1).Success?
    ensures Oversized(Reconciled(x2, Resolved(x1, task).value, order.0, order.1).value) <==> Exhausts(x1, x2, task)
  {
    hide ValidIndex, FreshView, TaskAccepted, AlarmsView, WellFormed, Resolved, Reconciled, AddAll, ScopedAlarms, Orders, InScope,
         TagDependenciesOf, AlarmDependenciesOf, AllNotes, Oversized, AlarmNotesIn, TagNotesIn, Exhausts;
    var v := Resolved(x1, task).value;
    var effective := task.(modelId := Some(x1.model.modelId));
    OnlyIssuesExceed(x1, x2, task, order);
    AlarmsResolved(x1, task);
    AlarmsResolved(x2, NewTask(x2, v.task));
    var again := NewTask(x2, v.task).(modelId := Some(x2.model.modelId));
    AllInScope(x1, effective);
    AllInScope(x2, again);
    AllInScope(x2, effective);
    ScopeStays(effective, again);
    ScopeStays(effective, task);
    SameExhaustion(x1, x2, task, effective);
    FreshAlarms(x1, effective);
    FreshIsUnmarked(x1, v);
    NotesInOrder(x2, v, order);
    OrdersEnumerate(v, order.0, order.1);
    AlarmsWalked(x1, effective, order);
    var latest := Latest(x2, v).issues;
    AlarmIssuesExceed(x1, x2, effective, order, latest);
    var notes := AllNotes(x2, v, order.0, order.1);
    assert notes.issues == AlarmNotesIn(x2, AlarmDependenciesOf(v.dependencies), order.1).issues by { NoTagNotes(x2, v, order); }
    if v.issues != [] {
      NotExhausted(x1, x2, effective);
      AlarmNotesLength(x2, AlarmDependenciesOf(v.dependencies), order.1);
      AddAllLength(v.issues, notes.issues);
      AddAllLength(AddAll(v.issues, notes.issues), latest);
    }
  }

  /** The result of a first reconciliation can be reconciled again, within the limits, except in one case: an alarm view
      of as many alarms as a model may have, all of them changed in both ways, on tags all different, none in scope any
      more. */
  lemma SecondFits(x1: Index, x2: Index, task: Task, order: (seq<string>, seq<string>))
    requires ValidIndex(x1) && ValidIndex(x2) && Resolved(x1, task).Success?
    requires var v := Resolved(x1, task).value; Orders(v, order.0, order.1) && Reconciled(x2, v, order.0, order.1).Success?
    ensures Oversized(Reconciled(x2, Resolved(x1, task).value, order.0, order.1).value)
       <==> !task.kind.Overview? && Exhausts(x1, x2, task)
  {
    hide ValidIndex, Resolved, Reconciled, Oversized, Exhausts, Enumerates;
    if task.kind.Overview? {
      OverviewFits(x1, x2, task, order);
    } else {
      AlarmsFit(x1, x2, task, order);
    }
  }

  /** The fixed point, from a resolved view: an overview is settled after one pass; an alarm view exactly if no newly
      declared alarm stands on a tag in conflict, unless it outgrew the limits. */
  lemma ResolvedFixedPoint(x1: Index, x2: Index, task: Task, o1: (seq<string>, seq<string>), o2: (seq<string>, seq<string>))
    requires ValidIndex(x1) && ValidIndex(x2) && Resolved(x1, task).Success?
    requires var v := Resolved(x1, task).value;
      && Orders(v, o1.0, o1.1) && Reconciled(x2, v, o1.0, o1.1).Success?
      && Orders(Reconciled(x2, v, o1.0, o1.1).value, o2.0, o2.1)
    ensures Resolved(x2, NewTask(x2, Resolved(x1, task).value.task)).Success?
    ensures var v := Resolved(x1, task).value;
      var r := Reconciled(x2, v, o1.0, o1.1).value;
      match Reconciled(x2, r, o2.0, o2.1)
      case Failure(e) => e == InvalidView && !task.kind.Overview? && Exhausts(x1, x2, task)
      case Success(again) => (again == r <==> task.kind.Overview? || !LateBlock(x2, v))
                             && (task.kind.Overview? || !Exhausts(x1, x2, task))
  {
    hide ValidIndex, Resolved, Reconciled, Oversized, Exhausts, Enumerates, LateBlock, FreshView, WellFormed;
    var v := Resolved(x1, task).value;
    ResolvedIsFresh(x1, task);
    FreshIsUnmarked(x1, v);
    SecondFits(x1, x2, task, o1);
    FixedPoint(x2, v, o1, o2);
  }
}
