/** Views as the service makes them: components and dependencies in step, each in the scope of the task. */
module WellFormedViews {
  import opened Model
  import opened Reconciliation
  import opened ReconciliationChains
  import opened Screen
  import opened Sequences
  import opened Wrappers

  /** A component and the dependency recorded with it: a tag in an overview, an alarm in an alarm view. */
  ghost predicate Paired(task: Task, c: Component, d: Dependency) {
    && c.relationshipId == "" && c.tagId == d.tagId && c.tagId != "" && !SummaryAltered(d)
    && match d.alarm
       case None => task.kind.Overview? && c.id == d.tagId && c.alarmId == ""
                    && InScope(task, d.binding.owner, d.binding.role)
       case Some(p) => task.kind.Alarms? && c.id == p.alarmId && c.alarmId == p.alarmId && p.alarmId != ""
                       && !PartAltered(p) && p.definition.tagId == d.tagId
                       && InScope(task, p.definition.owner, d.binding.role)
  }

  ghost predicate AllPaired(task: Task, components: seq<Component>, deps: seq<Dependency>) {
    && |components| == |deps|
    && forall i :: 0 <= i < |components| ==> Paired(task, components[i], deps[i])
  }

  ghost predicate WellFormed(v: View) {
    && !v.task.kind.Unsupported?
    && AllPaired(v.task, v.components, v.dependencies)
    && Distinct(Ids(v.components))
    && ((exists c :: c in v.components && PriorBlocked(c)) ==> v.status != Ready)
  }

  // What a dependency says of the current model

  ghost predicate ConflictsTag(x: Index, d: Dependency, t: string) {
    (d.alarm.None? && d.tagId == t && FateOfTag(x, d) == TagChanged) || (AlarmTagChanged(x, d) && CurrentTagId(x, d) == t)
  }

  ghost predicate RemovesTag(x: Index, d: Dependency, t: string) {
    (d.alarm.None? && d.tagId == t && FateOfTag(x, d) == TagGone) || (AlarmTagGone(x, d) && CurrentTagId(x, d) == t)
  }

  /** The dependency no longer stands as it was recorded. */
  ghost predicate Touched(x: Index, d: Dependency) {
    if d.alarm.None? then FateOfTag(x, d) != TagKept
    else AlarmGone(x, d) || AlarmTagGone(x, d) || AlarmTagChanged(x, d) || AlarmRedefined(x, d)
  }

  // Distinct keys make the two maps faithful, if no alarm has an empty identifier

  ghost predicate DistinctKeys(deps: seq<Dependency>) {
    && (forall i, j :: 0 <= i < j < |deps| ==> KeyOf(deps[i]) != KeyOf(deps[j]))
    && forall i :: 0 <= i < |deps| && deps[i].alarm.Some? ==> deps[i].alarm.value.alarmId != ""
  }

  lemma KeysOfPaired(task: Task, components: seq<Component>, deps: seq<Dependency>)
    requires AllPaired(task, components, deps) && Distinct(Ids(components))
    ensures DistinctKeys(deps)
  {
    forall i, j | 0 <= i < j < |deps| ensures KeyOf(deps[i]) != KeyOf(deps[j]) {
      assert Paired(task, components[i], deps[i]) && Paired(task, components[j], deps[j]);
      assert Ids(components)[i] != Ids(components)[j];
    }
  }

  lemma {:induction false} MapsFaithful(deps: seq<Dependency>)
    requires DistinctKeys(deps)
    ensures forall d :: d in deps ==>
      if d.alarm.None? then d.tagId in TagDependenciesOf(deps) && TagDependenciesOf(deps)[d.tagId] == d
      else d.alarm.value.alarmId in AlarmDependenciesOf(deps) && AlarmDependenciesOf(deps)[d.alarm.value.alarmId] == d
    decreases |deps|
  {
    if deps != [] {
      var front, last := deps[..|deps| - 1], deps[|deps| - 1];
      MapsFaithful(front);
      assert forall d :: d in deps <==> d in front || d == last;
      forall d | d in front ensures KeyOf(d) != KeyOf(last) {
        var i :| 0 <= i < |front| && front[i] == d;
        assert deps[i] == d;
      }
    }
  }

  /** The detection sets, read off the list of dependencies. */
  lemma DifferencesRead(x: Index, v: View)
    requires DistinctKeys(v.dependencies)
    ensures var d := DifferencesOf(x, v);
      && (forall t :: t in d.conflictedTags <==> exists dep :: dep in v.dependencies && ConflictsTag(x, dep, t))
      && (forall t :: t in d.removedTags <==> exists dep :: dep in v.dependencies && RemovesTag(x, dep, t))
      && (forall a :: a in d.conflictedAlarms <==>
            exists dep :: dep in v.dependencies && AlarmRedefined(x, dep) && dep.alarm.value.alarmId == a)
      && (forall a :: a in d.removedAlarms <==>
            exists dep :: dep in v.dependencies && AlarmGone(x, dep) && dep.alarm.value.alarmId == a)
  {
    hide FateOfTag, AlarmTagChanged, AlarmTagGone, CurrentTagId, TagDependenciesOf, AlarmDependenciesOf;
    MapsFaithful(v.dependencies);
    var tags, alarms := TagDependenciesOf(v.dependencies), AlarmDependenciesOf(v.dependencies);
    var d := DifferencesOf(x, v);
    AlarmTagFacts(x, v.dependencies);
    forall t ensures t in d.conflictedTags <==> exists dep :: dep in v.dependencies && ConflictsTag(x, dep, t) {
      if t in ChangedTags(x, tags, tags.Keys) {
        assert ConflictsTag(x, tags[t], t);
      }
      if t in AlarmChangedTags(x, alarms, alarms.Keys) {
        var a :| a in alarms && AlarmTagChanged(x, alarms[a]) && CurrentTagId(x, alarms[a]) == t;
        assert ConflictsTag(x, alarms[a], t);
      }
    }
    forall t ensures t in d.removedTags <==> exists dep :: dep in v.dependencies && RemovesTag(x, dep, t) {
      if t in GoneTags(x, tags, tags.Keys) {
        assert RemovesTag(x, tags[t], t);
      }
      if t in AlarmGoneTags(x, alarms, alarms.Keys) {
        var a :| a in alarms && AlarmTagGone(x, alarms[a]) && CurrentTagId(x, alarms[a]) == t;
        assert RemovesTag(x, alarms[a], t);
      }
    }
  }

  lemma AlarmTagFacts(x: Index, deps: seq<Dependency>)
    ensures forall d :: d in deps && (AlarmTagChanged(x, d) || AlarmTagGone(x, d)) ==> d.alarm.Some?
  {
  }

  /** The two detection sets over relationships stay empty: no resolved component names one. */
  lemma NoRelationships(x: Index, v: View)
    requires AllPaired(v.task, v.components, v.dependencies)
    ensures DifferencesOf(x, v).removedRelationships == {} && DifferencesOf(x, v).changedRelationships == {}
    ensures RelationshipNotesIn(x, v.components) == NOTHING
  {
    forall c | c in v.components ensures c.relationshipId == "" {
      var i :| 0 <= i < |v.components| && v.components[i] == c;
      assert Paired(v.task, v.components[i], v.dependencies[i]);
    }
    NoRelationshipNotes(x, v.components);
  }

  lemma {:induction false} NoRelationshipNotes(x: Index, components: seq<Component>)
    requires forall c :: c in components ==> c.relationshipId == ""
    ensures RelationshipNotesIn(x, components) == NOTHING
    decreases |components|
  {
    if components != [] {
      NoRelationshipNotes(x, components[..|components| - 1]);
      assert components[|components| - 1] in components;
    }
  }

  /** Views whose touched dependencies are the same have the same differences. */
  lemma SameDifferences(x: Index, v: View, w: View)
    requires WellFormed(v) && WellFormed(w)
    requires forall dep :: Touched(x, dep) ==> (dep in v.dependencies <==> dep in w.dependencies)
    ensures DifferencesOf(x, v) == DifferencesOf(x, w)
  {
    hide DifferencesOf, FateOfTag, AlarmTagChanged, AlarmTagGone, CurrentTagId, AlarmGone, AlarmRedefined, Paired;
    KeysOfPaired(v.task, v.components, v.dependencies);
    KeysOfPaired(w.task, w.components, w.dependencies);
    DifferencesRead(x, v);
    DifferencesRead(x, w);
    NoRelationships(x, v);
    NoRelationships(x, w);
    TouchesFacts(x);
    var d, e := DifferencesOf(x, v), DifferencesOf(x, w);
    assert d.conflictedTags == e.conflictedTags;
    assert d.removedTags == e.removedTags;
    assert d.conflictedAlarms == e.conflictedAlarms;
    assert d.removedAlarms == e.removedAlarms;
  }

  lemma TouchesFacts(x: Index)
    ensures forall dep, t :: ConflictsTag(x, dep, t) ==> Touched(x, dep)
    ensures forall dep, t :: RemovesTag(x, dep, t) ==> Touched(x, dep)
    ensures forall dep :: AlarmRedefined(x, dep) ==> Touched(x, dep)
    ensures forall dep :: AlarmGone(x, dep) ==> Touched(x, dep)
  {
  }

  /** A touched dependency of a well-formed view is kept as it is; an untouched one may still be held back by a
      conflict on its tag. */
  lemma TouchedIsBlocked(x: Index, v: View, i: nat)
    requires ValidIndex(x) && WellFormed(v) && i < |v.dependencies| && Touched(x, v.dependencies[i])
    ensures DependencyBlocked(v.dependencies[i], DifferencesOf(x, v))
  {
    hide DifferencesOf, SummaryAltered, PartAltered, ById;
    var dep := v.dependencies[i];
    var d := DifferencesOf(x, v);
    assert dep in v.dependencies;
    assert Paired(v.task, v.components[i], dep);
    KeysOfPaired(v.task, v.components, v.dependencies);
    DifferencesRead(x, v);
    if dep.alarm.None? {
      assert RemovesTag(x, dep, dep.tagId) || ConflictsTag(x, dep, dep.tagId);
    } else if AlarmGone(x, dep) {
      assert dep.alarm.value.alarmId in d.removedAlarms;
    } else if AlarmRedefined(x, dep) {
      assert dep.alarm.value.alarmId in d.conflictedAlarms;
    } else {
      AlarmFacts(x);
      assert ConflictsTag(x, dep, dep.tagId);
    }
  }

  // Fresh views

  /** Every part of a fresh view is live, in step, in scope and untouched. */
  ghost predicate FreshView(x: Index, l: View) {
    && WellFormed(l)
    && (forall c :: c in l.components ==> c.status == Live)
    && (forall d :: d in l.dependencies ==> !Touched(x, d))
    && l.changes == None && !l.reconciled
    && (l.status == if l.issues == [] then Ready else NeedsReview)
  }

  lemma FreshOverview(x: Index, task: Task)
    requires ValidIndex(x) && task.kind.Overview?
    ensures FreshView(x, OverviewView(x, task))
  {
    hide ById, ValidModel, TagsOf, KindFor, AssetName, InScope;
    var l := OverviewView(x, task);
    var tags := TagsOf(x, task, OverviewAssets(x, task));
    OverviewMembers(x, task);
    TagFacts(x);
    forall i | 0 <= i < |tags| ensures Paired(task, l.components[i], l.dependencies[i]) && !Touched(x, l.dependencies[i]) {
      assert tags[i] in tags;
    }
    forall i, j | 0 <= i < j < |tags| ensures Ids(l.components)[i] != Ids(l.components)[j] {
      assert tags[i] in tags && tags[j] in tags && tags[i] != tags[j];
    }
    assert l.components == [] <==> tags == [];
  }

  lemma FreshAlarm(x: Index, task: Task, a: Alarm)
    requires ValidIndex(x) && task.kind.Alarms? && a in x.model.alarms && InScope(task, a.assetId, TagOf(x, a).role)
    ensures var d := DependencyForAlarm(a, TagOf(x, a), x.digest);
      Paired(task, AlarmComponentFor(x, a, TagOf(x, a)), d) && !Touched(x, d)
  {
    hide ById, ValidModel, InScope;
    AlarmFacts(x);
    TagFacts(x);
  }

  lemma FreshAlarms(x: Index, task: Task)
    requires ValidIndex(x) && task.kind.Alarms?
    ensures FreshView(x, AlarmsView(x, task))
  {
    hide ById, ValidModel, ScopedAlarms, InScope, Touched, Paired;
    var l := AlarmsView(x, task);
    var alarms := ScopedAlarms(x, task);
    AlarmMembers(x, task);
    AlarmFacts(x);
    forall i | 0 <= i < |alarms| ensures Paired(task, l.components[i], l.dependencies[i]) && !Touched(x, l.dependencies[i]) {
      assert alarms[i] in alarms;
      FreshAlarm(x, task, alarms[i]);
    }
    forall i, j | 0 <= i < j < |alarms| ensures Ids(l.components)[i] != Ids(l.components)[j] {
      assert alarms[i] in alarms && alarms[j] in alarms && alarms[i] != alarms[j];
    }
    assert l.components == [] <==> alarms == [];
  }

  lemma ResolvedIsFresh(x: Index, task: Task)
    requires ValidIndex(x) && Resolved(x, task).Success?
    ensures FreshView(x, Resolved(x, task).value)
    ensures Resolved(x, task).value.task == task.(modelId := Some(x.model.modelId))
    ensures Resolved(x, task).value.modelId == x.model.modelId
  {
    hide FreshView, ValidIndex;
    var effective := task.(modelId := Some(x.model.modelId));
    if task.kind.Overview? {
      FreshOverview(x, effective);
    } else {
      FreshAlarms(x, effective);
    }
  }

  lemma UntouchedTagFound(x: Index, task: Task, c: Component, dep: Dependency) returns (j: nat)
    requires ValidIndex(x) && task.kind.Overview? && Paired(task, c, dep) && !Touched(x, dep)
    ensures var tags := TagsOf(x, task, OverviewAssets(x, task));
      j < |tags| && tags[j].id == dep.tagId
  {
    hide ById, ValidModel, TagsOf;
    OverviewMembers(x, task);
    TagFacts(x);
    var tags := TagsOf(x, task, OverviewAssets(x, task));
    var tag := x.tags[dep.tagId];
    assert tag in tags;
    j :| 0 <= j < |tags| && tags[j] == tag;
  }

  lemma UntouchedAlarmFound(x: Index, task: Task, c: Component, dep: Dependency) returns (j: nat)
    requires ValidIndex(x) && task.kind.Alarms? && Paired(task, c, dep) && !Touched(x, dep)
    ensures var alarms := ScopedAlarms(x, task);
      j < |alarms| && alarms[j].id == c.id && alarms[j].tagId == dep.tagId && TagOf(x, alarms[j]).id == dep.tagId
  {
    hide ById, ValidModel, ScopedAlarms;
    AlarmMembers(x, task);
    AlarmFacts(x);
    TagFacts(x);
    var alarms := ScopedAlarms(x, task);
    var alarm := x.alarms[dep.alarm.value.alarmId];
    assert alarm in alarms;
    j :| 0 <= j < |alarms| && alarms[j] == alarm;
  }

  lemma KindOfPaired(task: Task, c: Component, dep: Dependency)
    requires Paired(task, c, dep)
    ensures c.tagId == dep.tagId != "" && c.relationshipId == ""
    ensures if task.kind.Overview? then dep.alarm.None? && c.id == dep.tagId && c.alarmId == ""
            else task.kind.Alarms? && dep.alarm.Some? && c.id == dep.alarm.value.alarmId == c.alarmId && c.id != ""
  {
    hide InScope, SummaryAltered, PartAltered;
  }

  /** An untouched dependency in scope is found again in the fresh view, at one place with its component. */
  lemma UntouchedIsFound(x: Index, task: Task, c: Component, dep: Dependency) returns (j: nat)
    requires ValidIndex(x) && Resolved(x, task).Success?
    requires Paired(task, c, dep) && !Touched(x, dep)
    ensures var l := Resolved(x, task).value;
      && j < |l.components| == |l.dependencies|
      && l.components[j].id == c.id && l.components[j].tagId == c.tagId && l.components[j].alarmId == c.alarmId
      && KeyOf(l.dependencies[j]) == KeyOf(dep) && l.dependencies[j].tagId == dep.tagId
  {
    hide ById, ValidIndex, TagsOf, ScopedAlarms, KindFor, AssetName, Paired, Touched, TagOf, InScope;
    var effective := task.(modelId := Some(x.model.modelId));
    KindOfPaired(task, c, dep);
    PairedEffective(task, effective, c, dep);
    if task.kind.Overview? {
      j := UntouchedTagFound(x, effective, c, dep);
    } else {
      j := UntouchedAlarmFound(x, effective, c, dep);
    }
  }

  lemma PairedEffective(task: Task, effective: Task, c: Component, dep: Dependency)
    requires Paired(task, c, dep) && effective.kind == task.kind && effective.anchor == task.anchor && effective.roles == task.roles
    ensures Paired(effective, c, dep)
  {
  }
}
