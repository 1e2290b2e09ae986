/** The reconciliation as the engine runs it: loops that fill maps and sets and push into the result. */
module Reconciler {
  import opened Model
  import opened Reconciliation
  import opened ReconciliationChains
  import opened Screen
  import opened Sequences
  import opened Wrappers

  method OldDependencies(deps: seq<Dependency>) returns (tags: map<string, Dependency>, alarms: map<string, Dependency>)
    ensures tags == TagDependenciesOf(deps) && alarms == AlarmDependenciesOf(deps)
  {
    tags, alarms := map[], map[];
    for i := 0 to |deps|
      invariant tags == TagDependenciesOf(deps[..i]) && alarms == AlarmDependenciesOf(deps[..i])
    {
      assert deps[..i + 1][..i] == deps[..i];
      if deps[i].alarm.Some? {
        alarms := alarms[deps[i].alarm.value.alarmId := deps[i]];
      } else {
        tags := tags[deps[i].tagId := deps[i]];
      }
    }
    assert deps[..|deps|] == deps;
  }

  lemma EnumeratesNothing()
    ensures Enumerates([], {})
  {
  }

  lemma EnumeratesMore(order: seq<string>, keys: set<string>, k: string)
    requires Enumerates(order, keys) && k !in keys
    ensures Enumerates(order + [k], keys + {k})
  {
    DistinctSnocSeq(order, k);
  }

  /** The notes taken so far, added once each to the lists of the view. */
  ghost predicate Noted(notes: Notes, changes: seq<Change>, issues: seq<Issue>, changes0: seq<Change>, issues0: seq<Issue>) {
    changes == AddAll(changes0, notes.changes) && issues == AddAll(issues0, notes.issues)
  }

  lemma NotedMore(a: Notes, b: Notes, changes: seq<Change>, issues: seq<Issue>, changes0: seq<Change>, issues0: seq<Issue>)
    requires Noted(a, changes, issues, changes0, issues0)
    ensures Noted(Both(a, b), AddAll(changes, b.changes), AddAll(issues, b.issues), changes0, issues0)
  {
    AddAllConcat(changes0, a.changes, b.changes);
    AddAllConcat(issues0, a.issues, b.issues);
  }

  lemma TagNotesSnoc(x: Index, deps: map<string, Dependency>, order: seq<string>, t: string)
    requires (forall k :: k in order ==> k in deps) && t in deps
    ensures TagNotesIn(x, deps, order + [t]) == Both(TagNotesIn(x, deps, order), TagNotes(x, deps[t]))
  {
    assert (order + [t])[..|order|] == order;
  }

  lemma AlarmNotesSnoc(x: Index, deps: map<string, Dependency>, order: seq<string>, a: string)
    requires (forall k :: k in order ==> k in deps && deps[k].alarm.Some?) && a in deps && deps[a].alarm.Some?
    ensures AlarmNotesIn(x, deps, order + [a]) == Both(AlarmNotesIn(x, deps, order), AlarmNotes(x, deps[a]))
  {
    assert (order + [a])[..|order|] == order;
  }

  method DetectTags(x: Index, deps: map<string, Dependency>, changes0: seq<Change>, issues0: seq<Issue>)
    returns (conflicted: set<string>, removed: set<string>, changes: seq<Change>, issues: seq<Issue>, ghost order: seq<string>)
    requires forall t :: t in deps ==> deps[t].tagId == t
    ensures Enumerates(order, deps.Keys)
    ensures conflicted == ChangedTags(x, deps, deps.Keys) && removed == GoneTags(x, deps, deps.Keys)
    ensures Noted(TagNotesIn(x, deps, order), changes, issues, changes0, issues0)
  {
    hide Enumerates, AddAll, AddOnce, TagDiffers;
    conflicted, removed, changes, issues, order := {}, {}, changes0, issues0, [];
    var remaining, done: set<string> := deps.Keys, {};
    EnumeratesNothing();
    NotedNothing(changes0, issues0);
    while remaining != {}
      invariant done + remaining == deps.Keys && done !! remaining
      invariant Enumerates(order, done) && forall k :: k in order ==> k in deps
      invariant conflicted == ChangedTags(x, deps, done) && removed == GoneTags(x, deps, done)
      invariant Noted(TagNotesIn(x, deps, order), changes, issues, changes0, issues0)
      decreases remaining
    {
      var t :| t in remaining;
      remaining := remaining - {t};
      EnumeratesMore(order, done, t);
      TagNotesSnoc(x, deps, order, t);
      NotedMore(TagNotesIn(x, deps, order), TagNotes(x, deps[t]), changes, issues, changes0, issues0);
      AddAllOne(changes, issues);
      order, done := order + [t], done + {t};
      if t !in x.tags {
        removed := removed + {t};
        changes := AddOnce(changes, TagRemoved(t));
        issues := AddOnce(issues, RemovedTag(t));
      } else if TagDiffers(deps[t], x.tags[t]) {
        conflicted := conflicted + {t};
        changes := AddOnce(changes, TagConflicted(t, deps[t].fingerprint, x.digest.binding(BindingOf(x.tags[t]))));
        issues := AddOnce(issues, BindingConflict(t));
      }
    }
    assert done == deps.Keys;
  }

  lemma NotedNothing(changes: seq<Change>, issues: seq<Issue>)
    ensures Noted(NOTHING, changes, issues, changes, issues)
  {
  }

  lemma AddAllOne(changes: seq<Change>, issues: seq<Issue>)
    ensures AddAll(changes, []) == changes && AddAll(issues, []) == issues
    ensures forall c :: AddAll(changes, [c]) == AddOnce(changes, c)
    ensures forall n :: AddAll(issues, [n]) == AddOnce(issues, n)
  {
    hide AddOnce;
  }

  /** One alarm dependency against the current model: which sets it enters and what it adds to the lists. */
  method InspectAlarm(x: Index, dep: Dependency, changes0: seq<Change>, issues0: seq<Issue>)
    returns (gone: bool, redefined: bool, tagGone: bool, tagChanged: bool, changes: seq<Change>, issues: seq<Issue>)
    requires dep.alarm.Some?
    ensures gone == AlarmGone(x, dep) && redefined == AlarmRedefined(x, dep)
    ensures tagGone == AlarmTagGone(x, dep) && tagChanged == AlarmTagChanged(x, dep)
    ensures changes == AddAll(changes0, AlarmNotes(x, dep).changes) && issues == AddAll(issues0, AlarmNotes(x, dep).issues)
  {
    hide AddAll, AddOnce;
    var id := dep.alarm.value.alarmId;
    gone, redefined, tagGone, tagChanged, changes, issues := false, false, false, false, changes0, issues0;
    AddAllOne(changes0, issues0);
    if id !in x.alarms {
      tagGone := dep.tagId !in x.tags;
      gone, changes, issues := true, AddOnce(changes, AlarmRemoved(id)), AddOnce(issues, RemovedAlarm(id));
      return;
    }
    var current := x.alarms[id];
    if current.tagId !in x.tags {
      tagGone, issues := true, AddOnce(issues, RemovedAlarmTag(current.tagId));
    } else if dep.binding != BindingOf(x.tags[current.tagId]) {
      tagChanged := true;
      changes, issues := AddOnce(changes, AlarmTagConflicted(current.tagId)), AddOnce(issues, AlarmTagConflict(current.tagId));
    }
    var first := if AlarmTagGone(x, dep) then Notes([], [RemovedAlarmTag(CurrentTagId(x, dep))])
                 else if AlarmTagChanged(x, dep)
                 then Notes([AlarmTagConflicted(CurrentTagId(x, dep))], [AlarmTagConflict(CurrentTagId(x, dep))])
                 else NOTHING;
    var second := if AlarmRedefined(x, dep) then Notes([AlarmConflicted(id)], [AlarmConflict(id)]) else NOTHING;
    assert Noted(first, changes, issues, changes0, issues0);
    NotedMore(first, second, changes, issues, changes0, issues0);
    AddAllOne(changes, issues);
    if AlarmDiffers(dep.alarm.value, current) {
      redefined, changes, issues := true, AddOnce(changes, AlarmConflicted(id)), AddOnce(issues, AlarmConflict(id));
    }
  }

  method DetectAlarms(x: Index, deps: map<string, Dependency>, conflicted0: set<string>, removed0: set<string>,
                      changes0: seq<Change>, issues0: seq<Issue>)
    returns (conflictedTags: set<string>, removedTags: set<string>, conflicted: set<string>, removed: set<string>,
             changes: seq<Change>, issues: seq<Issue>, ghost order: seq<string>)
    requires forall a :: a in deps ==> deps[a].alarm.Some?
    ensures Enumerates(order, deps.Keys)
    ensures conflictedTags == conflicted0 + AlarmChangedTags(x, deps, deps.Keys)
    ensures removedTags == removed0 + AlarmGoneTags(x, deps, deps.Keys)
    ensures conflicted == ChangedAlarms(x, deps, deps.Keys) && removed == GoneAlarms(x, deps, deps.Keys)
    ensures Noted(AlarmNotesIn(x, deps, order), changes, issues, changes0, issues0)
  {
    hide Enumerates, AddAll, AddOnce, AlarmNotes, AlarmGone, AlarmRedefined, AlarmTagGone, AlarmTagChanged, CurrentTagId;
    conflictedTags, removedTags, conflicted, removed, changes, issues, order := conflicted0, removed0, {}, {}, changes0, issues0, [];
    var remaining, done: set<string> := deps.Keys, {};
    EnumeratesNothing();
    NotedNothing(changes0, issues0);
    while remaining != {}
      invariant done + remaining == deps.Keys && done !! remaining
      invariant Enumerates(order, done) && forall k :: k in order ==> k in deps && deps[k].alarm.Some?
      invariant conflictedTags == conflicted0 + AlarmChangedTags(x, deps, done)
      invariant removedTags == removed0 + AlarmGoneTags(x, deps, done)
      invariant conflicted == ChangedAlarms(x, deps, done) && removed == GoneAlarms(x, deps, done)
      invariant Noted(AlarmNotesIn(x, deps, order), changes, issues, changes0, issues0)
      decreases remaining
    {
      var a :| a in remaining;
      remaining := remaining - {a};
      EnumeratesMore(order, done, a);
      AlarmNotesSnoc(x, deps, order, a);
      NotedMore(AlarmNotesIn(x, deps, order), AlarmNotes(x, deps[a]), changes, issues, changes0, issues0);
      var gone, redefined, tagGone, tagChanged;
      gone, redefined, tagGone, tagChanged, changes, issues := InspectAlarm(x, deps[a], changes, issues);
      AlarmSetsMore(x, deps, done, a);
      order, done := order + [a], done + {a};
      if tagGone { removedTags := removedTags + {CurrentTagId(x, deps[a])}; }
      if tagChanged { conflictedTags := conflictedTags + {CurrentTagId(x, deps[a])}; }
      if gone { removed := removed + {a}; }
      if redefined { conflicted := conflicted + {a}; }
    }
    assert done == deps.Keys;
  }

  lemma AlarmSetsMore(x: Index, deps: map<string, Dependency>, done: set<string>, a: string)
    requires a in deps
    ensures AlarmChangedTags(x, deps, done + {a})
         == AlarmChangedTags(x, deps, done) + if AlarmTagChanged(x, deps[a]) then {CurrentTagId(x, deps[a])} else {}
    ensures AlarmGoneTags(x, deps, done + {a})
         == AlarmGoneTags(x, deps, done) + if AlarmTagGone(x, deps[a]) then {CurrentTagId(x, deps[a])} else {}
    ensures ChangedAlarms(x, deps, done + {a}) == ChangedAlarms(x, deps, done) + if AlarmRedefined(x, deps[a]) then {a} else {}
    ensures GoneAlarms(x, deps, done + {a}) == GoneAlarms(x, deps, done) + if AlarmGone(x, deps[a]) then {a} else {}
  {
    hide AlarmTagChanged, AlarmTagGone, AlarmRedefined, AlarmGone, CurrentTagId;
  }

  method InspectRelationship(x: Index, c: Component, changes0: seq<Change>, issues0: seq<Issue>)
    returns (gone: bool, differs: bool, changes: seq<Change>, issues: seq<Issue>)
    ensures gone == RelationshipGone(x, c) && differs == RelationshipDiffers(x, c)
    ensures changes == AddAll(changes0, RelationshipNotes(x, c).changes)
    ensures issues == AddAll(issues0, RelationshipNotes(x, c).issues)
  {
    hide AddAll, AddOnce;
    gone, differs, changes, issues := false, false, changes0, issues0;
    AddAllOne(changes0, issues0);
    if c.relationshipId == "" {
      return;
    }
    if c.relationshipId !in x.relationships {
      gone := true;
      changes, issues := AddOnce(changes, RelationshipRemoved(c.relationshipId)), AddOnce(issues, RemovedRelationship(c.relationshipId));
      return;
    }
    var r := x.relationships[c.relationshipId];
    if c.relationshipKind != r.kind || c.relationshipFrom != r.from || c.relationshipTo != r.to {
      differs := true;
      changes, issues := AddOnce(changes, RelationshipConflicted(c.relationshipId)), AddOnce(issues, RelationshipConflict(c.relationshipId));
    }
  }

  method DetectRelationships(x: Index, components: seq<Component>, changes0: seq<Change>, issues0: seq<Issue>)
    returns (removed: set<string>, changed: set<string>, changes: seq<Change>, issues: seq<Issue>)
    ensures removed == GoneRelationships(x, components) && changed == ChangedRelationships(x, components)
    ensures Noted(RelationshipNotesIn(x, components), changes, issues, changes0, issues0)
  {
    hide AddAll, AddOnce, RelationshipGone, RelationshipDiffers, RelationshipNotes;
    removed, changed, changes, issues := {}, {}, changes0, issues0;
    NotedNothing(changes0, issues0);
    for i := 0 to |components|
      invariant removed == GoneRelationships(x, components[..i]) && changed == ChangedRelationships(x, components[..i])
      invariant Noted(RelationshipNotesIn(x, components[..i]), changes, issues, changes0, issues0)
    {
      var c := components[i];
      RelationshipSetsMore(x, components[..i], c);
      assert components[..i + 1] == components[..i] + [c];
      NotedMore(RelationshipNotesIn(x, components[..i]), RelationshipNotes(x, c), changes, issues, changes0, issues0);
      var gone, differs;
      gone, differs, changes, issues := InspectRelationship(x, c, changes, issues);
      if gone { removed := removed + {c.relationshipId}; }
      if differs { changed := changed + {c.relationshipId}; }
    }
    assert components[..|components|] == components;
  }

  lemma RelationshipSetsMore(x: Index, components: seq<Component>, c: Component)
    ensures GoneRelationships(x, components + [c])
         == GoneRelationships(x, components) + if RelationshipGone(x, c) then {c.relationshipId} else {}
    ensures ChangedRelationships(x, components + [c])
         == ChangedRelationships(x, components) + if RelationshipDiffers(x, c) then {c.relationshipId} else {}
    ensures RelationshipNotesIn(x, components + [c]) == Both(RelationshipNotesIn(x, components), RelationshipNotes(x, c))
  {
    hide RelationshipGone, RelationshipDiffers, RelationshipNotes;
    var longer := components + [c];
    assert longer[..|components|] == components;
    assert forall e :: e in longer <==> e in components || e == c;
  }

  /** The marks in the order the engine sets them, each over the one before. */
  method Preserve(c: Component, d: Differences) returns (preserved: Component)
    ensures preserved == Marked(c, MarkFor(c, d))
  {
    preserved := c;
    if c.tagId != "" && c.tagId in d.removedTags {
      preserved := preserved.(status := Unavailable, reason := TagWasRemoved);
    }
    if c.tagId != "" && c.tagId in d.conflictedTags {
      preserved := preserved.(status := Conflicting, reason := BindingChanged);
    }
    if c.alarmId != "" && c.alarmId in d.removedAlarms {
      preserved := preserved.(status := Unavailable, reason := AlarmWasRemoved);
    }
    if c.alarmId != "" && c.alarmId in d.conflictedAlarms {
      preserved := preserved.(status := Conflicting, reason := Reason.AlarmChanged);
    }
    if c.relationshipId != "" && c.relationshipId in d.removedRelationships {
      preserved := preserved.(status := Unavailable, reason := RelationshipWasRemoved);
    }
    if c.relationshipId != "" && c.relationshipId in d.changedRelationships {
      preserved := preserved.(status := Conflicting, reason := RelationshipChanged);
    }
  }

  method MergeOne(c: Component, d: Differences, latest: seq<Component>) returns (merged: Component)
    ensures merged == MergeComponent(c, d, latest)
  {
    hide MarkFor, Blocked;
    var preserved := Preserve(c, d);
    if Blocked(c, d) {
      return preserved;
    }
    for i := 0 to |latest|
      invariant FindComponent(latest, c.id) == FindComponent(latest[i..], c.id)
    {
      if latest[i].id == c.id {
        return latest[i];
      }
      assert latest[i..][1..] == latest[i + 1..];
    }
    merged := preserved.(status := Unavailable, reason := NoLongerDeclared);
  }

  method MergeOld(prior: seq<Component>, d: Differences, latest: seq<Component>) returns (merged: seq<Component>, emitted: set<string>)
    ensures merged == Map(ComponentMerger(d, latest), prior)
    ensures forall id :: id in emitted <==> id in Map(ComponentIds(), prior)
  {
    hide MergeComponent;
    merged, emitted := [], {};
    for i := 0 to |prior|
      invariant merged == Map(ComponentMerger(d, latest), prior[..i])
      invariant forall id :: id in emitted <==> id in Map(ComponentIds(), prior[..i])
    {
      MapSnoc(ComponentMerger(d, latest), prior[..i], prior[i]);
      MapSnoc(ComponentIds(), prior[..i], prior[i]);
      assert prior[..i + 1] == prior[..i] + [prior[i]];
      var one := MergeOne(prior[i], d, latest);
      merged, emitted := merged + [one], emitted + {prior[i].id};
    }
    assert prior[..|prior|] == prior;
  }

  method NewComponents(prior: seq<Component>, emitted: set<string>, latest: seq<Component>) returns (added: seq<Component>)
    requires forall k :: k in emitted <==> k in Map(ComponentIds(), prior)
    ensures added == Filter(NewComponent(prior), latest)
  {
    hide Map, KeyOf;
    added := [];
    for i := 0 to |latest|
      invariant added == Filter(NewComponent(prior), latest[..i])
    {
      FilterSnoc(NewComponent(prior), latest[..i], latest[i]);
      assert latest[..i + 1] == latest[..i] + [latest[i]];
      if latest[i].id !in emitted {
        added := added + [latest[i]];
      }
    }
    assert latest[..|latest|] == latest;
  }

  method MergeComponents(prior: seq<Component>, d: Differences, latest: seq<Component>) returns (merged: seq<Component>)
    ensures merged == MergedComponents(prior, d, latest)
  {
    hide Map, Filter;
    var kept, emitted := MergeOld(prior, d, latest);
    var added := NewComponents(prior, emitted, latest);
    merged := kept + added;
  }

  method MergeOneDependency(dep: Dependency, d: Differences, latest: seq<Dependency>) returns (merged: Dependency)
    ensures merged == MergeDependency(dep, d, latest)
  {
    hide KeyOf, DependencyBlocked;
    if DependencyBlocked(dep, d) {
      return dep;
    }
    for i := 0 to |latest|
      invariant FindDependency(latest, KeyOf(dep)) == FindDependency(latest[i..], KeyOf(dep))
    {
      if KeyOf(latest[i]) == KeyOf(dep) {
        return latest[i];
      }
      assert latest[i..][1..] == latest[i + 1..];
    }
    merged := dep;
  }

  method MergeOldDependencies(prior: seq<Dependency>, d: Differences, latest: seq<Dependency>)
    returns (merged: seq<Dependency>, emitted: set<Key>)
    ensures merged == Map(DependencyMerger(d, latest), prior)
    ensures forall key :: key in emitted <==> key in Map(DependencyKeys(), prior)
  {
    hide MergeDependency, KeyOf;
    merged, emitted := [], {};
    for i := 0 to |prior|
      invariant merged == Map(DependencyMerger(d, latest), prior[..i])
      invariant forall key :: key in emitted <==> key in Map(DependencyKeys(), prior[..i])
    {
      MapSnoc(DependencyMerger(d, latest), prior[..i], prior[i]);
      MapSnoc(DependencyKeys(), prior[..i], prior[i]);
      assert prior[..i + 1] == prior[..i] + [prior[i]];
      var one := MergeOneDependency(prior[i], d, latest);
      merged, emitted := merged + [one], emitted + {KeyOf(prior[i])};
    }
    assert prior[..|prior|] == prior;
  }

  method NewDependencies(prior: seq<Dependency>, emitted: set<Key>, latest: seq<Dependency>) returns (added: seq<Dependency>)
    requires forall k :: k in emitted <==> k in Map(DependencyKeys(), prior)
    ensures added == Filter(NewDependency(prior), latest)
  {
    hide Map, KeyOf;
    added := [];
    for i := 0 to |latest|
      invariant added == Filter(NewDependency(prior), latest[..i])
    {
      FilterSnoc(NewDependency(prior), latest[..i], latest[i]);
      assert latest[..i + 1] == latest[..i] + [latest[i]];
      if KeyOf(latest[i]) !in emitted {
        added := added + [latest[i]];
      }
    }
    assert latest[..|latest|] == latest;
  }

  method MergeDependencies(prior: seq<Dependency>, d: Differences, latest: seq<Dependency>) returns (merged: seq<Dependency>)
    ensures merged == MergedDependencies(prior, d, latest)
  {
    hide Map, Filter;
    var kept, emitted := MergeOldDependencies(prior, d, latest);
    var added := NewDependencies(prior, emitted, latest);
    merged := kept + added;
  }

  method AddIssues(issues0: seq<Issue>, more: seq<Issue>) returns (issues: seq<Issue>)
    ensures issues == AddAll(issues0, more)
  {
    issues := issues0;
    AddAllOne([], issues0);
    for i := 0 to |more|
      invariant issues == AddAll(issues0, more[..i])
    {
      AddAllConcat(issues0, more[..i], [more[i]]);
      AddAllOne([], issues);
      assert more[..i + 1] == more[..i] + [more[i]];
      issues := AddOnce(issues, more[i]);
    }
    assert more[..|more|] == more;
  }

  method HadConflict(v: View) returns (prior: bool)
    ensures prior == PriorConflict(v)
  {
    prior := v.status == Conflict;
    var changes := ChangesOf(v);
    for i := 0 to |changes|
      invariant prior <==> v.status == Conflict || exists k :: 0 <= k < i && ConflictChange(changes[k])
    {
      prior := prior || ConflictChange(changes[i]);
    }
    ghost var before := prior;
    assert before <==> v.status == Conflict || exists c :: c in changes && ConflictChange(c);
    for i := 0 to |v.components|
      invariant prior <==> before || exists k :: 0 <= k < i && v.components[k].status == Conflicting
    {
      prior := prior || v.components[i].status == Conflicting;
    }
    assert prior <==> before || exists c :: c in v.components && c.status == Conflicting;
  }

  /** The whole reconciliation, with the walks of the two maps that it took. */
  method ReconcileWalking(x: Index, v: View)
    returns (r: Result<View, DomainError>, ghost tagOrder: seq<string>, ghost alarmOrder: seq<string>)
    ensures Orders(v, tagOrder, alarmOrder) && r == Reconciled(x, v, tagOrder, alarmOrder)
  {
    hide Resolved, Distinct, AddAll, AddOnce, TagDependenciesOf, AlarmDependenciesOf, TagNotesIn, AlarmNotesIn,
         RelationshipNotesIn, MergedComponents, MergedDependencies, PriorConflict, ChangedTags, GoneTags, AlarmChangedTags,
         AlarmGoneTags, ChangedAlarms, GoneAlarms, GoneRelationships, ChangedRelationships;
    ghost var someOrder := SomeOrders(v);
    tagOrder, alarmOrder := someOrder.0, someOrder.1;
    if Oversized(v) {
      return Failure(InvalidView), tagOrder, alarmOrder;
    }
    if OtherModel(x, v) {
      return Failure(ModelMismatch), tagOrder, alarmOrder;
    }
    var resolved := ResolveTask(x, NewTask(x, v.task));
    if resolved.Failure? {
      return Failure(resolved.error), tagOrder, alarmOrder;
    }
    var latest := resolved.value;
    var tags, alarms := OldDependencies(v.dependencies);
    var conflictedTags, removedTags, changes, issues;
    conflictedTags, removedTags, changes, issues, tagOrder := DetectTags(x, tags, ChangesOf(v), v.issues);
    var conflictedAlarms, removedAlarms, removedRelationships, changedRelationships;
    ghost var changes1, issues1 := changes, issues;
    conflictedTags, removedTags, conflictedAlarms, removedAlarms, changes, issues, alarmOrder :=
      DetectAlarms(x, alarms, conflictedTags, removedTags, changes, issues);
    ghost var tagNotes, alarmNotes := TagNotesIn(x, tags, tagOrder), AlarmNotesIn(x, alarms, alarmOrder);
    NotedMore(tagNotes, alarmNotes, changes1, issues1, ChangesOf(v), v.issues);
    ghost var changes2, issues2 := changes, issues;
    removedRelationships, changedRelationships, changes, issues := DetectRelationships(x, v.components, changes, issues);
    NotedMore(Both(tagNotes, alarmNotes), RelationshipNotesIn(x, v.components), changes2, issues2, ChangesOf(v), v.issues);
    var d := Differences(conflictedTags, removedTags, conflictedAlarms, removedAlarms, removedRelationships, changedRelationships);
    var components := MergeComponents(v.components, d, latest.components);
    if |components| > MAX_COMPONENTS {
      return Failure(InvalidView), tagOrder, alarmOrder;
    }
    var dependencies := MergeDependencies(v.dependencies, d, latest.dependencies);
    issues := AddIssues(issues, latest.issues);
    var prior := HadConflict(v);
    var status;
    if conflictedTags != {} || conflictedAlarms != {} || changedRelationships != {} || prior {
      status := Conflict;
    } else if removedTags != {} || removedAlarms != {} || removedRelationships != {} || issues != [] || v.status == NeedsReview {
      status := NeedsReview;
    } else {
      status := Ready;
    }
    r := Success(latest.(task := NewTask(x, v.task), components := components, dependencies := dependencies, issues := issues,
                         changes := Some(changes), status := status, reconciled := true));
  }

  ghost predicate Refines(x: Index, v: View, r: Result<View, DomainError>) {
    exists tagOrder, alarmOrder :: Orders(v, tagOrder, alarmOrder) && r == Reconciled(x, v, tagOrder, alarmOrder)
  }

  /** It refines its specification, for some walk of the two maps. */
  method Reconcile(x: Index, v: View) returns (r: Result<View, DomainError>)
    ensures Refines(x, v, r)
  {
    hide Reconciled, Enumerates;
    ghost var tagOrder, alarmOrder;
    r, tagOrder, alarmOrder := ReconcileWalking(x, v);
  }
}
