/** The main results about reconciliation: the exact verdict, well-formedness over runs, and the fixed point. */
module ReconciliationProperties {
  import opened Model
  import opened Reconciliation
  import opened ReconciliationChains
  import opened Screen
  import opened Sequences
  import opened WellFormedViews
  import opened Wrappers

  ghost function Latest(x: Index, v: View): View
    requires Resolved(x, NewTask(x, v.task)).Success?
  {
    Resolved(x, NewTask(x, v.task)).value
  }

  lemma FreshFacts(x: Index, v: View)
    requires ValidIndex(x) && Resolved(x, NewTask(x, v.task)).Success?
    ensures FreshView(x, Latest(x, v)) && Latest(x, v).task == NewTask(x, v.task) && Latest(x, v).modelId == x.model.modelId
    ensures WellFormed(Latest(x, v)) && DistinctKeys(Latest(x, v).dependencies)
  {
    hide WellFormed;
    ResolvedIsFresh(x, NewTask(x, v.task));
    WellFormedParts(Latest(x, v));
  }

  lemma WellFormedParts(v: View)
    requires WellFormed(v)
    ensures AllPaired(v.task, v.components, v.dependencies) && DistinctKeys(v.dependencies) && Distinct(Ids(v.components))
  {
    KeysOfPaired(v.task, v.components, v.dependencies);
  }

  lemma KeyFromId(task: Task, c: Component, d: Dependency)
    requires Paired(task, c, d)
    ensures KeyOf(d) == if task.kind.Overview? then TagKey(c.id) else AlarmKey(c.id)
  {
  }

  /** The identifiers of a task's scope do not depend on the revision it names. */
  lemma PairedUnderNewTask(x: Index, task: Task, c: Component, d: Dependency)
    ensures Paired(task, c, d) <==> Paired(NewTask(x, task), c, d)
  {
  }

  /** Whether the sets speak of a component is told by its dependency. */
  lemma BlockedTogether(x: Index, v: View, i: nat)
    requires ValidIndex(x) && WellFormed(v) && i < |v.components|
    ensures var d := DifferencesOf(x, v);
      var c := v.components[i];
      && Blocked(c, d) == (PriorBlocked(c) || DependencyBlocked(v.dependencies[i], d))
      && (DependencyBlocked(v.dependencies[i], d) ==> PriorBlocked(Marked(c, MarkFor(c, d))))
      && (!DependencyBlocked(v.dependencies[i], d) ==> Marked(c, MarkFor(c, d)) == c)
  {
    hide DifferencesOf, AlarmRedefined, AlarmGone, ConflictsTag, RemovesTag, Paired, WellFormed, DistinctKeys;
    WellFormedParts(v);
    DifferencesRead(x, v);
    NoRelationships(x, v);
    var c, dep := v.components[i], v.dependencies[i];
    KindOfPaired(v.task, c, dep);
    if dep.alarm.None? {
      forall other | other in v.dependencies ensures other.alarm.None? {
        var k :| 0 <= k < |v.dependencies| && v.dependencies[k] == other;
        KindOfPaired(v.task, v.components[k], v.dependencies[k]);
      }
      OnlyAlarms(x);
      var d := DifferencesOf(x, v);
      assert c.alarmId !in d.conflictedAlarms && c.alarmId !in d.removedAlarms;
    }
  }

  lemma OnlyAlarms(x: Index)
    ensures forall dep :: AlarmRedefined(x, dep) || AlarmGone(x, dep) ==> dep.alarm.Some?
  {
  }

  /** What becomes of one place of a well-formed view: a touched dependency keeps it, blocked; otherwise the fresh parts
      are there, and they replace the dependency and, unless it was already blocked, the component. */
  lemma MergeAt(x: Index, v: View, i: nat) returns (j: nat)
    requires ValidIndex(x) && WellFormed(v) && i < |v.components| && Resolved(x, NewTask(x, v.task)).Success?
    ensures var d, l := DifferencesOf(x, v), Latest(x, v);
      var c, dep := v.components[i], v.dependencies[i];
      var mc, md := MergeComponent(c, d, l.components), MergeDependency(dep, d, l.dependencies);
      if DependencyBlocked(dep, d) then mc == Marked(c, MarkFor(c, d)) && PriorBlocked(mc) && md == dep
      else
        && j < |l.components| == |l.dependencies| && md == l.dependencies[j]
        && mc == (if PriorBlocked(c) then c else l.components[j])
        && l.components[j].id == c.id && l.components[j].tagId == c.tagId && l.components[j].alarmId == c.alarmId
        && md.tagId == dep.tagId && KeyOf(md) == KeyOf(dep)
  {
    hide DifferencesOf, Resolved, DependencyBlocked, Blocked, MarkFor, FreshView, Touched, WellFormed, ValidIndex, Paired, KeyOf, DistinctKeys;
    WellFormedParts(v);
    var d, l := DifferencesOf(x, v), Latest(x, v);
    var c, dep := v.components[i], v.dependencies[i];
    BlockedTogether(x, v, i);
    if !DependencyBlocked(dep, d) {
      if Touched(x, dep) { TouchedIsBlocked(x, v, i); }
      PairedUnderNewTask(x, v.task, c, dep);
      assert Paired(v.task, c, dep);
      j := UntouchedIsFound(x, NewTask(x, v.task), c, dep);
      FreshFacts(x, v);
      FoundIs(l.components, l.dependencies, j, l);
    } else {
      j := 0;
    }
  }

  lemma FoundIs(components: seq<Component>, deps: seq<Dependency>, j: nat, l: View)
    requires components == l.components && deps == l.dependencies && WellFormed(l) && j < |components|
    ensures j < |deps| && FindComponent(components, components[j].id) == Some(components[j])
    ensures FindDependency(deps, KeyOf(deps[j])) == Some(deps[j])
  {
    hide Paired, KeyOf;
    WellFormedParts(l);
    var c := FindComponent(components, components[j].id);
    assert components[j] in components;
    var k :| 0 <= k < |components| && components[k] == c.value;
    assert Ids(components)[k] == Ids(components)[j];
    var dep := FindDependency(deps, KeyOf(deps[j]));
    assert deps[j] in deps;
    var n :| 0 <= n < |deps| && deps[n] == dep.value;
  }

  // New parts

  ghost predicate PairAt<A, B>(a: seq<A>, b: seq<B>, x: A, y: B) {
    exists j :: 0 <= j < |a| == |b| && a[j] == x && b[j] == y
  }

  /** Filtering two sequences in step keeps them in step. */
  lemma {:induction false} FilterPairs<A(!new), B(!new)>(a: seq<A>, b: seq<B>, keepA: A -> bool, keepB: B -> bool)
    requires |a| == |b| && forall i :: 0 <= i < |a| ==> keepA(a[i]) == keepB(b[i])
    ensures |Filter(keepA, a)| == |Filter(keepB, b)|
    ensures forall k :: 0 <= k < |Filter(keepA, a)| ==> PairAt(a, b, Filter(keepA, a)[k], Filter(keepB, b)[k])
    decreases |a|
  {
    if a != [] {
      var n := |a| - 1;
      FilterPairs(a[..n], b[..n], keepA, keepB);
      var fa, fb := Filter(keepA, a), Filter(keepB, b);
      forall k | 0 <= k < |fa| ensures PairAt(a, b, fa[k], fb[k]) {
        if k < |Filter(keepA, a[..n])| {
          assert PairAt(a[..n], b[..n], fa[k], fb[k]);
          var j :| 0 <= j < n && a[..n][j] == fa[k] && b[..n][j] == fb[k];
          assert a[j] == fa[k] && b[j] == fb[k];
        } else {
          assert a[n] == fa[k] && b[n] == fb[k];
        }
      }
    }
  }

  ghost predicate NewAt(l: View, c: Component, d: Dependency, prior: seq<Component>) {
    exists j :: 0 <= j < |l.components| == |l.dependencies| && c == l.components[j] && d == l.dependencies[j]
                && c.id !in Ids(prior)
  }

  /** The parts appended by the merge come in pairs from the fresh view. */
  lemma NewParts(x: Index, v: View)
    requires ValidIndex(x) && WellFormed(v) && Resolved(x, NewTask(x, v.task)).Success?
    ensures var l := Latest(x, v);
      var cs, ds := Filter(NewComponent(v.components), l.components), Filter(NewDependency(v.dependencies), l.dependencies);
      && AllPaired(NewTask(x, v.task), cs, ds)
      && forall k :: 0 <= k < |cs| ==> NewAt(l, cs[k], ds[k], v.components)
  {
    hide Paired, Resolved, FreshView, WellFormed, ValidIndex;
    var l := Latest(x, v);
    FreshFacts(x, v);
    WellFormedParts(l);
    WellFormedParts(v);
    var keepC, keepD := NewComponent(v.components), NewDependency(v.dependencies);
    forall i | 0 <= i < |l.components| ensures keepC(l.components[i]) == keepD(l.dependencies[i]) {
      NewTogether(x, v, l.components[i], l.dependencies[i]);
    }
    FilterPairs(l.components, l.dependencies, keepC, keepD);
    var cs, ds := Filter(keepC, l.components), Filter(keepD, l.dependencies);
    forall k | 0 <= k < |cs| ensures Paired(l.task, cs[k], ds[k]) && NewAt(l, cs[k], ds[k], v.components) {
      assert PairAt(l.components, l.dependencies, cs[k], ds[k]);
      assert cs[k] in cs;
    }
  }

  lemma NewTogether(x: Index, v: View, c: Component, d: Dependency)
    requires WellFormed(v) && Paired(NewTask(x, v.task), c, d)
    ensures (c.id in Map(ComponentIds(), v.components)) == (KeyOf(d) in Map(DependencyKeys(), v.dependencies))
  {
    hide Paired, KeyOf;
    KeyFromId(NewTask(x, v.task), c, d);
    forall i | 0 <= i < |v.components| ensures v.components[i].id == c.id <==> KeyOf(v.dependencies[i]) == KeyOf(d) {
      assert Paired(v.task, v.components[i], v.dependencies[i]);
      KeyFromId(v.task, v.components[i], v.dependencies[i]);
    }
    var ids, keys := Map(ComponentIds(), v.components), Map(DependencyKeys(), v.dependencies);
    if c.id in ids {
      var i :| 0 <= i < |ids| && ids[i] == c.id;
      assert keys[i] == KeyOf(d);
    }
    if KeyOf(d) in keys {
      var i :| 0 <= i < |keys| && keys[i] == KeyOf(d);
      assert ids[i] == c.id;
    }
  }

  // The merge as a whole

  lemma SplitReconciled(x: Index, v: View, tagOrder: seq<string>, alarmOrder: seq<string>)
    requires Orders(v, tagOrder, alarmOrder) && Reconciled(x, v, tagOrder, alarmOrder).Success?
    ensures Resolved(x, NewTask(x, v.task)).Success? && v.modelId == x.model.modelId
    ensures Reconciled(x, v, tagOrder, alarmOrder).value == Merged(x, v, Latest(x, v), AllNotes(x, v, tagOrder, alarmOrder))
    ensures |Reconciled(x, v, tagOrder, alarmOrder).value.components| <= MAX_COMPONENTS
  {
    hide Resolved, Merged, AllNotes, Oversized;
  }

  /** Each place of the merged view is either an old place or a new one. */
  lemma MergedPlaces(x: Index, v: View, notes: Notes)
    requires ValidIndex(x) && WellFormed(v) && Resolved(x, NewTask(x, v.task)).Success?
    ensures var r := Merged(x, v, Latest(x, v), notes);
      var d, l := DifferencesOf(x, v), Latest(x, v);
      var n := |v.components|;
      && |r.components| == |r.dependencies| && n <= |r.components| && |v.dependencies| == n
      && (forall i :: 0 <= i < n ==> r.components[i] == MergeComponent(v.components[i], d, l.components)
                                     && r.dependencies[i] == MergeDependency(v.dependencies[i], d, l.dependencies))
      && (forall i :: n <= i < |r.components| ==> NewAt(l, r.components[i], r.dependencies[i], v.components))
      && (forall i :: n <= i < |r.components| ==> Paired(r.task, r.components[i], r.dependencies[i]))
  {
    hide Paired, Resolved, FreshView, WellFormed, ValidIndex, MergeComponent, MergeDependency, DifferencesOf, Verdict, NewAt, Filter;
    WellFormedParts(v);
    NewParts(x, v);
  }

  lemma MergedPaired(x: Index, v: View, i: nat)
    requires ValidIndex(x) && WellFormed(v) && i < |v.components| && Resolved(x, NewTask(x, v.task)).Success?
    ensures i < |v.dependencies|
    ensures var d, l := DifferencesOf(x, v), Latest(x, v);
      var mc := MergeComponent(v.components[i], d, l.components);
      && Paired(NewTask(x, v.task), mc, MergeDependency(v.dependencies[i], d, l.dependencies))
      && (PriorBlocked(mc) ==> PriorBlocked(v.components[i]) || DependencyBlocked(v.dependencies[i], d))
  {
    hide DifferencesOf, Resolved, DependencyBlocked, MarkFor, Touched, WellFormed, ValidIndex, DistinctKeys, MergeComponent, MergeDependency;
    WellFormedParts(v);
    var j := MergeAt(x, v, i);
    FreshFacts(x, v);
    var l := Latest(x, v);
    WellFormedParts(l);
    var c, dep := v.components[i], v.dependencies[i];
    assert Paired(v.task, c, dep);
    PairedUnderNewTask(x, v.task, c, dep);
    if !DependencyBlocked(dep, DifferencesOf(x, v)) {
      assert Paired(l.task, l.components[j], l.dependencies[j]);
      assert l.components[j] in l.components;
    }
  }

  lemma BlockedDependencyMarks(x: Index, v: View, i: nat)
    requires WellFormed(v) && i < |v.dependencies| && DependencyBlocked(v.dependencies[i], DifferencesOf(x, v))
    ensures forall issues :: Verdict(v, DifferencesOf(x, v), issues) != Ready
  {
    hide DifferencesOf;
  }

  /** Reconciling keeps a view well formed, whatever revision of the model it meets. */
  lemma StepWellFormed(x: Index, v: View, tagOrder: seq<string>, alarmOrder: seq<string>)
    requires ValidIndex(x) && WellFormed(v)
    requires Orders(v, tagOrder, alarmOrder) && Reconciled(x, v, tagOrder, alarmOrder).Success?
    ensures WellFormed(Reconciled(x, v, tagOrder, alarmOrder).value)
  {
    hide Paired, Resolved, FreshView, ValidIndex, MergeComponent, MergeDependency, DifferencesOf, Verdict, AllNotes, Reconciled, Distinct, Enumerates, MergedComponents, MergedDependencies;
    SplitReconciled(x, v, tagOrder, alarmOrder);
    var r := Reconciled(x, v, tagOrder, alarmOrder).value;
    var d := DifferencesOf(x, v);
    var l := Latest(x, v);
    MergedPlaces(x, v, AllNotes(x, v, tagOrder, alarmOrder));
    FreshFacts(x, v);
    WellFormedParts(l);
    WellFormedParts(v);
    ComponentConservation(x, v, tagOrder, alarmOrder);
    var n := |v.components|;
    forall i | 0 <= i < |r.components| ensures Paired(r.task, r.components[i], r.dependencies[i]) {
      if i < n { MergedPaired(x, v, i); }
    }
    forall i | 0 <= i < |r.components| && PriorBlocked(r.components[i]) ensures r.status != Ready {
      if i < n {
        MergedPaired(x, v, i);
        if PriorBlocked(v.components[i]) {
          assert v.components[i] in v.components;
          StepFollows(x, v, tagOrder, alarmOrder);
        } else {
          BlockedDependencyMarks(x, v, i);
        }
      } else {
        NewIsLive(x, v, r.components[i], r.dependencies[i]);
      }
    }
  }

  lemma NewIsLive(x: Index, v: View, c: Component, d: Dependency)
    requires ValidIndex(x) && Resolved(x, NewTask(x, v.task)).Success?
    requires NewAt(Latest(x, v), c, d, v.components)
    ensures c.status == Live && c in Latest(x, v).components && d in Latest(x, v).dependencies && !Touched(x, d)
  {
    hide Resolved, WellFormed, Touched, ValidIndex;
    FreshFacts(x, v);
    var l := Latest(x, v);
    var j :| 0 <= j < |l.components| && c == l.components[j] && d == l.dependencies[j];
    assert l.components[j] in l.components && l.dependencies[j] in l.dependencies;
  }
}
