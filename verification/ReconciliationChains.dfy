/** What reconciling keeps over whole runs: identities, order, and every block. */
module ReconciliationChains {
  import opened Model
  import opened Reconciliation
  import opened Screen
  import opened Sequences
  import opened Wrappers

  function Ids(components: seq<Component>): seq<string> {
    Map(ComponentIds(), components)
  }

  function Keys(deps: seq<Dependency>): seq<Key> {
    Map(DependencyKeys(), deps)
  }

  ghost predicate Orders(v: View, tagOrder: seq<string>, alarmOrder: seq<string>) {
    && Enumerates(tagOrder, TagDependenciesOf(v.dependencies).Keys)
    && Enumerates(alarmOrder, AlarmDependenciesOf(v.dependencies).Keys)
  }

  /** Some walk of the two maps always exists. */
  lemma {:induction false} SomeOrder(keys: set<string>) returns (order: seq<string>)
    ensures Enumerates(order, keys)
    decreases keys
  {
    if keys == {} {
      order := [];
    } else {
      var k :| k in keys;
      var rest := SomeOrder(keys - {k});
      order := rest + [k];
      DistinctSnocSeq(rest, k);
    }
  }

  lemma SomeOrders(v: View) returns (order: (seq<string>, seq<string>))
    ensures Orders(v, order.0, order.1)
  {
    var tags := SomeOrder(TagDependenciesOf(v.dependencies).Keys);
    var alarms := SomeOrder(AlarmDependenciesOf(v.dependencies).Keys);
    order := (tags, alarms);
  }

  lemma MergeKeepsId(c: Component, d: Differences, latest: seq<Component>)
    ensures MergeComponent(c, d, latest).id == c.id
  {
  }

  lemma MergeKeepsKey(dep: Dependency, d: Differences, latest: seq<Dependency>)
    ensures KeyOf(MergeDependency(dep, d, latest)) == KeyOf(dep)
  {
  }

  lemma MergedIds(prior: seq<Component>, d: Differences, latest: seq<Component>)
    ensures Ids(MergedComponents(prior, d, latest)) == Ids(prior) + Ids(Filter(NewComponent(prior), latest))
  {
    hide MergeComponent;
    forall i | 0 <= i < |prior| ensures MergeComponent(prior[i], d, latest).id == prior[i].id {
      MergeKeepsId(prior[i], d, latest);
    }
  }

  lemma MergedKeys(prior: seq<Dependency>, d: Differences, latest: seq<Dependency>)
    ensures Keys(MergedDependencies(prior, d, latest)) == Keys(prior) + Keys(Filter(NewDependency(prior), latest))
  {
    hide MergeDependency;
    forall i | 0 <= i < |prior| ensures KeyOf(MergeDependency(prior[i], d, latest)) == KeyOf(prior[i]) {
      MergeKeepsKey(prior[i], d, latest);
    }
  }

  lemma MergedDistinct(prior: seq<Component>, latest: seq<Component>)
    requires Distinct(Ids(prior)) && Distinct(Ids(latest))
    ensures Distinct(Ids(prior) + Ids(Filter(NewComponent(prior), latest)))
  {
    var added := Filter(NewComponent(prior), latest);
    FilterKeepsDistinctIds(NewComponent(prior), latest);
    forall k | 0 <= k < |added| ensures Ids(added)[k] !in Ids(prior) {
      assert added[k] in added;
    }
    DistinctConcat(Ids(prior), Ids(added));
  }

  /** Conservation: the old identifiers in the old order, then the new ones in the order of the fresh view; the same
      law for the dependency keys. */
  lemma ComponentConservation(x: Index, v: View, tagOrder: seq<string>, alarmOrder: seq<string>)
    requires Orders(v, tagOrder, alarmOrder) && Reconciled(x, v, tagOrder, alarmOrder).Success?
    ensures var r := Reconciled(x, v, tagOrder, alarmOrder).value;
      var latest := Resolved(x, NewTask(x, v.task)).value;
      && Ids(r.components) == Ids(v.components) + Ids(Filter(NewComponent(v.components), latest.components))
      && Keys(r.dependencies) == Keys(v.dependencies) + Keys(Filter(NewDependency(v.dependencies), latest.dependencies))
      && (Distinct(Ids(v.components)) && Distinct(Ids(latest.components)) ==> Distinct(Ids(r.components)))
  {
    hide MergedComponents, MergedDependencies, Resolved, DifferencesOf, AllNotes, Verdict, Oversized, OtherModel, Ids, Keys, Distinct;
    var latest := Resolved(x, NewTask(x, v.task)).value;
    var d := DifferencesOf(x, v);
    MergedIds(v.components, d, latest.components);
    MergedKeys(v.dependencies, d, latest.dependencies);
    if Distinct(Ids(v.components)) && Distinct(Ids(latest.components)) {
      MergedDistinct(v.components, latest.components);
    }
  }

  lemma {:induction false} FilterKeepsDistinctIds(keep: Component -> bool, s: seq<Component>)
    requires Distinct(Ids(s))
    ensures Distinct(Ids(Filter(keep, s)))
    decreases |s|
  {
    if s != [] {
      var last := |s| - 1;
      var front := s[..last];
      assert Ids(front) == Ids(s)[..last];
      FilterKeepsDistinctIds(keep, front);
      var kept := Filter(keep, front);
      forall k | 0 <= k < |kept| ensures kept[k].id != s[last].id {
        assert kept[k] in front;
        var i :| 0 <= i < last && front[i] == kept[k];
        assert Ids(s)[i] != Ids(s)[last];
      }
      if keep(s[last]) {
        assert Ids(kept + [s[last]]) == Ids(kept) + [s[last].id];
        DistinctSnocSeq(Ids(kept), s[last].id);
      }
    }
  }

  function Rank(s: ViewStatus): nat {
    match s case Ready => 0 case NeedsReview => 1 case Conflict => 2
  }

  /** A later component of the same place: the same identity, and if it was blocked it still is, with nothing but its
      status and reason touched. */
  ghost predicate Follows(before: Component, after: Component) {
    && after.id == before.id
    && (PriorBlocked(before) ==> PriorBlocked(after) && after == before.(status := after.status, reason := after.reason))
  }

  ghost predicate ViewFollows(before: View, after: View) {
    && Rank(before.status) <= Rank(after.status)
    && |before.components| <= |after.components|
    && forall i :: 0 <= i < |before.components| ==> Follows(before.components[i], after.components[i])
  }

  lemma MergeFollows(c: Component, d: Differences, latest: seq<Component>)
    ensures Follows(c, MergeComponent(c, d, latest))
  {
  }

  /** One reconciliation, whatever the model: no status is lowered and no block is lifted. */
  lemma StepFollows(x: Index, v: View, tagOrder: seq<string>, alarmOrder: seq<string>)
    requires Orders(v, tagOrder, alarmOrder) && Reconciled(x, v, tagOrder, alarmOrder).Success?
    ensures ViewFollows(v, Reconciled(x, v, tagOrder, alarmOrder).value)
  {
    hide MergeComponent, Resolved, DifferencesOf, AllNotes, MergedDependencies, Follows, Oversized, OtherModel;
    var d := DifferencesOf(x, v);
    var latest := Resolved(x, NewTask(x, v.task)).value;
    var r := Reconciled(x, v, tagOrder, alarmOrder).value;
    forall i | 0 <= i < |v.components| ensures Follows(v.components[i], r.components[i]) {
      MergeFollows(v.components[i], d, latest.components);
    }
  }

  /** Some model and some walk of the old dependencies take one view to the other. */
  ghost predicate Reconciles(v: View, r: View) {
    exists x, tagOrder, alarmOrder :: Orders(v, tagOrder, alarmOrder) && Reconciled(x, v, tagOrder, alarmOrder) == Success(r)
  }

  ghost predicate Chain(views: seq<View>) {
    forall k {:trigger views[k]} :: 0 < k < |views| ==> Reconciles(views[k - 1], views[k])
  }

  lemma ReconcilesFollows(v: View, r: View)
    requires Reconciles(v, r)
    ensures ViewFollows(v, r)
  {
    hide Reconciled, ViewFollows;
    var x, tagOrder, alarmOrder :| Orders(v, tagOrder, alarmOrder) && Reconciled(x, v, tagOrder, alarmOrder) == Success(r);
    StepFollows(x, v, tagOrder, alarmOrder);
  }

  lemma FollowsTransitive(a: View, b: View, c: View)
    requires ViewFollows(a, b) && ViewFollows(b, c)
    ensures ViewFollows(a, c)
  {
    forall i | 0 <= i < |a.components| ensures Follows(a.components[i], c.components[i]) {
      assert Follows(a.components[i], b.components[i]) && Follows(b.components[i], c.components[i]);
    }
  }

  /** Blocks stick: along any chain of reconciliations over any models, from any point to any later one. */
  lemma {:induction false} BlocksStick(views: seq<View>, i: nat, j: nat)
    requires Chain(views) && i <= j < |views|
    ensures ViewFollows(views[i], views[j])
    decreases j
  {
    hide ViewFollows, Reconciles;
    if i < j {
      BlocksStick(views, i, j - 1);
      ReconcilesFollows(views[j - 1], views[j]);
      FollowsTransitive(views[i], views[j - 1], views[j]);
    } else {
      FollowsSelf(views[i]);
    }
  }

  lemma FollowsSelf(v: View)
    ensures ViewFollows(v, v)
  {
    forall k | 0 <= k < |v.components| ensures Follows(v.components[k], v.components[k]) {
      var c := v.components[k];
      assert c == c.(status := c.status, reason := c.reason);
    }
  }
}
