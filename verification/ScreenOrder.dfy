/** The order in which a model lists its items does not matter to the views made from it. */
module ScreenOrder {
  import opened Model
  import opened Screen
  import opened Sequences
  import opened Wrappers

  /** Identifiers strictly ascending. */
  ghost predicate AscendsBy<T>(s: seq<T>, id: T -> string) {
    forall i, j :: 0 <= i < j < |s| ==> LexLe(id(s[i]), id(s[j])) && id(s[i]) != id(s[j])
  }

  lemma SomeMember<T>(s: seq<T>)
    ensures s == [] || exists x :: x in s
  {
    if s != [] { assert s[0] in s; }
  }

  lemma LastIsGreatest<T(!new)>(s: seq<T>, id: T -> string)
    requires AscendsBy(s, id) && s != []
    ensures s[|s| - 1] in s && forall x :: x in s ==> LexLe(id(x), id(s[|s| - 1]))
  {
    var n := |s| - 1;
    LexTotal(id(s[n]), id(s[n]));
    forall x | x in s ensures LexLe(id(x), id(s[n])) {
      var i :| 0 <= i < |s| && s[i] == x;
    }
  }

  lemma OnePerId<T>(s: seq<T>, id: T -> string, x: T, y: T)
    requires AscendsBy(s, id) && x in s && y in s && id(x) == id(y)
    ensures x == y
  {
    var i :| 0 <= i < |s| && s[i] == x;
    var j :| 0 <= j < |s| && s[j] == y;
  }

  lemma {:induction false} AscendingUnique<T(!new)>(a: seq<T>, b: seq<T>, id: T -> string)
    requires AscendsBy(a, id) && AscendsBy(b, id) && forall x :: x in a <==> x in b
    ensures a == b
    decreases |a|
  {
    hide AscendsBy;
    SomeMember(a);
    SomeMember(b);
    if a != [] {
      var n, m := |a| - 1, |b| - 1;
      LastIsGreatest(a, id);
      LastIsGreatest(b, id);
      LexTotal(id(a[n]), id(b[m]));
      OnePerId(a, id, a[n], b[m]);
      FrontMembers(a, id);
      FrontMembers(b, id);
      forall x ensures x in a[..n] <==> x in b[..m] {
        assert x in a[..n] <==> x in a && x != a[n];
        assert x in b[..m] <==> x in b && x != b[m];
      }
      AscendingUnique(a[..n], b[..m], id);
      assert a == a[..n] + [a[n]] && b == b[..m] + [b[m]];
    }
  }

  lemma FrontMembers<T(!new)>(s: seq<T>, id: T -> string)
    requires AscendsBy(s, id) && s != []
    ensures AscendsBy(s[..|s| - 1], id)
    ensures forall x :: x in s[..|s| - 1] <==> x in s && x != s[|s| - 1]
  {
    var n := |s| - 1;
    forall x | x in s[..n] ensures x in s && x != s[n] {
      var i :| 0 <= i < n && s[..n][i] == x;
      assert id(s[i]) != id(s[n]);
    }
    forall x | x in s && x != s[n] ensures x in s[..n] {
      var i :| 0 <= i < |s| && s[i] == x;
      assert s[..n][i] == x;
    }
  }

  /** Sorting what carries distinct identifiers makes them ascend. */
  lemma SortAscends<T(!new)>(s: seq<T>, le: (T, T) -> bool, id: T -> string)
    requires Distinct(s) && (forall x, y :: x in s && y in s && id(x) == id(y) ==> x == y)
    requires forall x, y :: le(x, y) == LexLe(id(x), id(y))
    ensures AscendsBy(SortBy(s, le), id) && forall x :: x in SortBy(s, le) <==> x in s
  {
    forall x, y ensures le(x, y) || le(y, x) { LexTotal(id(x), id(y)); }
    forall x, y, z | le(x, y) && le(y, z) ensures le(x, z) { LexTransitive(id(x), id(y), id(z)); }
    SortSorts(s, le);
    var r := SortBy(s, le);
    SameMembers(s, r);
    DistinctPermutation(s, r);
    forall i, j | 0 <= i < j < |r| ensures LexLe(id(r[i]), id(r[j])) && id(r[i]) != id(r[j]) {
      assert le(r[i], r[j]);
      assert r[i] in s && r[j] in s && r[i] != r[j];
    }
  }

  lemma SameSorted<T(!new)>(a: seq<T>, b: seq<T>, le: (T, T) -> bool, id: T -> string)
    requires Distinct(a) && Distinct(b) && (forall x :: x in a <==> x in b)
    requires forall x, y :: x in a && y in a && id(x) == id(y) ==> x == y
    requires forall x, y :: le(x, y) == LexLe(id(x), id(y))
    ensures SortBy(a, le) == SortBy(b, le)
  {
    SortAscends(a, le, id);
    SortAscends(b, le, id);
    AscendingUnique(SortBy(a, le), SortBy(b, le), id);
  }

  lemma OneItemPerId<T(!new)>(items: seq<T>, id: T -> string)
    requires DistinctIds(items, id)
    ensures forall x, y :: x in items && y in items && id(x) == id(y) ==> x == y
  {
    forall x, y | x in items && y in items && id(x) == id(y) ensures x == y {
      var i :| 0 <= i < |items| && items[i] == x;
      var j :| 0 <= j < |items| && items[j] == y;
    }
  }

  // Two listings of one model

  ghost predicate SameModel(m: MachineModel, n: MachineModel) {
    && m.modelId == n.modelId && m.revision == n.revision
    && (forall a :: a in m.assets <==> a in n.assets) && (forall t :: t in m.tags <==> t in n.tags)
    && (forall a :: a in m.alarms <==> a in n.alarms)
  }

  lemma {:induction false} SameMap<T(!new)>(a: seq<T>, b: seq<T>, id: T -> string)
    requires DistinctIds(a, id) && DistinctIds(b, id) && forall x :: x in a <==> x in b
    ensures ById(a, id) == ById(b, id)
  {
    hide ById;
    MapsAgree(a, id);
    MapsAgree(b, id);
    var ma, mb := ById(a, id), ById(b, id);
    forall k ensures k in ma <==> k in mb {
      if k in ma { assert ma[k] in b; }
      if k in mb { assert mb[k] in a; }
    }
    forall k | k in ma ensures ma[k] == mb[k] { assert ma[k] in b; }
  }

  lemma SameMaps(x: Index, y: Index)
    requires ValidIndex(x) && ValidIndex(y) && SameModel(x.model, y.model)
    ensures x.assets == y.assets && x.tags == y.tags && x.alarms == y.alarms
  {
    hide ById, AssetFields, TagFields, AlarmFields, RelationshipFields;
    SameMap(x.model.assets, y.model.assets, ASSET_ID);
    SameMap(x.model.tags, y.model.tags, TAG_ID);
    SameMap(x.model.alarms, y.model.alarms, ALARM_ID);
  }

  lemma SameAssetTags(x: Index, y: Index, task: Task, asset: string)
    requires DistinctIds(x.model.tags, TAG_ID) && DistinctIds(y.model.tags, TAG_ID)
    requires forall t :: t in x.model.tags <==> t in y.model.tags
    ensures AssetTags(x, task, asset) == AssetTags(y, task, asset)
  {
    hide RoleWanted;
    DistinctItems(x.model.tags, TAG_ID);
    DistinctItems(y.model.tags, TAG_ID);
    OneItemPerId(x.model.tags, TAG_ID);
    FilterDistinct(WantedTag(task, asset), x.model.tags);
    FilterDistinct(WantedTag(task, asset), y.model.tags);
    SameSorted(Filter(WantedTag(task, asset), x.model.tags), Filter(WantedTag(task, asset), y.model.tags), TagBefore(), TAG_ID);
  }

  lemma {:induction false} SameTagsOf(x: Index, y: Index, task: Task, assets: seq<string>)
    requires DistinctIds(x.model.tags, TAG_ID) && DistinctIds(y.model.tags, TAG_ID)
    requires forall t :: t in x.model.tags <==> t in y.model.tags
    ensures TagsOf(x, task, assets) == TagsOf(y, task, assets)
    decreases |assets|
  {
    hide AssetTags;
    if assets != [] {
      SameTagsOf(x, y, task, assets[..|assets| - 1]);
      SameAssetTags(x, y, task, assets[|assets| - 1]);
    }
  }

  lemma SameOverviewAssets(x: Index, y: Index, task: Task)
    requires DistinctIds(x.model.assets, ASSET_ID) && DistinctIds(y.model.assets, ASSET_ID)
    requires forall a :: a in x.model.assets <==> a in y.model.assets
    ensures OverviewAssets(x, task) == OverviewAssets(y, task)
  {
    if task.anchor.None? {
      var a, b := Map(ASSET_ID, x.model.assets), Map(ASSET_ID, y.model.assets);
      MapMembers(ASSET_ID, x.model.assets);
      MapMembers(ASSET_ID, y.model.assets);
      SameSorted(a, b, IdBefore(), s => s);
    }
  }

  lemma SameAlarms(x: Index, y: Index, task: Task)
    requires DistinctIds(x.model.alarms, ALARM_ID) && DistinctIds(y.model.alarms, ALARM_ID) && x.tags == y.tags
    requires forall a :: a in x.model.alarms <==> a in y.model.alarms
    ensures ScopedAlarms(x, task) == ScopedAlarms(y, task)
  {
    hide InScope;
    DistinctItems(x.model.alarms, ALARM_ID);
    DistinctItems(y.model.alarms, ALARM_ID);
    OneItemPerId(x.model.alarms, ALARM_ID);
    FilterDistinct(WantedAlarm(x, task), x.model.alarms);
    FilterDistinct(WantedAlarm(y, task), y.model.alarms);
    SameSorted(Filter(WantedAlarm(x, task), x.model.alarms), Filter(WantedAlarm(y, task), y.model.alarms), AlarmBefore(), ALARM_ID);
  }

  lemma SameOverview(x: Index, y: Index, task: Task)
    requires ValidIndex(x) && ValidIndex(y) && SameModel(x.model, y.model) && x.digest == y.digest
    ensures OverviewView(x, task) == OverviewView(y, task)
  {
    hide ById, AssetFields, TagFields, AlarmFields, RelationshipFields, TagsOf, OverviewAssets, KindFor;
    SameMaps(x, y);
    SameOverviewAssets(x, y, task);
    SameTagsOf(x, y, task, OverviewAssets(x, task));
    var tags := TagsOf(x, task, OverviewAssets(x, task));
    assert Map(TagComponents(x), tags) == Map(TagComponents(y), tags);
    assert Map(TagDependencies(x), tags) == Map(TagDependencies(y), tags);
  }

  lemma SameAlarmsView(x: Index, y: Index, task: Task)
    requires ValidIndex(x) && ValidIndex(y) && SameModel(x.model, y.model) && x.digest == y.digest
    ensures AlarmsView(x, task) == AlarmsView(y, task)
  {
    hide ById, AssetFields, TagFields, AlarmFields, RelationshipFields, ScopedAlarms;
    SameMaps(x, y);
    SameAlarms(x, y, task);
    var alarms := ScopedAlarms(x, task);
    assert Map(AlarmComponents(x), alarms) == Map(AlarmComponents(y), alarms);
    assert Map(AlarmDependencies(x), alarms) == Map(AlarmDependencies(y), alarms);
  }

  /** Views are deterministic: they depend on what a model declares, not on the order in which it lists it. */
  lemma ListingIrrelevant(x: Index, y: Index, task: Task)
    requires ValidIndex(x) && ValidIndex(y) && SameModel(x.model, y.model) && x.digest == y.digest
    ensures Resolved(x, task) == Resolved(y, task)
  {
    hide ValidIndex, OverviewView, AlarmsView, RolesAccepted;
    SameMaps(x, y);
    var effective := task.(modelId := Some(x.model.modelId));
    SameOverview(x, y, effective);
    SameAlarmsView(x, y, effective);
  }
}
