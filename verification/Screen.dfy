/** Composing a view from a task: the overview and the alarm list of a machine model. */
module Screen {
  import opened Model
  import opened Sequences
  import opened Wrappers

  const MAX_PROMPT: nat := 8192
  const MAX_ROLES: nat := 16

  datatype TaskKind = Overview | Alarms | Unsupported(name: string)
  datatype Task = Task(kind: TaskKind, modelId: Option<string>, modelRevision: nat, originalRequest: string,
                       anchor: Option<string>, roles: Option<seq<string>>)

  datatype ComponentKind = Gauge | StatusLamp | ValueField | AlarmRow
  datatype ComponentStatus = Live | Conflicting | Unavailable
  datatype Reason = DeclaredTag | DeclaredAlarm | TagWasRemoved | BindingChanged | AlarmWasRemoved | AlarmChanged
                  | RelationshipWasRemoved | RelationshipChanged | NoLongerDeclared

  /** A component of a view; an empty alarmId or relationshipId is an absent one. */
  datatype Component = Component(id: string, kind: ComponentKind, name: string, assetId: string, tagId: string, alarmId: string,
                                 role: string, unit: string, relationshipId: string, relationshipKind: string,
                                 relationshipFrom: string, relationshipTo: string, fingerprints: seq<string>,
                                 status: ComponentStatus, reason: Reason)

  datatype AlarmPart = AlarmPart(alarmId: string, owner: string, name: string, operator: string, threshold: real,
                                 severity: string, definition: Definition, fingerprint: string)

  /** What a component was bound to when it was resolved: a summary, and the canonical snapshots. */
  datatype Dependency = Dependency(tagId: string, owner: string, role: string, dataType: string, unit: string,
                                   source: Source, binding: Binding, fingerprint: string, alarm: Option<AlarmPart>)

  datatype Issue = RemovedTag(id: string) | RemovedAlarmTag(id: string) | BindingConflict(id: string) | AlarmTagConflict(id: string)
                 | RemovedAlarm(id: string) | AlarmConflict(id: string)
                 | RemovedRelationship(id: string) | RelationshipConflict(id: string)
                 | MissingOverviewTags | NoAlarms | ReplacementNeedsRequest

  datatype Change = TagRemoved(id: string) | TagConflicted(id: string, previous: string, current: string)
                  | AlarmTagConflicted(id: string) | AlarmRemoved(id: string) | AlarmConflicted(id: string)
                  | RelationshipRemoved(id: string) | RelationshipConflicted(id: string)

  datatype ViewStatus = Ready | NeedsReview | Conflict

  datatype View = View(modelId: string, modelRevision: nat, status: ViewStatus, title: string, task: Task,
                       components: seq<Component>, issues: seq<Issue>, dependencies: seq<Dependency>,
                       changes: Option<seq<Change>>, reconciled: bool)

  // Snapshots

  function DependencyFor(t: Tag, d: Digest): Dependency {
    Dependency(t.id, t.assetId, t.role, t.dataType, t.unit, t.source, BindingOf(t), d.binding(BindingOf(t)), None)
  }

  function DependencyForAlarm(a: Alarm, t: Tag, d: Digest): Dependency {
    DependencyFor(t, d).(alarm := Some(AlarmPart(a.id, a.assetId, a.name, a.operator, a.threshold, a.severity,
                                                 DefinitionOf(a), d.definition(DefinitionOf(a)))))
  }

  function KindFor(role: string): ComponentKind {
    var r := Lower(role);
    if r == "level" then Gauge
    else if r == "status" || r == "state" || r == "operating_state" then StatusLamp
    else ValueField
  }

  function AssetName(x: Index, id: string): string {
    if id in x.assets then x.assets[id].name else ""
  }

  function ComponentFor(x: Index, t: Tag): Component {
    Component(t.id, KindFor(t.role), AssetName(x, t.assetId) + " " + t.name, t.assetId, t.id, "", t.role, t.unit,
              "", "", "", "", [x.digest.binding(BindingOf(t))], Live, DeclaredTag)
  }

  function AlarmComponentFor(x: Index, a: Alarm, t: Tag): Component {
    Component(a.id, AlarmRow, a.name, a.assetId, a.tagId, a.id, t.role, t.unit, "", "", "", "",
              [x.digest.binding(BindingOf(t)), x.digest.definition(DefinitionOf(a))], Live, DeclaredAlarm)
  }

  // Scope

  predicate RoleWanted(task: Task, role: string) {
    task.roles.None? || role in task.roles.value
  }

  /** The request a task makes of the model: which owners, and which measurement roles. */
  predicate InScope(task: Task, owner: string, role: string) {
    (task.anchor.None? || owner == task.anchor.value) && RoleWanted(task, role)
  }

  function TagBefore(): (Tag, Tag) -> bool {
    (a: Tag, b: Tag) => LexLe(a.id, b.id)
  }

  function AlarmBefore(): (Alarm, Alarm) -> bool {
    (a: Alarm, b: Alarm) => LexLe(a.id, b.id)
  }

  function IdBefore(): (string, string) -> bool {
    (a: string, b: string) => LexLe(a, b)
  }

  function OverviewAssets(x: Index, task: Task): seq<string> {
    match task.anchor
    case Some(anchor) => [anchor]
    case None => SortBy(Map(ASSET_ID, x.model.assets), IdBefore())
  }

  function WantedTag(task: Task, asset: string): Tag -> bool {
    (t: Tag) => t.assetId == asset && RoleWanted(task, t.role)
  }

  function AssetTags(x: Index, task: Task, asset: string): seq<Tag> {
    SortBy(Filter(WantedTag(task, asset), x.model.tags), TagBefore())
  }

  function TagsOf(x: Index, task: Task, assets: seq<string>): seq<Tag> {
    if assets == [] then []
    else TagsOf(x, task, assets[..|assets| - 1]) + AssetTags(x, task, assets[|assets| - 1])
  }

  function WantedAlarm(x: Index, task: Task): Alarm -> bool {
    (a: Alarm) => a.tagId in x.tags && InScope(task, a.assetId, x.tags[a.tagId].role)
  }

  function ScopedAlarms(x: Index, task: Task): seq<Alarm> {
    SortBy(Filter(WantedAlarm(x, task), x.model.alarms), AlarmBefore())
  }

  function TagOf(x: Index, a: Alarm): Tag {
    if a.tagId in x.tags then x.tags[a.tagId] else Tag("", "", "", "", "", "", Source("", "", ""))
  }

  function TagComponents(x: Index): Tag -> Component {
    (t: Tag) => ComponentFor(x, t)
  }

  function TagDependencies(x: Index): Tag -> Dependency {
    (t: Tag) => DependencyFor(t, x.digest)
  }

  function AlarmComponents(x: Index): Alarm -> Component {
    (a: Alarm) => AlarmComponentFor(x, a, TagOf(x, a))
  }

  function AlarmDependencies(x: Index): Alarm -> Dependency {
    (a: Alarm) => DependencyForAlarm(a, TagOf(x, a), x.digest)
  }

  function OverviewView(x: Index, task: Task): View {
    var tags := TagsOf(x, task, OverviewAssets(x, task));
    View(x.model.modelId, x.model.revision, if tags == [] then NeedsReview else Ready,
         if task.anchor.None? then "Overview" else AssetName(x, task.anchor.value) + " - Overview", task,
         Map(TagComponents(x), tags), if tags == [] then [MissingOverviewTags] else [],
         Map(TagDependencies(x), tags), None, false)
  }

  function AlarmsView(x: Index, task: Task): View {
    var alarms := ScopedAlarms(x, task);
    View(x.model.modelId, x.model.revision, if alarms == [] then NeedsReview else Ready,
         if task.anchor.None? then "Alarms" else AssetName(x, task.anchor.value) + " - Alarms", task,
         Map(AlarmComponents(x), alarms), if alarms == [] then [NoAlarms] else [],
         Map(AlarmDependencies(x), alarms), None, false)
  }

  // Resolving a task

  ghost predicate RolesAccepted(roles: seq<string>) {
    0 < |roles| <= MAX_ROLES && Distinct(roles) && forall i :: 0 <= i < |roles| ==> 0 < |roles[i]| <= MAX_STRING
  }

  ghost predicate TaskAccepted(x: Index, task: Task) {
    && !task.kind.Unsupported?
    && task.modelRevision == x.model.revision
    && (task.modelId.Some? ==> task.modelId.value == x.model.modelId)
    && 0 < |task.originalRequest| <= MAX_PROMPT
    && (task.anchor.Some? ==> task.anchor.value != "" && task.anchor.value in x.assets)
    && (task.roles.Some? ==> RolesAccepted(task.roles.value))
  }

  ghost function Resolved(x: Index, task: Task): Result<View, DomainError> {
    if !TaskAccepted(x, task) then Failure(InvalidTask)
    else
      var effective := task.(modelId := Some(x.model.modelId));
      Success(if task.kind.Overview? then OverviewView(x, effective) else AlarmsView(x, effective))
  }

  method RequestedRoles(requested: seq<string>) returns (ok: bool, roles: set<string>)
    ensures ok <==> RolesAccepted(requested)
    ensures ok ==> forall r :: r in roles <==> r in requested
  {
    hide Distinct, Gathered;
    roles := {};
    GatherNone(requested[..0]);
    if requested == [] || |requested| > MAX_ROLES {
      return false, roles;
    }
    for i := 0 to |requested|
      invariant forall j :: 0 <= j < i ==> 0 < |requested[j]| <= MAX_STRING
      invariant Gathered(requested[..i], roles)
    {
      if requested[i] == "" || |requested[i]| > MAX_STRING {
        return false, roles;
      }
      GatherOne(requested[..i], roles, requested[i]);
      assert requested[..i + 1] == requested[..i] + [requested[i]];
      roles := roles + {requested[i]};
    }
    assert requested[..|requested|] == requested;
    ok := |roles| == |requested|;
    GatheredAll(requested, roles);
  }

  lemma GatherNone(requested: seq<string>)
    requires requested == []
    ensures Gathered(requested, {})
  {
  }

  lemma GatheredAll(requested: seq<string>, roles: set<string>)
    requires Gathered(requested, roles)
    ensures (forall r :: r in roles <==> r in requested) && (|roles| == |requested| <==> Distinct(requested))
  {
    hide Distinct;
  }

  /** The set of the roles so far is as large as their list exactly when none is repeated. */
  ghost predicate Gathered(requested: seq<string>, roles: set<string>) {
    && (forall r :: r in roles <==> r in requested)
    && |roles| <= |requested| && (|roles| == |requested| <==> Distinct(requested))
  }

  lemma GatherOne(requested: seq<string>, roles: set<string>, role: string)
    requires Gathered(requested, roles)
    ensures Gathered(requested + [role], roles + {role})
  {
    DistinctSnocSeq(requested, role);
    if role in requested {
      assert roles + {role} == roles;
    }
  }

  method ResolveOverview(x: Index, task: Task) returns (view: View)
    ensures view == OverviewView(x, task)
  {
    hide ComponentFor, DependencyFor, AssetTags;
    var assets := OverviewAssetIds(x, task);
    var components, dependencies := [], [];
    ghost var done: seq<Tag> := [];
    for i := 0 to |assets|
      invariant done == TagsOf(x, task, assets[..i])
      invariant components == Map(TagComponents(x), done) && dependencies == Map(TagDependencies(x), done)
    {
      var tags := OverviewTags(x, task, assets[i]);
      components, dependencies := PushTags(x, tags, components, dependencies, done);
      done := done + tags;
      assert assets[..i + 1][..i] == assets[..i];
    }
    assert assets[..|assets|] == assets;
    view := View(x.model.modelId, x.model.revision, Ready,
                 if task.anchor.None? then "Overview" else AssetName(x, task.anchor.value) + " - Overview", task,
                 components, [], dependencies, None, false);
    if components == [] {
      view := view.(status := NeedsReview, issues := [MissingOverviewTags]);
    }
  }

  method OverviewAssetIds(x: Index, task: Task) returns (assets: seq<string>)
    ensures assets == OverviewAssets(x, task)
  {
    if task.anchor.Some? {
      return [task.anchor.value];
    }
    assets := [];
    for i := 0 to |x.model.assets|
      invariant assets == Map(ASSET_ID, x.model.assets[..i])
    {
      MapSnoc(ASSET_ID, x.model.assets[..i], x.model.assets[i]);
      assert x.model.assets[..i + 1] == x.model.assets[..i] + [x.model.assets[i]];
      assets := assets + [x.model.assets[i].id];
    }
    assert x.model.assets[..|x.model.assets|] == x.model.assets;
    assets := SortBy(assets, IdBefore());
  }

  method PushTags(x: Index, tags: seq<Tag>, components: seq<Component>, dependencies: seq<Dependency>, ghost before: seq<Tag>)
    returns (moreComponents: seq<Component>, moreDependencies: seq<Dependency>)
    requires components == Map(TagComponents(x), before) && dependencies == Map(TagDependencies(x), before)
    ensures moreComponents == Map(TagComponents(x), before + tags)
    ensures moreDependencies == Map(TagDependencies(x), before + tags)
  {
    hide ComponentFor, DependencyFor;
    moreComponents, moreDependencies := components, dependencies;
    assert before + tags[..0] == before;
    for k := 0 to |tags|
      invariant moreComponents == Map(TagComponents(x), before + tags[..k])
      invariant moreDependencies == Map(TagDependencies(x), before + tags[..k])
    {
      MapSnoc(TagComponents(x), before + tags[..k], tags[k]);
      MapSnoc(TagDependencies(x), before + tags[..k], tags[k]);
      assert before + tags[..k] + [tags[k]] == before + tags[..k + 1];
      moreComponents := moreComponents + [ComponentFor(x, tags[k])];
      moreDependencies := moreDependencies + [DependencyFor(tags[k], x.digest)];
    }
    assert tags[..|tags|] == tags;
  }

  method OverviewTags(x: Index, task: Task, asset: string) returns (tags: seq<Tag>)
    ensures tags == AssetTags(x, task, asset)
  {
    tags := [];
    for i := 0 to |x.model.tags|
      invariant tags == Filter(WantedTag(task, asset), x.model.tags[..i])
    {
      var tag := x.model.tags[i];
      FilterSnoc(WantedTag(task, asset), x.model.tags[..i], tag);
      assert x.model.tags[..i + 1] == x.model.tags[..i] + [tag];
      if tag.assetId == asset && RoleWanted(task, tag.role) {
        tags := tags + [tag];
      }
    }
    assert x.model.tags[..|x.model.tags|] == x.model.tags;
    tags := SortBy(tags, TagBefore());
  }

  method AlarmsInScope(x: Index, task: Task) returns (alarms: seq<Alarm>)
    ensures alarms == ScopedAlarms(x, task)
  {
    hide Filter, InScope, SortBy;
    alarms := [];
    FilterNothing(WantedAlarm(x, task), x.model.alarms[..0]);
    for i := 0 to |x.model.alarms|
      invariant alarms == Filter(WantedAlarm(x, task), x.model.alarms[..i])
    {
      var alarm := x.model.alarms[i];
      FilterNext(WantedAlarm(x, task), x.model.alarms, i);
      if alarm.tagId in x.tags && InScope(task, alarm.assetId, x.tags[alarm.tagId].role) {
        alarms := alarms + [alarm];
      }
    }
    AllTaken(x.model.alarms);
    alarms := SortBy(alarms, AlarmBefore());
  }

  method ResolveAlarms(x: Index, task: Task) returns (view: View)
    ensures view == AlarmsView(x, task)
  {
    hide AlarmComponentFor, DependencyForAlarm, TagOf, ScopedAlarms;
    var alarms := AlarmsInScope(x, task);
    var components, dependencies := [], [];
    for i := 0 to |alarms|
      invariant components == Map(AlarmComponents(x), alarms[..i])
      invariant dependencies == Map(AlarmDependencies(x), alarms[..i])
    {
      MapSnoc(AlarmComponents(x), alarms[..i], alarms[i]);
      MapSnoc(AlarmDependencies(x), alarms[..i], alarms[i]);
      assert alarms[..i + 1] == alarms[..i] + [alarms[i]];
      var tag := TagOf(x, alarms[i]);
      components := components + [AlarmComponentFor(x, alarms[i], tag)];
      dependencies := dependencies + [DependencyForAlarm(alarms[i], tag, x.digest)];
    }
    assert alarms[..|alarms|] == alarms;
    view := View(x.model.modelId, x.model.revision, Ready,
                 if task.anchor.None? then "Alarms" else AssetName(x, task.anchor.value) + " - Alarms", task,
                 components, [], dependencies, None, false);
    if components == [] {
      view := view.(status := NeedsReview, issues := [NoAlarms]);
    }
  }

  method ResolveTask(x: Index, task: Task) returns (r: Result<View, DomainError>)
    ensures r == Resolved(x, task)
  {
    hide OverviewView, AlarmsView;
    if task.kind.Unsupported? || task.modelRevision != x.model.revision
       || (task.modelId.Some? && task.modelId.value != x.model.modelId)
       || task.originalRequest == "" || |task.originalRequest| > MAX_PROMPT {
      return Failure(InvalidTask);
    }
    if task.anchor.Some? && (task.anchor.value == "" || task.anchor.value !in x.assets) {
      return Failure(InvalidTask);
    }
    if task.roles.Some? {
      var ok, roles := RequestedRoles(task.roles.value);
      if !ok {
        return Failure(InvalidTask);
      }
    }
    var effective := task;
    if effective.modelId.None? {
      effective := effective.(modelId := Some(x.model.modelId));
    }
    var view: View;
    if task.kind.Overview? {
      view := ResolveOverview(x, effective);
    } else {
      view := ResolveAlarms(x, effective);
    }
    r := Success(view);
  }

  // What a resolved view is bound to

  lemma AssetTagsMembers(x: Index, task: Task, asset: string)
    requires Distinct(x.model.tags)
    ensures Distinct(AssetTags(x, task, asset))
    ensures forall t :: t in AssetTags(x, task, asset) <==>
      t in x.model.tags && t.assetId == asset && RoleWanted(task, t.role)
  {
    var picked := Filter(WantedTag(task, asset), x.model.tags);
    FilterDistinct(WantedTag(task, asset), x.model.tags);
    DistinctPermutation(picked, AssetTags(x, task, asset));
    SameMembers(picked, AssetTags(x, task, asset));
  }

  lemma {:induction false} TagsOfMembers(x: Index, task: Task, assets: seq<string>)
    requires Distinct(x.model.tags) && Distinct(assets)
    ensures Distinct(TagsOf(x, task, assets))
    ensures forall t :: t in TagsOf(x, task, assets) <==>
      t in x.model.tags && t.assetId in assets && RoleWanted(task, t.role)
    decreases |assets|
  {
    hide AssetTags, RoleWanted;
    if assets != [] {
      var last := |assets| - 1;
      var front := assets[..last];
      TagsOfMembers(x, task, front);
      AssetTagsMembers(x, task, assets[last]);
      assert assets[last] !in front;
      assert forall a :: a in assets <==> a in front || a == assets[last];
      assert forall t :: t in TagsOf(x, task, assets) <==> t in TagsOf(x, task, front) || t in AssetTags(x, task, assets[last]);
      DistinctConcat(TagsOf(x, task, front), AssetTags(x, task, assets[last]));
    }
  }

  /** The overview is bound to exactly the tags in scope, each once. */
  lemma OverviewMembers(x: Index, task: Task)
    requires ValidIndex(x)
    ensures var tags := TagsOf(x, task, OverviewAssets(x, task));
      && Distinct(tags)
      && forall t :: t in tags <==> t in x.model.tags && InScope(task, t.assetId, t.role)
  {
    hide ById, TagsOf, DistinctIds, TagFields, AlarmFields, AssetFields, RelationshipFields;
    TagFacts(x);
    AssetFacts(x);
    DistinctItems(x.model.tags, TAG_ID);
    var ids := Map(ASSET_ID, x.model.assets);
    DistinctAssetIds(x);
    var assets := OverviewAssets(x, task);
    if task.anchor.None? {
      DistinctPermutation(ids, assets);
      SameMembers(ids, assets);
      forall t | t in x.model.tags ensures t.assetId in assets {
        var i :| 0 <= i < |x.model.assets| && x.model.assets[i] == x.assets[t.assetId];
        assert ids[i] == t.assetId;
      }
    }
    TagsOfMembers(x, task, assets);
  }

  lemma DistinctAssetIds(x: Index)
    requires ValidIndex(x)
    ensures Distinct(Map(ASSET_ID, x.model.assets))
  {
  }

  /** The alarm view is bound to exactly the alarms in scope, each once. */
  lemma AlarmMembers(x: Index, task: Task)
    requires ValidIndex(x)
    ensures var alarms := ScopedAlarms(x, task);
      && Distinct(alarms)
      && forall a :: a in alarms <==> a in x.model.alarms && InScope(task, a.assetId, TagOf(x, a).role)
  {
    hide ById, DistinctIds, TagFields, AlarmFields, AssetFields, RelationshipFields;
    AlarmFacts(x);
    DistinctItems(x.model.alarms, ALARM_ID);
    var picked := Filter(WantedAlarm(x, task), x.model.alarms);
    FilterDistinct(WantedAlarm(x, task), x.model.alarms);
    DistinctPermutation(picked, ScopedAlarms(x, task));
    SameMembers(picked, ScopedAlarms(x, task));
  }
}
