/** Reconciling a saved view with another revision of its model: nothing is rebound in silence. */
module Reconciliation {
  import opened Model
  import opened Screen
  import opened Sequences
  import opened Wrappers

  const MAX_COMPONENTS: nat := 4096

  datatype Key = TagKey(id: string) | AlarmKey(id: string)

  function KeyOf(d: Dependency): Key {
    if d.alarm.Some? && d.alarm.value.alarmId != "" then AlarmKey(d.alarm.value.alarmId) else TagKey(d.tagId)
  }

  /** The old dependencies by tag, and by alarm; a later one replaces an earlier one. */
  function TagDependenciesOf(deps: seq<Dependency>): (m: map<string, Dependency>)
    ensures forall t :: t in m ==> m[t] in deps && m[t].alarm.None? && m[t].tagId == t
  {
    if deps == [] then map[]
    else
      var last := deps[|deps| - 1];
      var m := TagDependenciesOf(deps[..|deps| - 1]);
      if last.alarm.None? then m[last.tagId := last] else m
  }

  function AlarmDependenciesOf(deps: seq<Dependency>): (m: map<string, Dependency>)
    ensures forall a :: a in m ==> m[a] in deps && m[a].alarm.Some? && m[a].alarm.value.alarmId == a
  {
    if deps == [] then map[]
    else
      var last := deps[|deps| - 1];
      var m := AlarmDependenciesOf(deps[..|deps| - 1]);
      if last.alarm.Some? then m[last.alarm.value.alarmId := last] else m
  }

  // Differences

  /** A dependency whose own fields disagree with the binding it recorded. */
  predicate SummaryAltered(d: Dependency) {
    d.owner != d.binding.owner || d.role != d.binding.role || d.unit != d.binding.unit || d.source != d.binding.source
  }

  predicate TagDiffers(d: Dependency, t: Tag) {
    d.binding != BindingOf(t) || SummaryAltered(d)
  }

  predicate PartAltered(p: AlarmPart) {
    p.owner != p.definition.owner || p.name != p.definition.name || p.operator != p.definition.operator
    || p.threshold != p.definition.threshold || p.severity != p.definition.severity
  }

  predicate AlarmDiffers(p: AlarmPart, a: Alarm) {
    p.definition != DefinitionOf(a) || PartAltered(p)
  }

  datatype Notes = Notes(changes: seq<Change>, issues: seq<Issue>)

  function Both(a: Notes, b: Notes): Notes {
    Notes(a.changes + b.changes, a.issues + b.issues)
  }

  const NOTHING: Notes := Notes([], [])

  datatype TagFate = TagKept | TagGone | TagChanged

  function FateOfTag(x: Index, d: Dependency): TagFate {
    if d.tagId !in x.tags then TagGone else if TagDiffers(d, x.tags[d.tagId]) then TagChanged else TagKept
  }

  function TagNotes(x: Index, d: Dependency): Notes {
    match FateOfTag(x, d)
    case TagKept => NOTHING
    case TagGone => Notes([TagRemoved(d.tagId)], [RemovedTag(d.tagId)])
    case TagChanged => Notes([TagConflicted(d.tagId, d.fingerprint, x.digest.binding(BindingOf(x.tags[d.tagId])))],
                             [BindingConflict(d.tagId)])
  }

  /** What became of a bound alarm: gone (with its old tag or without), or still there, with a verdict on the tag it
      now names and one on its own definition. */
  predicate AlarmGone(x: Index, d: Dependency) {
    d.alarm.Some? && d.alarm.value.alarmId !in x.alarms
  }

  function CurrentTagId(x: Index, d: Dependency): string {
    if d.alarm.Some? && d.alarm.value.alarmId in x.alarms then x.alarms[d.alarm.value.alarmId].tagId else d.tagId
  }

  predicate AlarmTagGone(x: Index, d: Dependency) {
    d.alarm.Some? && CurrentTagId(x, d) !in x.tags
  }

  predicate AlarmTagChanged(x: Index, d: Dependency) {
    d.alarm.Some? && d.alarm.value.alarmId in x.alarms && CurrentTagId(x, d) in x.tags
    && d.binding != BindingOf(x.tags[CurrentTagId(x, d)])
  }

  predicate AlarmRedefined(x: Index, d: Dependency) {
    d.alarm.Some? && d.alarm.value.alarmId in x.alarms && AlarmDiffers(d.alarm.value, x.alarms[d.alarm.value.alarmId])
  }

  function AlarmNotes(x: Index, d: Dependency): Notes
    requires d.alarm.Some?
  {
    var id := d.alarm.value.alarmId;
    if AlarmGone(x, d) then Notes([AlarmRemoved(id)], [RemovedAlarm(id)])
    else Both(if AlarmTagGone(x, d) then Notes([], [RemovedAlarmTag(CurrentTagId(x, d))])
              else if AlarmTagChanged(x, d)
              then Notes([AlarmTagConflicted(CurrentTagId(x, d))], [AlarmTagConflict(CurrentTagId(x, d))])
              else NOTHING,
              if AlarmRedefined(x, d) then Notes([AlarmConflicted(id)], [AlarmConflict(id)]) else NOTHING)
  }

  predicate RelationshipGone(x: Index, c: Component) {
    c.relationshipId != "" && c.relationshipId !in x.relationships
  }

  predicate RelationshipDiffers(x: Index, c: Component) {
    c.relationshipId != "" && c.relationshipId in x.relationships
    && (var r := x.relationships[c.relationshipId];
        c.relationshipKind != r.kind || c.relationshipFrom != r.from || c.relationshipTo != r.to)
  }

  function RelationshipNotes(x: Index, c: Component): Notes {
    if RelationshipGone(x, c) then Notes([RelationshipRemoved(c.relationshipId)], [RemovedRelationship(c.relationshipId)])
    else if RelationshipDiffers(x, c)
    then Notes([RelationshipConflicted(c.relationshipId)], [RelationshipConflict(c.relationshipId)])
    else NOTHING
  }

  /** The six sets that the detection loops fill. */
  datatype Differences = Differences(conflictedTags: set<string>, removedTags: set<string>, conflictedAlarms: set<string>,
                                     removedAlarms: set<string>, removedRelationships: set<string>,
                                     changedRelationships: set<string>)

  function ChangedTags(x: Index, deps: map<string, Dependency>, among: set<string>): set<string> {
    set t | t in among && t in deps && FateOfTag(x, deps[t]) == TagChanged
  }

  function GoneTags(x: Index, deps: map<string, Dependency>, among: set<string>): set<string> {
    set t | t in among && t in deps && FateOfTag(x, deps[t]) == TagGone
  }

  function AlarmChangedTags(x: Index, deps: map<string, Dependency>, among: set<string>): set<string> {
    set a | a in among && a in deps && AlarmTagChanged(x, deps[a]) :: CurrentTagId(x, deps[a])
  }

  function AlarmGoneTags(x: Index, deps: map<string, Dependency>, among: set<string>): set<string> {
    set a | a in among && a in deps && AlarmTagGone(x, deps[a]) :: CurrentTagId(x, deps[a])
  }

  function ChangedAlarms(x: Index, deps: map<string, Dependency>, among: set<string>): set<string> {
    set a | a in among && a in deps && AlarmRedefined(x, deps[a])
  }

  function GoneAlarms(x: Index, deps: map<string, Dependency>, among: set<string>): set<string> {
    set a | a in among && a in deps && AlarmGone(x, deps[a])
  }

  function GoneRelationships(x: Index, components: seq<Component>): set<string> {
    set c | c in components && RelationshipGone(x, c) :: c.relationshipId
  }

  function ChangedRelationships(x: Index, components: seq<Component>): set<string> {
    set c | c in components && RelationshipDiffers(x, c) :: c.relationshipId
  }

  function DifferencesOf(x: Index, v: View): Differences {
    var tags, alarms := TagDependenciesOf(v.dependencies), AlarmDependenciesOf(v.dependencies);
    Differences(ChangedTags(x, tags, tags.Keys) + AlarmChangedTags(x, alarms, alarms.Keys),
                GoneTags(x, tags, tags.Keys) + AlarmGoneTags(x, alarms, alarms.Keys),
                ChangedAlarms(x, alarms, alarms.Keys), GoneAlarms(x, alarms, alarms.Keys),
                GoneRelationships(x, v.components), ChangedRelationships(x, v.components))
  }

  function TagNotesIn(x: Index, deps: map<string, Dependency>, order: seq<string>): Notes
    requires forall t :: t in order ==> t in deps
  {
    if order == [] then NOTHING
    else Both(TagNotesIn(x, deps, order[..|order| - 1]), TagNotes(x, deps[order[|order| - 1]]))
  }

  function AlarmNotesIn(x: Index, deps: map<string, Dependency>, order: seq<string>): Notes
    requires forall a :: a in order ==> a in deps && deps[a].alarm.Some?
  {
    if order == [] then NOTHING
    else Both(AlarmNotesIn(x, deps, order[..|order| - 1]), AlarmNotes(x, deps[order[|order| - 1]]))
  }

  function RelationshipNotesIn(x: Index, components: seq<Component>): Notes {
    if components == [] then NOTHING
    else Both(RelationshipNotesIn(x, components[..|components| - 1]), RelationshipNotes(x, components[|components| - 1]))
  }

  // Merging components

  predicate PriorBlocked(c: Component) {
    c.status == Conflicting || c.status == Unavailable
  }

  datatype Mark = Mark(status: ComponentStatus, reason: Reason)

  /** The mark a component is preserved with: relationships speak last, then alarms, then tags, and each time a
      conflict after a removal. */
  function MarkFor(c: Component, d: Differences): Mark {
    if c.relationshipId != "" && c.relationshipId in d.changedRelationships then Mark(Conflicting, RelationshipChanged)
    else if c.relationshipId != "" && c.relationshipId in d.removedRelationships then Mark(Unavailable, RelationshipWasRemoved)
    else if c.alarmId != "" && c.alarmId in d.conflictedAlarms then Mark(Conflicting, Reason.AlarmChanged)
    else if c.alarmId != "" && c.alarmId in d.removedAlarms then Mark(Unavailable, AlarmWasRemoved)
    else if c.tagId != "" && c.tagId in d.conflictedTags then Mark(Conflicting, BindingChanged)
    else if c.tagId != "" && c.tagId in d.removedTags then Mark(Unavailable, TagWasRemoved)
    else Mark(c.status, c.reason)
  }

  function Marked(c: Component, m: Mark): Component {
    c.(status := m.status, reason := m.reason)
  }

  predicate Blocked(c: Component, d: Differences) {
    PriorBlocked(c) || c.tagId in d.conflictedTags || c.tagId in d.removedTags
    || c.alarmId in d.conflictedAlarms || c.alarmId in d.removedAlarms
    || c.relationshipId in d.removedRelationships || c.relationshipId in d.changedRelationships
  }

  function FindComponent(components: seq<Component>, id: string): (r: Option<Component>)
    ensures r.Some? ==> r.value in components && r.value.id == id
    ensures r.None? ==> forall c :: c in components ==> c.id != id
    decreases |components|
  {
    if components == [] then None
    else if components[0].id == id then Some(components[0])
    else
      assert components == [components[0]] + components[1..];
      FindComponent(components[1..], id)
  }

  function MergeComponent(c: Component, d: Differences, latest: seq<Component>): Component {
    if Blocked(c, d) then Marked(c, MarkFor(c, d))
    else match FindComponent(latest, c.id)
      case Some(current) => current
      case None => Marked(c, Mark(Unavailable, NoLongerDeclared))
  }

  function ComponentMerger(d: Differences, latest: seq<Component>): Component -> Component {
    (c: Component) => MergeComponent(c, d, latest)
  }

  function ComponentIds(): Component -> string {
    (c: Component) => c.id
  }

  function NewComponent(prior: seq<Component>): Component -> bool {
    (c: Component) => c.id !in Map(ComponentIds(), prior)
  }

  function MergedComponents(prior: seq<Component>, d: Differences, latest: seq<Component>): seq<Component> {
    Map(ComponentMerger(d, latest), prior) + Filter(NewComponent(prior), latest)
  }

  // Merging dependencies

  predicate DependencyBlocked(dep: Dependency, d: Differences) {
    dep.tagId in d.removedTags || dep.tagId in d.conflictedTags
    || (dep.alarm.Some? && dep.alarm.value.alarmId != ""
        && (dep.alarm.value.alarmId in d.removedAlarms || dep.alarm.value.alarmId in d.conflictedAlarms))
  }

  function FindDependency(deps: seq<Dependency>, key: Key): (r: Option<Dependency>)
    ensures r.Some? ==> r.value in deps && KeyOf(r.value) == key
    ensures r.None? ==> forall dep :: dep in deps ==> KeyOf(dep) != key
    decreases |deps|
  {
    if deps == [] then None
    else if KeyOf(deps[0]) == key then Some(deps[0])
    else
      assert deps == [deps[0]] + deps[1..];
      FindDependency(deps[1..], key)
  }

  function MergeDependency(dep: Dependency, d: Differences, latest: seq<Dependency>): Dependency {
    if DependencyBlocked(dep, d) then dep
    else match FindDependency(latest, KeyOf(dep))
      case Some(current) => current
      case None => dep
  }

  function DependencyMerger(d: Differences, latest: seq<Dependency>): Dependency -> Dependency {
    (dep: Dependency) => MergeDependency(dep, d, latest)
  }

  function DependencyKeys(): Dependency -> Key {
    (dep: Dependency) => KeyOf(dep)
  }

  function NewDependency(prior: seq<Dependency>): Dependency -> bool {
    (dep: Dependency) => KeyOf(dep) !in Map(DependencyKeys(), prior)
  }

  function MergedDependencies(prior: seq<Dependency>, d: Differences, latest: seq<Dependency>): seq<Dependency> {
    Map(DependencyMerger(d, latest), prior) + Filter(NewDependency(prior), latest)
  }

  // The verdict

  predicate ConflictChange(c: Change) {
    c.TagConflicted? || c.AlarmTagConflicted? || c.AlarmConflicted? || c.RelationshipConflicted?
  }

  function ChangesOf(v: View): seq<Change> {
    match v.changes case None => [] case Some(changes) => changes
  }

  predicate PriorConflict(v: View) {
    v.status == Conflict || (exists c :: c in ChangesOf(v) && ConflictChange(c))
    || (exists c :: c in v.components && c.status == Conflicting)
  }

  function Verdict(v: View, d: Differences, issues: seq<Issue>): ViewStatus {
    if d.conflictedTags != {} || d.conflictedAlarms != {} || d.changedRelationships != {} || PriorConflict(v) then Conflict
    else if d.removedTags != {} || d.removedAlarms != {} || d.removedRelationships != {} || issues != []
            || v.status == NeedsReview then NeedsReview
    else Ready
  }

  ghost predicate Enumerates(order: seq<string>, keys: set<string>) {
    Distinct(order) && forall k :: k in order <==> k in keys
  }

  function NewTask(x: Index, task: Task): Task {
    task.(modelId := Some(x.model.modelId), modelRevision := x.model.revision)
  }

  predicate Oversized(v: View) {
    |v.components| > MAX_COMPONENTS || |v.dependencies| > MAX_COMPONENTS || |v.issues| > MAX_COMPONENTS
    || |ChangesOf(v)| > MAX_COMPONENTS
  }

  predicate OtherModel(x: Index, v: View) {
    v.modelId != x.model.modelId || (v.task.modelId.Some? && v.task.modelId.value != x.model.modelId)
  }

  ghost function AllNotes(x: Index, v: View, tagOrder: seq<string>, alarmOrder: seq<string>): Notes
    requires Enumerates(tagOrder, TagDependenciesOf(v.dependencies).Keys)
    requires Enumerates(alarmOrder, AlarmDependenciesOf(v.dependencies).Keys)
  {
    Both(Both(TagNotesIn(x, TagDependenciesOf(v.dependencies), tagOrder),
              AlarmNotesIn(x, AlarmDependenciesOf(v.dependencies), alarmOrder)),
         RelationshipNotesIn(x, v.components))
  }

  ghost function Merged(x: Index, v: View, latest: View, notes: Notes): View {
    var d := DifferencesOf(x, v);
    var issues := AddAll(AddAll(v.issues, notes.issues), latest.issues);
    latest.(task := NewTask(x, v.task), components := MergedComponents(v.components, d, latest.components),
           dependencies := MergedDependencies(v.dependencies, d, latest.dependencies), issues := issues,
           changes := Some(AddAll(ChangesOf(v), notes.changes)), status := Verdict(v, d, issues), reconciled := true)
  }

  /** The reconciled view. The hash maps of old dependencies are walked in an order the language leaves open, so it
      is a parameter here; it can only matter to the order of new changes and issues. */
  ghost function Reconciled(x: Index, v: View, tagOrder: seq<string>, alarmOrder: seq<string>): Result<View, DomainError>
    requires Enumerates(tagOrder, TagDependenciesOf(v.dependencies).Keys)
    requires Enumerates(alarmOrder, AlarmDependenciesOf(v.dependencies).Keys)
  {
    if Oversized(v) then Failure(InvalidView)
    else if OtherModel(x, v) then Failure(ModelMismatch)
    else match Resolved(x, NewTask(x, v.task))
      case Failure(e) => Failure(e)
      case Success(latest) =>
        var result := Merged(x, v, latest, AllNotes(x, v, tagOrder, alarmOrder));
        if |result.components| > MAX_COMPONENTS then Failure(InvalidView) else Success(result)
  }
}
