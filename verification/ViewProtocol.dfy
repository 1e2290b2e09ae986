/** Saved views under concurrency: threads take snapshots, compute without the locks, and commit if nothing changed. */
module ViewProtocol {
  import opened Model
  import opened Reconciliation
  import opened ReconciliationChains
  import opened ReconciliationProperties
  import opened Screen
  import opened Sequences
  import opened ViewTable
  import opened WellFormedViews
  import opened Wrappers

  /** Where a thread stands, with what it has computed so far. */
  datatype Thread =
    | Idle
    | Resolving(task: Task, view: View, generation: nat)
    | Publishing(task: Task, view: View, generation: nat, id: ViewId)
    | Journaling(id: ViewId)
    | Trusting(id: ViewId, canonical: Stored)
    | Revising(id: ViewId, canonical: Stored, tagOrder: seq<string>, alarmOrder: seq<string>, revised: View, generation: nat)

  datatype System = System(table: Table, counter: nat, threads: seq<Thread>)

  // The steps: each is one critical section, or one atomic operation, or a computation on private data

  datatype Step =
    | Resolve(t: nat, task: Task)
    | Reserve(t: nat)
    | CommitPublish(t: nat)
    | Journaled(t: nat)
    | JournalFails(t: nat)
    | Trust(t: nat, id: ViewId)
    | Revise(t: nat, tagOrder: seq<string>, alarmOrder: seq<string>)
    | CommitRevised(t: nat)
    | ChangeModel(x: Index)

  ghost predicate Taken(s: System, s': System, step: Step) {
    match step
    case Resolve(t, task) =>
      && t < |s.threads| && s.threads[t].Idle? && Resolved(s.table.index, task).Success?
      && s' == s.(threads := s.threads[t := Resolving(task, Resolved(s.table.index, task).value, s.table.generation)])
    case Reserve(t) =>
      && t < |s.threads| && s.threads[t].Resolving?
      && (var th := s.threads[t];
          s' == s.(counter := s.counter + 1,
                   threads := s.threads[t := Publishing(th.task, th.view, th.generation, Published(s.counter + 1))]))
    case CommitPublish(t) =>
      && t < |s.threads| && s.threads[t].Publishing?
      && (var th := s.threads[t];
          s' == if th.generation == s.table.generation
                then s.(table := Inserted(s.table, th.id, th.view), threads := s.threads[t := Journaling(th.id)])
                else s.(threads := s.threads[t := Idle]))
    case Journaled(t) =>
      t < |s.threads| && s.threads[t].Journaling? && s' == s.(threads := s.threads[t := Idle])
    case JournalFails(t) =>
      && t < |s.threads| && s.threads[t].Journaling?
      && s' == s.(table := Erased(s.table, s.threads[t].id), threads := s.threads[t := Idle])
    case Trust(t, id) =>
      && t < |s.threads| && s.threads[t].Idle? && id in s.table.views
      && s' == s.(threads := s.threads[t := Trusting(id, s.table.views[id])])
    case Revise(t, tagOrder, alarmOrder) =>
      && t < |s.threads| && s.threads[t].Trusting? && Orders(s.threads[t].canonical.view, tagOrder, alarmOrder)
      && (var th := s.threads[t];
          match Reconciled(s.table.index, th.canonical.view, tagOrder, alarmOrder)
          case Failure(_) => s' == s.(threads := s.threads[t := Idle])
          case Success(v) => s' == s.(threads := s.threads[t := Revising(th.id, th.canonical, tagOrder, alarmOrder, v, s.table.generation)]))
    case CommitRevised(t) =>
      && t < |s.threads| && s.threads[t].Revising?
      && (var th := s.threads[t];
          s' == if th.generation == s.table.generation && th.id in s.table.views && s.table.views[th.id] == th.canonical
                then s.(table := s.table.(views := s.table.views[th.id := Stored(th.revised, th.generation)]),
                        threads := s.threads[t := Idle])
                else s.(threads := s.threads[t := Idle]))
    case ChangeModel(x) =>
      ValidIndex(x) && Changes(x, s.table, s'.table) && s' == s.(table := s'.table)
  }

  // What every step keeps

  /** The order lists the keys, each once, and the table is not over its capacity. */
  ghost predicate Bounded(t: Table) {
    && Distinct(t.order) && (forall id :: id in t.order <==> id in t.views)
    && 0 < t.capacity && |t.views| <= t.capacity
  }

  ghost predicate TableSafe(t: Table) {
    && ValidIndex(t.index) && Bounded(t)
    && (forall id :: id in t.views ==> t.views[id].generation == t.generation)
    && forall id :: id in t.views ==> WellFormed(t.views[id].view)
  }

  /** What a thread has in hand: computed for some generation up to the present one, and if for the present one, then
      exactly what the operation would compute now. */
  ghost predicate ThreadSafe(s: System, th: Thread) {
    match th
    case Idle => true
    case Resolving(task, view, generation) =>
      generation <= s.table.generation && (generation == s.table.generation ==> Resolved(s.table.index, task) == Success(view))
    case Publishing(task, view, generation, id) =>
      && generation <= s.table.generation && (generation == s.table.generation ==> Resolved(s.table.index, task) == Success(view))
      && id.Published? && id.number <= s.counter && id !in s.table.views
    case Journaling(id) => id.Published? && id.number <= s.counter
    case Trusting(id, canonical) => WellFormed(canonical.view) && canonical.generation <= s.table.generation
    case Revising(id, canonical, tagOrder, alarmOrder, revised, generation) =>
      && WellFormed(canonical.view) && generation <= s.table.generation
      && Orders(canonical.view, tagOrder, alarmOrder)
      && (generation == s.table.generation ==> Reconciled(s.table.index, canonical.view, tagOrder, alarmOrder) == Success(revised))
  }

  ghost predicate Holds(th: Thread, id: ViewId) {
    (th.Publishing? || th.Journaling?) && th.id == id
  }

  ghost predicate Safe(s: System) {
    && TableSafe(s.table)
    && (forall id :: id in s.table.views && id.Published? ==> id.number <= s.counter)
    && (forall t :: 0 <= t < |s.threads| ==> ThreadSafe(s, s.threads[t]))
    && forall t, u, id :: 0 <= t < u < |s.threads| && Holds(s.threads[t], id) ==> !Holds(s.threads[u], id)
  }

  // The table operations are safe

  lemma KeysBounded(t: Table)
    requires Distinct(t.order) && (forall id :: id in t.order <==> id in t.views)
    ensures |t.order| == |t.views|
  {
    DistinctSize(t.order, t.views.Keys);
  }

  lemma EvictedBounded(t: Table)
    requires Bounded(t)
    ensures Bounded(Evicted(t)) && |Evicted(t).views| < t.capacity
    ensures forall k :: k in Evicted(t).views ==> k in t.views && Evicted(t).views[k] == t.views[k]
  {
    hide Distinct;
    KeysBounded(t);
    if |t.views| >= t.capacity {
      TailMembers(t.order);
      assert t.order[0] in t.order;
      assert Evicted(t).views.Keys == t.views.Keys - {t.order[0]};
      assert |Evicted(t).views.Keys| == |Evicted(t).views| && |t.views.Keys| == |t.views|;
    }
  }

  lemma InsertedBounded(t: Table, id: ViewId, view: View)
    requires Bounded(t) && id !in t.views
    ensures Bounded(Inserted(t, id, view))
  {
    hide Distinct, Evicted;
    EvictedBounded(t);
    var e, r := Evicted(t), Inserted(t, id, view);
    DistinctSnocSeq(e.order, id);
    assert r.views.Keys == e.views.Keys + {id};
    assert |r.views| == |r.views.Keys| && |e.views| == |e.views.Keys|;
    assert r.capacity == e.capacity == t.capacity by { EvictedFrame(t); }
  }

  lemma EvictedFrame(t: Table)
    ensures Evicted(t).capacity == t.capacity && Evicted(t).index == t.index && Evicted(t).generation == t.generation
  {
  }

  lemma InsertedSafe(t: Table, id: ViewId, view: View)
    requires TableSafe(t) && id !in t.views && WellFormed(view)
    ensures TableSafe(Inserted(t, id, view))
    ensures forall k :: k in Inserted(t, id, view).views ==> k in t.views || k == id
    ensures forall k :: k in Inserted(t, id, view).views && k != id ==> Inserted(t, id, view).views[k] == t.views[k]
  {
    hide WellFormed, ValidIndex, Bounded, Evicted;
    EvictedBounded(t);
    EvictedFrame(t);
    InsertedBounded(t, id, view);
  }

  lemma ErasedBounded(t: Table, id: ViewId)
    requires Bounded(t)
    ensures Bounded(Erased(t, id))
  {
    hide Distinct;
    RemoveFirstMembers(t.order, id);
    assert Erased(t, id).views.Keys <= t.views.Keys;
    SubsetSize(Erased(t, id).views.Keys, t.views.Keys);
    assert |Erased(t, id).views.Keys| == |Erased(t, id).views| && |t.views.Keys| == |t.views|;
  }

  lemma ErasedSafe(t: Table, id: ViewId)
    requires TableSafe(t)
    ensures TableSafe(Erased(t, id))
    ensures forall k :: k in Erased(t, id).views ==> k in t.views && Erased(t, id).views[k] == t.views[k]
  {
    hide WellFormed, ValidIndex, Bounded;
    ErasedBounded(t, id);
  }

  lemma FlaggedWellFormed(v: View)
    requires WellFormed(v)
    ensures WellFormed(Flagged(v))
  {
  }

  lemma RevisesWellFormed(x: Index, generation: nat, before: Stored, after: Stored)
    requires ValidIndex(x) && WellFormed(before.view) && Revises(x, generation, before, after)
    ensures WellFormed(after.view) && after.generation == generation
  {
    hide WellFormed, ValidIndex, Reconciled;
    var tagOrder, alarmOrder :| Orders(before.view, tagOrder, alarmOrder) && after ==
      match Reconciled(x, before.view, tagOrder, alarmOrder)
      case Success(v) => Stored(v, generation)
      case Failure(_) => Stored(Flagged(before.view), generation);
    FlaggedWellFormed(before.view);
    if Reconciled(x, before.view, tagOrder, alarmOrder).Success? { StepWellFormed(x, before.view, tagOrder, alarmOrder); }
  }

  lemma ChangesSafe(x: Index, before: Table, after: Table)
    requires TableSafe(before) && ValidIndex(x) && Changes(x, before, after)
    ensures TableSafe(after)
  {
    hide WellFormed, ValidIndex, Revises;
    assert |after.views.Keys| == |after.views| && |before.views.Keys| == |before.views|;
    forall id | id in after.views ensures WellFormed(after.views[id].view) && after.views[id].generation == after.generation {
      RevisesWellFormed(x, after.generation, before.views[id], after.views[id]);
    }
  }

  // The main invariant

  lemma ResolvedWellFormed(x: Index, task: Task)
    requires ValidIndex(x) && Resolved(x, task).Success?
    ensures WellFormed(Resolved(x, task).value)
  {
    hide WellFormed, ValidIndex, Resolved;
    ResolvedIsFresh(x, task);
  }

  /** A thread that does not hold an identifier is not disturbed by what happens to the table under one generation. */
  lemma OthersSafe(s: System, s': System, th: Thread)
    requires ThreadSafe(s, th) && s'.table.index == s.table.index && s'.table.generation == s.table.generation
    requires s.counter <= s'.counter
    requires th.Publishing? ==> th.id !in s'.table.views
    ensures ThreadSafe(s', th)
  {
    hide WellFormed, Resolved, Reconciled, Enumerates;
  }

  /** After a change of the model no result in hand is current. */
  lemma OutdatedSafe(s: System, s': System, th: Thread)
    requires ThreadSafe(s, th) && s'.table.generation == s.table.generation + 1 && s'.counter == s.counter
    requires s'.table.views.Keys == s.table.views.Keys
    ensures ThreadSafe(s', th)
  {
    hide WellFormed, Resolved, Reconciled, Enumerates;
  }

  lemma PublishSafe(s: System, s': System, t: nat)
    requires Safe(s) && Taken(s, s', CommitPublish(t))
    ensures Safe(s')
  {
    hide WellFormed, Resolved, Reconciled, Enumerates, ValidIndex, TableSafe;
    var th := s.threads[t];
    assert ThreadSafe(s, th);
    assert Holds(th, th.id);
    if th.generation == s.table.generation {
      TableParts(s.table);
      ResolvedWellFormed(s.table.index, th.task);
      InsertedSafe(s.table, th.id, th.view);
    }
    forall u | 0 <= u < |s'.threads| ensures ThreadSafe(s', s'.threads[u]) {
      if u != t {
        assert s'.threads[u] == s.threads[u];
        HeldOnce(s, t, u, th.id);
        OthersSafe(s, s', s.threads[u]);
      }
    }
  }

  lemma HeldOnce(s: System, t: nat, u: nat, id: ViewId)
    requires Safe(s) && t < |s.threads| && u < |s.threads| && t != u && Holds(s.threads[t], id)
    ensures !Holds(s.threads[u], id)
  {
    hide TableSafe, ThreadSafe, Holds;
  }

  lemma TableParts(t: Table)
    requires TableSafe(t)
    ensures ValidIndex(t.index)
    ensures forall id :: id in t.views ==> t.views[id].generation == t.generation && WellFormed(t.views[id].view)
  {
    hide WellFormed, ValidIndex;
  }

  lemma RollbackSafe(s: System, s': System, t: nat)
    requires Safe(s) && Taken(s, s', JournalFails(t))
    ensures Safe(s')
  {
    hide WellFormed, Resolved, Reconciled, Enumerates, ValidIndex, TableSafe;
    ErasedSafe(s.table, s.threads[t].id);
    forall u | 0 <= u < |s'.threads| ensures ThreadSafe(s', s'.threads[u]) {
      if u != t { OthersSafe(s, s', s.threads[u]); }
    }
  }

  lemma RevisedSafe(s: System, s': System, t: nat)
    requires Safe(s) && Taken(s, s', CommitRevised(t))
    ensures Safe(s')
  {
    hide WellFormed, Resolved, Reconciled, Enumerates, ValidIndex;
    var th := s.threads[t];
    assert ThreadSafe(s, th);
    if s'.table != s.table {
      StepWellFormed(s.table.index, th.canonical.view, th.tagOrder, th.alarmOrder);
      assert s'.table.views.Keys == s.table.views.Keys;
      assert |s'.table.views.Keys| == |s'.table.views| && |s.table.views.Keys| == |s.table.views|;
    }
    forall u | 0 <= u < |s'.threads| ensures ThreadSafe(s', s'.threads[u]) {
      if u != t { OthersSafe(s, s', s.threads[u]); }
    }
  }

  lemma ReserveSafe(s: System, s': System, t: nat)
    requires Safe(s) && Taken(s, s', Reserve(t))
    ensures Safe(s')
  {
    hide WellFormed, Resolved, Reconciled, Enumerates, ValidIndex, TableSafe;
    assert ThreadSafe(s, s.threads[t]);
    var next := Published(s.counter + 1);
    forall u | 0 <= u < |s.threads| ensures !Holds(s.threads[u], next) {
      assert ThreadSafe(s, s.threads[u]);
    }
    forall u | 0 <= u < |s'.threads| ensures ThreadSafe(s', s'.threads[u]) {
      if u != t { OthersSafe(s, s', s.threads[u]); }
    }
  }

  lemma PrivateSafe(s: System, s': System, step: Step)
    requires Safe(s) && Taken(s, s', step) && (step.Resolve? || step.Journaled? || step.Trust? || step.Revise?)
    ensures Safe(s')
  {
    hide WellFormed, Resolved, Reconciled, Enumerates, ValidIndex, TableSafe;
    TableParts(s.table);
    assert ThreadSafe(s, s.threads[step.t]);
    forall u | 0 <= u < |s'.threads| ensures ThreadSafe(s', s'.threads[u]) {
      if u != step.t { OthersSafe(s, s', s.threads[u]); }
    }
  }

  /** Every step, by every thread, keeps the system safe. */
  lemma StepSafe(s: System, s': System, step: Step)
    requires Safe(s) && Taken(s, s', step)
    ensures Safe(s')
  {
    match step
    case CommitPublish(t) => PublishSafe(s, s', t);
    case JournalFails(t) => RollbackSafe(s, s', t);
    case CommitRevised(t) => RevisedSafe(s, s', t);
    case Reserve(t) => ReserveSafe(s, s', t);
    case ChangeModel(x) =>
      ChangesSafe(x, s.table, s'.table);
      ModelSafe(s, s', x);
    case _ => PrivateSafe(s, s', step);
  }

  lemma ModelSafe(s: System, s': System, x: Index)
    requires Safe(s) && Taken(s, s', ChangeModel(x)) && TableSafe(s'.table)
    ensures Safe(s')
  {
    hide WellFormed, Resolved, Reconciled, Enumerates, ValidIndex, TableSafe, Revises;
    forall u | 0 <= u < |s'.threads| ensures ThreadSafe(s', s'.threads[u]) {
      OutdatedSafe(s, s', s.threads[u]);
    }
  }

  // Runs

  ghost predicate Starts(s: System, records: seq<(nat, Task)>) {
    && 0 < s.table.capacity && ValidIndex(s.table.index) && (forall t :: 0 <= t < |s.threads| ==> s.threads[t] == Idle)
    && s.table == RestoreAll(Table(s.table.capacity, s.table.index, s.table.generation, map[], []), records)
    && forall i, j :: 0 <= i < j < |records| ==> records[i].0 != records[j].0
  }

  ghost predicate Run(states: seq<System>, steps: seq<Step>, records: seq<(nat, Task)>) {
    && |states| == |steps| + 1 && Starts(states[0], records)
    && forall i :: 0 <= i < |steps| ==> Taken(states[i], states[i + 1], steps[i])
  }

  lemma {:induction false} RestoreSafe(t: Table, records: seq<(nat, Task)>)
    requires TableSafe(t) && t.views == map[] && forall i, j :: 0 <= i < j < |records| ==> records[i].0 != records[j].0
    ensures var r := RestoreAll(t, records);
      && TableSafe(r) && r.index == t.index && r.generation == t.generation && r.capacity == t.capacity
      && forall id :: id in r.views ==> exists i :: 0 <= i < |records| && id == Restored(records[i].0)
    decreases |records|
  {
    hide WellFormed, ValidIndex, Resolved, Inserted, TableSafe;
    if records != [] {
      var front, last := records[..|records| - 1], records[|records| - 1];
      RestoreSafe(t, front);
      var r := RestoreAll(t, front);
      forall id | id in r.views ensures exists i :: 0 <= i < |front| && id == Restored(records[i].0) {
        var i :| 0 <= i < |front| && id == Restored(front[i].0);
        assert records[i] == front[i];
      }
      RestoreOneSafe(r, last.0, last.1);
    }
  }

  lemma RestoreOneSafe(t: Table, sequence: nat, task: Task)
    requires TableSafe(t) && Restored(sequence) !in t.views
    ensures var r := RestoreOne(t, sequence, task);
      && TableSafe(r) && r.index == t.index && r.generation == t.generation && r.capacity == t.capacity
      && forall id :: id in r.views ==> id in t.views || id == Restored(sequence)
  {
    hide WellFormed, ValidIndex, Resolved, TableSafe;
    TableParts(t);
    var again := task.(modelRevision := t.index.model.revision);
    if task.modelId == Some(t.index.model.modelId) && Resolved(t.index, again).Success? {
      ResolvedWellFormed(t.index, again);
      InsertedSafe(t, Restored(sequence), Resolved(t.index, again).value);
    }
  }

  /** Generation safety, in every state of every run. */
  lemma {:induction false} RunSafe(states: seq<System>, steps: seq<Step>, records: seq<(nat, Task)>, n: nat)
    requires Run(states, steps, records) && n < |states|
    ensures Safe(states[n])
    decreases n
  {
    hide Taken, Safe, Starts;
    if n == 0 {
      StartSafe(states[0], records);
    } else {
      RunSafe(states, steps, records, n - 1);
      assert Taken(states[n - 1], states[n - 1 + 1], steps[n - 1]);
      StepSafe(states[n - 1], states[n], steps[n - 1]);
    }
  }

  lemma StartSafe(s: System, records: seq<(nat, Task)>)
    requires Starts(s, records)
    ensures Safe(s)
  {
    hide WellFormed, ValidIndex, RestoreAll;
    RestoreSafe(Table(s.table.capacity, s.table.index, s.table.generation, map[], []), records);
  }

  // Commits are atomic

  /** A publication that commits stores exactly what resolving its task on the active model gives at that moment. */
  lemma PublishIsAtomic(s: System, s': System, t: nat)
    requires Safe(s) && Taken(s, s', CommitPublish(t)) && s'.threads[t].Journaling?
    ensures var th := s.threads[t];
      && Resolved(s.table.index, th.task).Success? && th.id !in s.table.views
      && s'.table == Inserted(s.table, th.id, Resolved(s.table.index, th.task).value)
      && s'.table.views[th.id] == Stored(Resolved(s.table.index, th.task).value, s.table.generation)
  {
    hide WellFormed, Resolved, Reconciled, Enumerates, ValidIndex, TableSafe;
    assert ThreadSafe(s, s.threads[t]);
  }

  /** Reconciling a saved view in one indivisible operation. */
  ghost function ReconcileNow(t: Table, id: ViewId, tagOrder: seq<string>, alarmOrder: seq<string>): Table {
    if id !in t.views || !Orders(t.views[id].view, tagOrder, alarmOrder) then t
    else match Reconciled(t.index, t.views[id].view, tagOrder, alarmOrder)
      case Failure(_) => t
      case Success(v) => t.(views := t.views[id := Stored(v, t.generation)])
  }

  /** The table after a commit: the view that is there, reconciled with the active model, if the thread still knows it;
      and no change at all otherwise. */
  ghost predicate RevisedAtomically(before: Table, after: Table, th: Thread)
    requires th.Revising?
  {
    if th.generation == before.generation && th.id in before.views && before.views[th.id] == th.canonical
    then
      && after == ReconcileNow(before, th.id, th.tagOrder, th.alarmOrder)
      && th.id in after.views && after.views[th.id] == Stored(th.revised, before.generation)
    else after == before
  }

  lemma ReconcileIsAtomic(s: System, s': System, t: nat)
    requires Safe(s) && t < |s.threads| && s.threads[t].Revising? && Taken(s, s', CommitRevised(t))
    ensures RevisedAtomically(s.table, s'.table, s.threads[t])
  {
    hide WellFormed, Resolved, Reconciled, Enumerates, ValidIndex, TableSafe;
    assert ThreadSafe(s, s.threads[t]);
  }
}
