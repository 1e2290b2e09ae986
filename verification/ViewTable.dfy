/** The table of saved views: bounded, oldest out first, and always of one generation. */
module ViewTable {
  import opened Model
  import opened Reconciler
  import opened Reconciliation
  import opened ReconciliationChains
  import opened Screen
  import opened Sequences
  import opened Wrappers

  datatype ViewId = Published(number: nat) | Restored(sequence: nat)
  datatype Stored = Stored(view: View, generation: nat)
  /** The capacity is fixed when the program is built: 64 views, or 24 on a constrained target. */
  datatype Table = Table(capacity: nat, index: Index, generation: nat, views: map<ViewId, Stored>, order: seq<ViewId>)

  // What the operations do to the table

  function Evicted(t: Table): Table {
    if |t.views| >= t.capacity && t.order != [] then t.(views := t.views - {t.order[0]}, order := t.order[1..]) else t
  }

  function Inserted(t: Table, id: ViewId, view: View): Table {
    var e := Evicted(t);
    e.(views := e.views[id := Stored(view, t.generation)], order := e.order + [id])
  }

  function Erased(t: Table, id: ViewId): Table {
    t.(views := t.views - {id}, order := RemoveFirst(t.order, id))
  }

  /** A view that the new model cannot reconcile stays, marked for review. */
  function Flagged(v: View): View {
    v.(status := NeedsReview, issues := v.issues + [ReplacementNeedsRequest])
  }

  ghost predicate Revises(x: Index, generation: nat, before: Stored, after: Stored) {
    exists tagOrder, alarmOrder :: Orders(before.view, tagOrder, alarmOrder) && after ==
      match Reconciled(x, before.view, tagOrder, alarmOrder)
      case Success(v) => Stored(v, generation)
      case Failure(_) => Stored(Flagged(before.view), generation)
  }

  /** A new model becomes active: every saved view is revised in the same step. */
  ghost predicate Changes(x: Index, before: Table, after: Table) {
    && after.capacity == before.capacity && after.index == x && after.generation == before.generation + 1 && after.order == before.order
    && after.views.Keys == before.views.Keys
    && forall id :: id in before.views ==> Revises(x, after.generation, before.views[id], after.views[id])
  }

  /** A rescan of the file must advance the revision of the same model. */
  predicate RescanAccepted(x: Index, t: Table) {
    x.model.modelId == t.index.model.modelId ==> x.model.revision > t.index.model.revision
  }

  /** The saved tasks of a journal, resolved again with the active model. */
  ghost function RestoreOne(t: Table, sequence: nat, task: Task): Table {
    if task.modelId != Some(t.index.model.modelId) then t
    else match Resolved(t.index, task.(modelRevision := t.index.model.revision))
      case Failure(_) => t
      case Success(view) => Inserted(t, Restored(sequence), view)
  }

  ghost function RestoreAll(t: Table, records: seq<(nat, Task)>): Table {
    if records == [] then t
    else RestoreOne(RestoreAll(t, records[..|records| - 1]), records[|records| - 1].0, records[|records| - 1].1)
  }

  /** The table as the runtime holds it. */
  class Views {
    const capacity: nat
    var index: Index
    var generation: nat
    var views: map<ViewId, Stored>
    var order: seq<ViewId>

    ghost function State(): Table
      reads this
    {
      Table(capacity, index, generation, views, order)
    }

    constructor (size: nat, x: Index, first: nat)
      ensures State() == Table(size, x, first, map[], [])
    {
      capacity, index, generation, views, order := size, x, first, map[], [];
    }

    /** Makes room and inserts. */
    method Insert(id: ViewId, view: View)
      modifies this
      ensures State() == Inserted(old(State()), id, view)
    {
      if |views| >= capacity && order != [] {
        views := views - {order[0]};
        order := order[1..];
      }
      views := views[id := Stored(view, generation)];
      order := order + [id];
    }

    /** The commit of a publication: only if the model is still the one the view was made for. */
    method Publish(id: ViewId, view: View, snapshot: nat) returns (published: bool)
      modifies this
      ensures published <==> snapshot == old(generation)
      ensures State() == if published then Inserted(old(State()), id, view) else old(State())
    {
      if generation != snapshot {
        return false;
      }
      Insert(id, view);
      published := true;
    }

    /** Takes a publication back when its journal record could not be written. */
    method Rollback(id: ViewId)
      modifies this
      ensures State() == Erased(old(State()), id)
    {
      views := views - {id};
      var i := 0;
      while i < |order| && order[i] != id
        invariant 0 <= i <= |order| && forall k :: 0 <= k < i ==> order[k] != id
      {
        i := i + 1;
      }
      RemoveFirstAt(order, id, i);
      if i < |order| {
        order := order[..i] + order[i + 1..];
      }
    }

    /** The commit of a reconciliation: the model and the view must both be those it was computed from. */
    method CommitReconciled(id: ViewId, canonical: Stored, revised: View, snapshot: nat) returns (committed: bool)
      modifies this
      ensures committed <==> snapshot == old(generation) && id in old(views) && old(views)[id] == canonical
      ensures State() == if committed
        then old(State()).(views := old(views)[id := Stored(revised, snapshot)])
        else old(State())
    {
      if generation != snapshot || id !in views || views[id] != canonical {
        return false;
      }
      views := views[id := Stored(revised, generation)];
      committed := true;
    }

    /** Replaces the model: walks the saved views in an order the language leaves open. */
    method ApplyModelChange(x: Index, rescan: bool) returns (applied: bool)
      modifies this
      ensures applied <==> (rescan ==> RescanAccepted(x, old(State())))
      ensures applied ==> Changes(x, old(State()), State())
      ensures !applied ==> State() == old(State())
    {
      hide Reconciled;
      if rescan && x.model.modelId == index.model.modelId && x.model.revision <= index.model.revision {
        return false;
      }
      var next := generation + 1;
      var remaining := views.Keys;
      while remaining != {}
        invariant unchanged(`index, `generation, `order) && views.Keys == old(views).Keys && remaining <= views.Keys
        invariant forall id :: id in remaining ==> views[id] == old(views)[id]
        invariant forall id :: id in views.Keys - remaining ==> Revises(x, next, old(views)[id], views[id])
        decreases remaining
      {
        var id :| id in remaining;
        remaining := remaining - {id};
        var revised := Reconcile(x, views[id].view);
        var after := if revised.Success? then Stored(revised.value, next) else Stored(Flagged(views[id].view), next);
        RevisesNow(x, next, views[id], after, revised);
        views := views[id := after];
      }
      index, generation := x, next;
      applied := true;
    }

    /** Rebuilds the table from the journal of a previous run. */
    method RestoreRecords(records: seq<(nat, Task)>)
      modifies this
      ensures State() == RestoreAll(old(State()), records)
    {
      hide Resolved;
      for i := 0 to |records|
        invariant State() == RestoreAll(old(State()), records[..i])
      {
        assert records[..i + 1][..i] == records[..i];
        var (sequence, task) := records[i];
        if task.modelId == Some(index.model.modelId) {
          var view := ResolveTask(index, task.(modelRevision := index.model.revision));
          if view.Success? {
            Insert(Restored(sequence), view.value);
          }
        }
      }
      assert records[..|records|] == records;
    }
  }

  lemma RevisesNow(x: Index, generation: nat, before: Stored, after: Stored, r: Result<View, DomainError>)
    requires Refines(x, before.view, r)
    requires after == if r.Success? then Stored(r.value, generation) else Stored(Flagged(before.view), generation)
    ensures Revises(x, generation, before, after)
  {
    hide Reconciled;
  }
}
