/** What becomes of one saved view over a run: its blocks stay, its identifier is never used again, and its status falls
    only where a new model cannot reconcile it. */
module ViewHistories {
  import opened ExampleModels
  import opened Model
  import opened Reconciliation
  import opened ReconciliationChains
  import opened ReconciliationFixedPoint
  import opened ReconciliationOutcomes
  import opened Screen
  import opened Sequences
  import opened ViewProtocol
  import opened ViewTable
  import opened Wrappers

  // One change of the model

  /** What makes a reconciliation fail, told before it is tried. */
  ghost predicate Refuses(x: Index, v: View) {
    || Oversized(v) || OtherModel(x, v) || !TaskAccepted(x, NewTask(x, v.task))
    || |v.components| + |Filter(NewComponent(v.components), Resolved(x, NewTask(x, v.task)).value.components)| > MAX_COMPONENTS
  }

  lemma FailsIfRefused(x: Index, v: View, tagOrder: seq<string>, alarmOrder: seq<string>)
    requires Orders(v, tagOrder, alarmOrder)
    ensures Reconciled(x, v, tagOrder, alarmOrder).Failure? <==> Refuses(x, v)
  {
    hide Oversized, OtherModel, TaskAccepted, OverviewView, AlarmsView, AllNotes, DifferencesOf, Verdict, MergedDependencies, Enumerates,
         MergeComponent, Filter, AddAll;
  }

  ghost predicate BlocksKept(before: View, after: View) {
    && |before.components| <= |after.components|
    && forall i :: 0 <= i < |before.components| ==> Follows(before.components[i], after.components[i])
  }

  /** A change of the model keeps every block, like a reconciliation; the status of a view falls exactly if it was in
      conflict and the new model refuses it. */
  lemma ChangeKeepsBlocks(x: Index, generation: nat, before: Stored, after: Stored)
    requires Revises(x, generation, before, after)
    ensures BlocksKept(before.view, after.view)
    ensures Rank(after.view.status) < Rank(before.view.status) <==> before.view.status == Conflict && Refuses(x, before.view)
  {
    hide Reconciled, Refuses;
    var tagOrder, alarmOrder :| Orders(before.view, tagOrder, alarmOrder) && after ==
      match Reconciled(x, before.view, tagOrder, alarmOrder)
      case Success(v) => Stored(v, generation)
      case Failure(_) => Stored(Flagged(before.view), generation);
    FailsIfRefused(x, before.view, tagOrder, alarmOrder);
    if Reconciled(x, before.view, tagOrder, alarmOrder).Success? {
      StepFollows(x, before.view, tagOrder, alarmOrder);
    } else {
      FollowsSelf(before.view);
    }
  }

  // Identifiers

  /** The identifier has been given out, and no thread is about to insert a view under it. */
  ghost predicate GivenOut(s: System, id: ViewId) {
    && (id.Published? ==> id.number <= s.counter)
    && forall t :: 0 <= t < |s.threads| && s.threads[t].Publishing? ==> s.threads[t].id != id
  }

  lemma SavedIsGivenOut(s: System, id: ViewId)
    requires Safe(s) && id in s.table.views
    ensures GivenOut(s, id)
  {
    hide TableSafe;
    forall t | 0 <= t < |s.threads| && s.threads[t].Publishing? ensures s.threads[t].id != id {
      assert ThreadSafe(s, s.threads[t]);
    }
  }

  /** An identifier that is not in use is never inserted again. */
  lemma StepRetires(s: System, s': System, step: Step, id: ViewId)
    requires GivenOut(s, id) && Taken(s, s', step)
    ensures GivenOut(s', id) && (id in s'.table.views ==> id in s.table.views)
  {
    hide Resolved, Reconciled, Enumerates, Revises, ValidIndex;
  }

  // One view over one step

  /** What a step leaves of a view: itself, its reconciliation by one thread, or its revision by a new model. */
  lemma StepKeepsView(s: System, s': System, step: Step, id: ViewId)
    requires Safe(s) && Taken(s, s', step) && id in s.table.views && id in s'.table.views
    ensures BlocksKept(s.table.views[id].view, s'.table.views[id].view)
    ensures Rank(s'.table.views[id].view.status) < Rank(s.table.views[id].view.status) <==>
            step.ChangeModel? && s.table.views[id].view.status == Conflict && Refuses(step.x, s.table.views[id].view)
  {
    hide Resolved, Reconciled, Enumerates, Revises, ValidIndex, TableSafe, Refuses, BlocksKept;
    SavedIsGivenOut(s, id);
    if step.ChangeModel? {
      ChangeKeepsBlocks(step.x, s'.table.generation, s.table.views[id], s'.table.views[id]);
    } else if step.CommitRevised? && s'.table.views[id] != s.table.views[id] {
      assert ThreadSafe(s, s.threads[step.t]);
      var th := s.threads[step.t];
      StepFollows(s.table.index, th.canonical.view, th.tagOrder, th.alarmOrder);
      BlocksFollow(th.canonical.view, th.revised);
    } else {
      FollowsSelf(s.table.views[id].view);
      BlocksFollow(s.table.views[id].view, s.table.views[id].view);
    }
  }

  lemma BlocksFollow(before: View, after: View)
    requires ViewFollows(before, after)
    ensures BlocksKept(before, after) && Rank(before.status) <= Rank(after.status)
  {
  }

  // One view over a run

  lemma {:induction false} RunRetires(states: seq<System>, steps: seq<Step>, records: seq<(nat, Task)>, m: nat, n: nat, id: ViewId)
    requires Run(states, steps, records) && m <= n < |states| && id in states[m].table.views
    ensures GivenOut(states[n], id)
    ensures id in states[n].table.views ==> forall k :: m <= k <= n ==> id in states[k].table.views
    decreases n
  {
    hide Taken, Safe, Starts, GivenOut;
    if n == m {
      RunSafe(states, steps, records, m);
      SavedIsGivenOut(states[m], id);
    } else {
      RunRetires(states, steps, records, m, n - 1, id);
      assert Taken(states[n - 1], states[n - 1 + 1], steps[n - 1]);
      StepRetires(states[n - 1], states[n], steps[n - 1], id);
    }
  }

  /** The new model of some step refused the view when it was in conflict. */
  ghost predicate RefusedBetween(states: seq<System>, steps: seq<Step>, m: nat, n: nat, id: ViewId) {
    exists k :: m <= k < n && k < |steps| && k < |states| && steps[k].ChangeModel? && id in states[k].table.views
                && states[k].table.views[id].view.status == Conflict && Refuses(steps[k].x, states[k].table.views[id].view)
  }

  lemma BlocksTransitive(a: View, b: View, c: View)
    requires BlocksKept(a, b) && BlocksKept(b, c)
    ensures BlocksKept(a, c)
  {
    forall i | 0 <= i < |a.components| ensures Follows(a.components[i], c.components[i]) {
      assert Follows(a.components[i], b.components[i]) && Follows(b.components[i], c.components[i]);
    }
  }

  /** Blocks stick in the service: between any two states of any run of publications, reconciliations and changes of the
      model that both have a view under one identifier, it is one view that was there all the time; each component that
      was blocked still is, with nothing but its status and reason changed; and its status has not fallen, unless some
      model on the way refused it in conflict. */
  lemma {:induction false} BlocksStickInRuns(states: seq<System>, steps: seq<Step>, records: seq<(nat, Task)>, m: nat, n: nat, id: ViewId)
    requires Run(states, steps, records) && m <= n < |states|
    requires id in states[m].table.views && id in states[n].table.views
    ensures forall k :: m <= k <= n ==> id in states[k].table.views
    ensures BlocksKept(states[m].table.views[id].view, states[n].table.views[id].view)
    ensures Rank(states[n].table.views[id].view.status) < Rank(states[m].table.views[id].view.status) ==>
            RefusedBetween(states, steps, m, n, id)
    decreases n
  {
    hide Taken, Safe, Starts, GivenOut, BlocksKept, Refuses;
    RunRetires(states, steps, records, m, n, id);
    if n == m {
      FollowsSelf(states[m].table.views[id].view);
      BlocksFollow(states[m].table.views[id].view, states[m].table.views[id].view);
    } else {
      BlocksStickInRuns(states, steps, records, m, n - 1, id);
      RunSafe(states, steps, records, n - 1);
      assert Taken(states[n - 1], states[n - 1 + 1], steps[n - 1]);
      StepKeepsView(states[n - 1], states[n], steps[n - 1], id);
      BlocksTransitive(states[m].table.views[id].view, states[n - 1].table.views[id].view, states[n].table.views[id].view);
    }
  }

  // A view that falls from conflict to review

  const PUMP := Asset("pump", "Pump", "machine", None)
  const WITHOUT_TANK := MachineModel("plant", 3, "Plant", [PUMP], [], [], [])
  const SHOW_TANK := Task(TaskKind.Overview, None, 1, "tank", Some("tank"), None)

  lemma PumpIds()
    ensures ById([PUMP], ASSET_ID) == map["pump" := PUMP] && "tank" !in ById([PUMP], ASSET_ID)
  {
    assert [PUMP][..0] == [];
    assert "tank"[0] != "pump"[0];
  }

  lemma WithoutTankValid()
    ensures ValidModel(WITHOUT_TANK)
  {
    hide ById, Identity, Text;
    PlantNamed();
    PumpNamed();
  }

  lemma PumpNamed()
    ensures Identity("pump") && Text("Pump") && Text("machine")
  {
  }

  lemma TankShown(x: Index)
    requires x == IndexOf(BEFORE, x.digest)
    ensures Resolved(x, SHOW_TANK).Success?
    ensures Resolved(x, SHOW_TANK).value.task == SHOW_TANK.(modelId := Some("plant"))
    ensures Resolved(x, SHOW_TANK).value.modelId == "plant"
  {
    hide TagsOf, ById;
    TankIds();
  }

  lemma TankDeclared(x: Index)
    requires x == IndexOf(AFTER, x.digest)
    ensures "tank" in x.assets
  {
    hide TagMap;
    TankIds();
  }

  lemma UnitChanges(x1: Index, x2: Index)
    requires x1 == IndexOf(BEFORE, x1.digest) && x2 == IndexOf(AFTER, x2.digest)
    ensures MeaningChanged(x1, x2, SHOW_TANK)
  {
    hide ById;
    LevelMap(Level("number", "cm"));
    assert Level("number", "m") in x1.model.tags;
    assert "m"[..] != "cm"[..];
  }

  lemma AnchorRefused(x: Index, v: View)
    requires x == IndexOf(WITHOUT_TANK, x.digest) && v.task.anchor == Some("tank")
    ensures Refuses(x, v)
  {
    hide Oversized, OtherModel, RolesAccepted, Filter, Resolved;
    PumpIds();
  }

  /** An instance: an overview of the tank, made under the first model, is in conflict under the second, which changes a
      unit; the third does not declare the tank any more, and the view falls back to a review. */
  lemma ConflictForgotten(digest: Digest, generation: nat) returns (shown: Stored, conflicting: Stored, flagged: Stored)
    ensures var x1, x2, x3 := IndexOf(BEFORE, digest), IndexOf(AFTER, digest), IndexOf(WITHOUT_TANK, digest);
      && ValidIndex(x1) && ValidIndex(x2) && ValidIndex(x3)
      && Resolved(x1, SHOW_TANK) == Success(shown.view) && Revises(x2, generation + 1, shown, conflicting)
      && Revises(x3, generation + 2, conflicting, flagged)
      && conflicting.view.status == Conflict && flagged.view.status == NeedsReview
  {
    hide ValidModel, Resolved, Reconciled, Enumerates, MeaningChanged, Refuses, ById;
    var x1, x2, x3 := IndexOf(BEFORE, digest), IndexOf(AFTER, digest), IndexOf(WITHOUT_TANK, digest);
    PlantValid(BEFORE, "number", "m");
    PlantValid(AFTER, "number", "cm");
    WithoutTankValid();
    TankShown(x1);
    TankDeclared(x2);
    shown := Stored(Resolved(x1, SHOW_TANK).value, generation);
    var o1 := SomeOrders(shown.view);
    FirstSucceeds(x1, x2, SHOW_TANK, o1.0, o1.1);
    UnitChanges(x1, x2);
    FirstVerdict(x1, x2, SHOW_TANK, o1.0, o1.1);
    conflicting := Stored(Reconciled(x2, shown.view, o1.0, o1.1).value, generation + 1);
    TaskKept(x2, shown.view, o1.0, o1.1);
    AnchorRefused(x3, conflicting.view);
    var o2 := SomeOrders(conflicting.view);
    FailsIfRefused(x3, conflicting.view, o2.0, o2.1);
    flagged := Stored(Flagged(conflicting.view), generation + 2);
  }

  lemma TaskKept(x: Index, v: View, tagOrder: seq<string>, alarmOrder: seq<string>)
    requires Orders(v, tagOrder, alarmOrder) && Reconciled(x, v, tagOrder, alarmOrder).Success?
    ensures Reconciled(x, v, tagOrder, alarmOrder).value.task == NewTask(x, v.task)
  {
    hide Oversized, OtherModel, Resolved, AllNotes, DifferencesOf, Verdict, MergedDependencies, Enumerates, MergedComponents, AddAll;
  }
}
