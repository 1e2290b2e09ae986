/** Telemetry under concurrency: no value crosses from one model generation to the next. */
module TelemetryProtocol {
  import opened Model
  import opened TelemetryStore
  import opened Wrappers

  datatype Entry = Entry(batch: Batch, received: nat)

  /** A caller between the snapshot of the model and the end of its call. */
  datatype Caller = Away | Checking(generation: nat, batch: Batch) | Reading(generation: nat)

  /** models[g] is the model of generation g, the last one active; the log lists what the store accepted since it was
      last reconfigured. */
  datatype System = System(models: seq<MachineModel>, store: Store, log: seq<Entry>, callers: seq<Caller>)

  datatype Step =
    | Change(m: MachineModel)
    | Reconfigure
    | Begin(t: nat, batch: Batch)
    | Refuse(t: nat)
    | Commit(t: nat, now: nat)
    | BeginRead(t: nat)
    | EndRead(t: nat)

  function Active(s: System): nat
    requires s.models != []
  {
    |s.models| - 1
  }

  /** The model changes first; the store follows in a later step, before the next change. */
  ghost predicate Taken(s: System, s': System, step: Step, maximum: nat)
    requires s.models != []
  {
    match step
    case Change(m) => ValidModel(m) && s.store.generation == Active(s) && s' == s.(models := s.models + [m])
    case Reconfigure =>
      s.store.generation < Active(s) && s' == s.(store := Reconfigured(s.store, Active(s)), log := [])
    case Begin(t, batch) =>
      && t < |s.callers| && s.callers[t].Away?
      && s' == s.(callers := s.callers[t := Checking(Active(s), batch)])
    case Refuse(t) =>
      && t < |s.callers| && s.callers[t].Checking?
      && (var c := s.callers[t];
          c.generation < |s.models|
          && IngestFault(s.store, s.models[c.generation], c.generation, c.batch, maximum).Some?)
      && s' == s.(store := Rejected(s.store), callers := s.callers[t := Away])
    case Commit(t, now) =>
      && t < |s.callers| && s.callers[t].Checking?
      && (var c := s.callers[t];
          c.generation < |s.models|
          && IngestFault(s.store, s.models[c.generation], c.generation, c.batch, maximum).None?
          && s' == s.(store := Committed(s.store, c.batch, now), log := s.log + [Entry(c.batch, now)], callers := s.callers[t := Away]))
    case BeginRead(t) =>
      t < |s.callers| && s.callers[t].Away? && s' == s.(callers := s.callers[t := Caller.Reading(Active(s))])
    case EndRead(t) =>
      t < |s.callers| && s.callers[t].Reading? && s' == s.(callers := s.callers[t := Away])
  }

  // The store is what its log says

  /** The value of a tag: that of the last accepted batch that names it. */
  function LastValue(log: seq<Entry>, id: string): Option<Current> {
    if log == [] then None
    else
      var e := log[|log| - 1];
      if id in e.batch.values then Some(Current(e.batch.values[id], e.received, e.batch.sourceId, e.batch.sequence))
      else LastValue(log[..|log| - 1], id)
  }

  function LastSequence(log: seq<Entry>, source: string): Option<nat> {
    if log == [] then None
    else
      var e := log[|log| - 1];
      if e.batch.sourceId == source then Some(e.batch.sequence) else LastSequence(log[..|log| - 1], source)
  }

  ghost predicate Describes(log: seq<Entry>, s: Store) {
    && (forall id :: LastValue(log, id) == if id in s.values then Some(s.values[id]) else None)
    && forall source :: LastSequence(log, source) == if source in s.sequences then Some(s.sequences[source]) else None
  }

  /** Every batch was made for the generation of the store and checked against its model. */
  ghost predicate Genuine(s: System, maximum: nat) {
    && s.store.generation < |s.models|
    && forall i :: 0 <= i < |s.log| ==>
         Checked(s.models[s.store.generation], s.store.generation, s.log[i].batch, maximum) == None
  }

  ghost predicate Ascend(log: seq<Entry>) {
    forall i, j :: 0 <= i < j < |log| && log[i].batch.sourceId == log[j].batch.sourceId ==> log[i].batch.sequence < log[j].batch.sequence
  }

  ghost predicate TelemetryInvariant(s: System, maximum: nat) {
    && s.models != [] && (forall g :: 0 <= g < |s.models| ==> ValidModel(s.models[g]))
    && Genuine(s, maximum) && Ascend(s.log) && Describes(s.log, s.store)
    && Active(s) - 1 <= s.store.generation <= Active(s)
    && forall t :: 0 <= t < |s.callers| ==>
         (s.callers[t].Checking? || s.callers[t].Reading? ==> s.callers[t].generation <= Active(s))
  }

  // Steps

  lemma {:induction false} LastSequenceBounds(log: seq<Entry>, source: string)
    requires Ascend(log)
    ensures LastSequence(log, source).None? ==> forall i :: 0 <= i < |log| ==> log[i].batch.sourceId != source
    ensures LastSequence(log, source).Some? ==>
      forall i :: 0 <= i < |log| && log[i].batch.sourceId == source ==> log[i].batch.sequence <= LastSequence(log, source).value
    decreases |log|
  {
    if log != [] {
      var front := log[..|log| - 1];
      LastSequenceBounds(front, source);
      forall i | 0 <= i < |front| ensures front[i] == log[i] {}
    }
  }

  lemma CommitDescribed(log: seq<Entry>, s: Store, batch: Batch, now: nat)
    requires Describes(log, s)
    ensures Describes(log + [Entry(batch, now)], Committed(s, batch, now))
  {
    var longer, after := log + [Entry(batch, now)], Committed(s, batch, now);
    assert longer[..|longer| - 1] == log;
    forall id ensures LastValue(longer, id) == if id in after.values then Some(after.values[id]) else None {
      assert LastValue(log, id) == if id in s.values then Some(s.values[id]) else None;
    }
    forall source ensures LastSequence(longer, source) == if source in after.sequences then Some(after.sequences[source]) else None {
      assert LastSequence(log, source) == if source in s.sequences then Some(s.sequences[source]) else None;
    }
  }

  lemma CommitAscends(log: seq<Entry>, s: Store, batch: Batch, now: nat)
    requires Describes(log, s) && Ascend(log) && Advances(s, batch)
    ensures Ascend(log + [Entry(batch, now)])
  {
    LastSequenceBounds(log, batch.sourceId);
    assert LastSequence(log, batch.sourceId) ==
      if batch.sourceId in s.sequences then Some(s.sequences[batch.sourceId]) else None;
  }

  lemma CommitKeeps(s: System, s': System, t: nat, now: nat, maximum: nat)
    requires TelemetryInvariant(s, maximum) && Taken(s, s', Commit(t, now), maximum)
    ensures TelemetryInvariant(s', maximum)
  {
    hide ValidModel, Checked, Describes, Ascend;
    var c := s.callers[t];
    CommitDescribed(s.log, s.store, c.batch, now);
    CommitAscends(s.log, s.store, c.batch, now);
  }

  lemma ReconfigureKeeps(s: System, s': System, maximum: nat)
    requires TelemetryInvariant(s, maximum) && Taken(s, s', Reconfigure, maximum)
    ensures TelemetryInvariant(s', maximum)
  {
    hide ValidModel, Checked, Describes, Ascend;
    NothingDescribed(Reconfigured(s.store, Active(s)));
  }

  /** Every step keeps the log faithful. */
  lemma StepKeeps(s: System, s': System, step: Step, maximum: nat)
    requires TelemetryInvariant(s, maximum) && Taken(s, s', step, maximum)
    ensures TelemetryInvariant(s', maximum)
  {
    hide ValidModel, Checked, Describes, Ascend, CommitError;
    match step
    case Commit(t, now) => CommitKeeps(s, s', t, now, maximum);
    case Reconfigure => ReconfigureKeeps(s, s', maximum);
    case Refuse(t) => SameDescribed(s.log, s.store, Rejected(s.store));
    case _ =>
  }

  lemma NothingDescribed(s: Store)
    requires s.values == map[] && s.sequences == map[]
    ensures Describes([], s) && Ascend([])
  {
  }

  lemma SameDescribed(log: seq<Entry>, s: Store, s': Store)
    requires Describes(log, s) && s'.values == s.values && s'.sequences == s.sequences
    ensures Describes(log, s')
  {
    hide LastValue, LastSequence;
  }

  // Runs

  ghost predicate Starts(s: System) {
    && |s.models| == 1 && ValidModel(s.models[0]) && s.log == [] && s.store == Store(0, map[], map[], 0, 0, 0, 0)
    && forall t :: 0 <= t < |s.callers| ==> s.callers[t] == Away
  }

  ghost predicate Run(states: seq<System>, steps: seq<Step>, maximum: nat) {
    && |states| == |steps| + 1
    && Starts(states[0])
    && forall i :: 0 <= i < |steps| ==> states[i].models != [] && Taken(states[i], states[i + 1], steps[i], maximum)
  }

  lemma {:induction false} RunKeeps(states: seq<System>, steps: seq<Step>, maximum: nat, n: nat)
    requires Run(states, steps, maximum) && n < |states|
    ensures TelemetryInvariant(states[n], maximum)
    decreases n
  {
    hide Taken, ValidModel, Describes, Checked;
    if n == 0 {
      NothingDescribed(states[0].store);
    } else {
      RunKeeps(states, steps, maximum, n - 1);
      assert Taken(states[n - 1], states[n - 1 + 1], steps[n - 1], maximum);
      StepKeeps(states[n - 1], states[n], steps[n - 1], maximum);
    }
  }

  lemma {:induction false} LastValueSource(log: seq<Entry>, id: string) returns (i: nat)
    requires LastValue(log, id).Some?
    ensures i < |log| && id in log[i].batch.values
    ensures LastValue(log, id).value == Current(log[i].batch.values[id], log[i].received, log[i].batch.sourceId, log[i].batch.sequence)
    ensures forall j :: i < j < |log| ==> id !in log[j].batch.values
    decreases |log|
  {
    if id in log[|log| - 1].batch.values {
      i := |log| - 1;
    } else {
      i := LastValueSource(log[..|log| - 1], id);
    }
  }

  /** No telemetry crosses generations: whatever a reader that works for generation g is shown, at any point of any run,
      was sent in a batch that names g, was checked against the model of g, and is the latest accepted one for its tag. */
  lemma ShownIsGenuine(states: seq<System>, steps: seq<Step>, maximum: nat, n: nat, g: nat, t: Tag, now: nat, staleAfter: nat)
    returns (i: nat)
    requires Run(states, steps, maximum) && n < |states| && g < |states[n].models|
    requires t in states[n].models[g].tags
    requires ReadingOf(states[n].store, g, now, staleAfter, t).age.Some?
    ensures i < |states[n].log| && t.id in states[n].log[i].batch.values
    ensures var batch := states[n].log[i].batch;
      && batch.generation == g && Checked(states[n].models[g], g, batch, maximum) == None
      && ReadingOf(states[n].store, g, now, staleAfter, t).value == batch.values[t.id].value
      && SampleFits(batch.values[t.id], t)
    ensures forall j :: i < j < |states[n].log| ==> t.id !in states[n].log[j].batch.values
  {
    hide Taken, ValidModel, Run, SampleFits, ById;
    RunKeeps(states, steps, maximum, n);
    var s := states[n];
    assert LastValue(s.log, t.id) == Some(s.store.values[t.id]);
    i := LastValueSource(s.log, t.id);
    assert Checked(s.models[g], g, s.log[i].batch, maximum) == None;
    TagFound(s.models[g], t);
    FitsTag(s.log[i].batch.values, TagMap(s.models[g]), t.id);
  }

  lemma TagFound(m: MachineModel, t: Tag)
    requires ValidModel(m) && t in m.tags
    ensures t.id in TagMap(m) && TagMap(m)[t.id] == t
  {
    hide ById, DistinctIds, AssetFields, TagFields, AlarmFields, RelationshipFields;
    MapsAgree(m.tags, TAG_ID);
  }

  lemma FitsTag(values: map<string, Sample>, tags: map<string, Tag>, id: string)
    requires ValuesFit(values, tags) && id in values
    ensures id in tags && SampleFits(values[id], tags[id])
  {
    hide SampleFits;
  }

  /** Within one generation the accepted sequences of a source strictly increase. */
  lemma SequencesAdvance(states: seq<System>, steps: seq<Step>, maximum: nat, n: nat, i: nat, j: nat)
    requires Run(states, steps, maximum) && n < |states| && i < j < |states[n].log|
    requires states[n].log[i].batch.sourceId == states[n].log[j].batch.sourceId
    ensures states[n].log[i].batch.sequence < states[n].log[j].batch.sequence
  {
    hide Taken, ValidModel, Run;
    RunKeeps(states, steps, maximum, n);
  }

  /** An alarm can only be active on a value of its own generation. */
  lemma ActiveIsCurrent(states: seq<System>, steps: seq<Step>, maximum: nat, n: nat, g: nat, t: Tag, a: Alarm, now: nat, staleAfter: nat)
    returns (i: nat)
    requires Run(states, steps, maximum) && n < |states| && g < |states[n].models| && t in states[n].models[g].tags
    requires TelemetryStore.Active(ReadingOf(states[n].store, g, now, staleAfter, t), a)
    ensures i < |states[n].log|
    ensures var batch := states[n].log[i].batch;
      && batch.generation == g && t.id in batch.values && t.dataType in NUMERIC_TYPES
      && batch.values[t.id].value.Number? && Compare(batch.values[t.id].value.x, a.operator, a.threshold)
  {
    hide Run, Compare, Checked;
    i := ShownIsGenuine(states, steps, maximum, n, g, t, now, staleAfter);
  }
}
