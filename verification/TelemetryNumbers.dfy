/** Which tags can ever show a number: those that spell a numeric type in lower case. */
module TelemetryNumbers {
  import opened BundleText
  import opened ExampleModels
  import opened Import
  import opened Model
  import opened TelemetryProtocol
  import opened TelemetryStore
  import opened Wrappers

  /** Over any run: what a reader finds available is a number of a tag with a lower-case numeric type. */
  lemma AvailableIsNumeric(states: seq<System>, steps: seq<Step>, maximum: nat, n: nat, g: nat, t: Tag, now: nat, staleAfter: nat)
    requires Run(states, steps, maximum) && n < |states| && g < |states[n].models| && t in states[n].models[g].tags
    ensures Available(ReadingOf(states[n].store, g, now, staleAfter, t)) ==> t.dataType in NUMERIC_TYPES && maximum > 0
  {
    hide Run, Checked, ValidModel, ValuesFit;
    if Available(ReadingOf(states[n].store, g, now, staleAfter, t)) {
      var i := ShownIsGenuine(states, steps, maximum, n, g, t, now, staleAfter);
      CheckedNonempty(states[n].models[g], g, states[n].log[i].batch, maximum);
    }
  }

  lemma CheckedNonempty(m: MachineModel, g: nat, batch: Batch, maximum: nat)
    requires Checked(m, g, batch, maximum) == None
    ensures maximum > 0
  {
  }

  /** A reader with this model, in some state, finds the alarm with a value. */
  ghost predicate ShowsIn(s: System, x: Index, a: Alarm, staleAfter: nat) {
    exists g: nat, now: nat ::
      g < |s.models| && s.models[g] == x.model && AlarmReadingOf(x, s.store, g, now, staleAfter)(a).available
  }

  /** Some run comes to such a state. */
  ghost predicate ShowsValue(x: Index, a: Alarm, maximum: nat, staleAfter: nat) {
    exists states: seq<System>, steps: seq<Step>, n: nat ::
      Run(states, steps, maximum) && n < |states| && ShowsIn(states[n], x, a, staleAfter)
  }

  // A run that shows a value: one caller, who sends one number

  function OneNumber(x: Index, t: Tag): Batch {
    Batch(x.model.modelId, x.model.revision, 0, "s", 0, map[t.id := Sample(Number(0.0, true), "good", 0)])
  }

  function StartOf(m: MachineModel): System {
    System([m], Store(0, map[], map[], 0, 0, 0, 0), [], [Away])
  }

  function AfterBegin(x: Index, t: Tag): System {
    StartOf(x.model).(callers := [Checking(0, OneNumber(x, t))])
  }

  function AfterCommit(x: Index, t: Tag): System {
    System([x.model], Committed(StartOf(x.model).store, OneNumber(x, t), 0), [Entry(OneNumber(x, t), 0)], [Away])
  }

  lemma NumberAccepted(x: Index, t: Tag, maximum: nat)
    requires ValidIndex(x) && t in x.model.tags && t.dataType in NUMERIC_TYPES && maximum > 0
    ensures IngestFault(StartOf(x.model).store, x.model, 0, OneNumber(x, t), maximum) == None
  {
    hide ValidModel, ById;
    TagFound(x.model, t);
    var batch := OneNumber(x, t);
    assert t.id in batch.values;
    assert |batch.values| == 1;
  }

  lemma NumberRuns(x: Index, t: Tag, maximum: nat) returns (states: seq<System>, steps: seq<Step>)
    requires ValidIndex(x) && t in x.model.tags && t.dataType in NUMERIC_TYPES && maximum > 0
    ensures Run(states, steps, maximum) && |states| == 3 && states[2] == AfterCommit(x, t)
  {
    hide ValidModel, IngestFault, Committed;
    NumberAccepted(x, t, maximum);
    states := [StartOf(x.model), AfterBegin(x, t), AfterCommit(x, t)];
    steps := [Begin(0, OneNumber(x, t)), Commit(0, 0)];
    assert Taken(states[0], states[1], steps[0], maximum);
    assert Taken(states[1], states[2], steps[1], maximum);
  }

  /** An alarm can be shown with a value, in some run under its model, exactly if its tag spells its numeric type in
      lower case (and batches may hold a value at all), although the model may spell it in either. */
  lemma AlarmShownExactly(x: Index, a: Alarm, maximum: nat, staleAfter: nat)
    requires ValidIndex(x) && a in x.model.alarms
    ensures a.tagId in x.tags
    ensures ShowsValue(x, a, maximum, staleAfter) <==> x.tags[a.tagId].dataType in NUMERIC_TYPES && maximum > 0
  {
    hide ValidIndex, Run, ReadingOf, Committed;
    AlarmFacts(x);
    TagFacts(x);
    var t := x.tags[a.tagId];
    if ShowsValue(x, a, maximum, staleAfter) {
      var states: seq<System>, steps: seq<Step>, n: nat :| Run(states, steps, maximum) && n < |states| && ShowsIn(states[n], x, a, staleAfter);
      var g: nat, now: nat :| g < |states[n].models| && states[n].models[g] == x.model
                         && AlarmReadingOf(x, states[n].store, g, now, staleAfter)(a).available;
      AvailableIsNumeric(states, steps, maximum, n, g, t, now, staleAfter);
    }
    if t.dataType in NUMERIC_TYPES && maximum > 0 {
      var states, steps := NumberRuns(x, t, maximum);
      NumberShown(x, t, staleAfter);
      assert AlarmReadingOf(x, states[2].store, 0, 0, staleAfter)(a).available;
      assert ShowsIn(states[2], x, a, staleAfter);
    }
  }

  lemma NumberShown(x: Index, t: Tag, staleAfter: nat)
    ensures Available(ReadingOf(AfterCommit(x, t).store, 0, 0, staleAfter, t))
  {
  }

  /** Imported models do not have the trouble: the importer writes types in lower case, so every alarm can be shown. */
  lemma ImportedAlarmsShow(texts: Texts, s: Setup, machine: Machine, x: Index, a: Alarm, maximum: nat, staleAfter: nat)
    requires ImportedTexts(texts, s).Success? && x.model == ModelOf(machine, ImportedTexts(texts, s).value)
    requires ValidIndex(x) && a in x.model.alarms && maximum > 0
    ensures ShowsValue(x, a, maximum, staleAfter)
  {
    hide ImportedTexts, ShowsValue, ValidIndex, BundleSound, TableOf, Settled, ModelOf, Lower;
    TextsSound(texts, s);
    AlarmedNumeric(x, a);
    ImportedLower(machine, ImportedTexts(texts, s).value, x, x.tags[a.tagId]);
    AlarmShownExactly(x, a, maximum, staleAfter);
  }

  lemma ImportedLower(machine: Machine, b: Bundle, x: Index, t: Tag)
    requires BundleSound(b) && ValidIndex(x) && x.model == ModelOf(machine, b) && t in x.model.tags
    ensures Lower(t.dataType) == t.dataType
  {
    hide ValidIndex, AssetGood, RelationshipGood, AlarmGood, SortedById, DistinctIds, Identity, Text, Printable, Lower;
    SortedSame(b.tags, TAG_ID);
    var i :| 0 <= i < |b.tags| && b.tags[i] == t;
    assert TagGood(b, b.tags[i]);
  }

  lemma AlarmedNumeric(x: Index, a: Alarm)
    requires ValidIndex(x) && a in x.model.alarms
    ensures a.tagId in x.tags && x.tags[a.tagId] in x.model.tags && Lower(x.tags[a.tagId].dataType) in NUMERIC_TYPES
  {
    hide ById, AssetFields, TagFields, RelationshipFields, Identity, Text, DistinctIds, Lower;
    TagFacts(x);
    var i :| 0 <= i < |x.model.alarms| && x.model.alarms[i] == a;
    assert AlarmFields(x.model.alarms[i], AssetIds(x.model), TagMap(x.model));
  }

  // An input that tells the spellings apart

  /** One model, two spellings of one type: both are accepted, and only under the lower-case one can the alarm be shown
      with a value. */
  lemma CapitalsSilence(digest: Digest, maximum: nat, staleAfter: nat)
    requires maximum > 0
    ensures var capital, lower := IndexOf(Plant(1, Level("Number", "m"), [HIGH]), digest), IndexOf(Plant(1, Level("number", "m"), [HIGH]), digest);
      && ValidIndex(capital) && ValidIndex(lower)
      && !ShowsValue(capital, HIGH, maximum, staleAfter) && ShowsValue(lower, HIGH, maximum, staleAfter)
  {
    hide ValidModel, ShowsValue, ById;
    forall spelling | spelling == "Number" || spelling == "number"
      ensures var x := IndexOf(Plant(1, Level(spelling, "m"), [HIGH]), digest);
        ValidIndex(x) && (ShowsValue(x, HIGH, maximum, staleAfter) <==> spelling in NUMERIC_TYPES)
    {
      var x := IndexOf(Plant(1, Level(spelling, "m"), [HIGH]), digest);
      PlantValid(x.model, spelling, "m");
      assert HIGH in x.model.alarms;
      AlarmShownExactly(x, HIGH, maximum, staleAfter);
    }
    NotNumeric();
  }

  lemma NotNumeric()
    ensures "Number" !in NUMERIC_TYPES && "number" in NUMERIC_TYPES
  {
    assert "Number"[0] == 'N';
  }
}
