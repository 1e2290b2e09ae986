/** Current values from the machine: batches are validated, committed under the lock, and dropped with their generation. */
module TelemetryStore {
  import opened Model
  import opened Sequences
  import opened Wrappers

  const MAX_SOURCE_ID: nat := 128
  const MAX_TEXT_VALUE: nat := 2048
  const QUALITIES: set<string> := {"good", "uncertain", "bad", "unknown"}

  datatype Value = Number(x: real, integral: bool) | Flag(b: bool) | TextValue(s: string) | Null
  datatype Sample = Sample(value: Value, quality: string, timestamp: nat)
  datatype Batch = Batch(modelId: string, modelRevision: nat, generation: nat, sourceId: string, sequence: nat,
                         values: map<string, Sample>)
  datatype Current = Current(sample: Sample, received: nat, sourceId: string, sequence: nat)

  datatype IngestError = WrongModel | StaleContext | InvalidTelemetry | OutOfOrder

  datatype Store = Store(generation: nat, values: map<string, Current>, sequences: map<string, nat>, acceptedBatches: nat,
                         rejectedBatches: nat, acceptedValues: nat, lastReceived: nat)

  // Validation

  predicate SourceIdentity(s: string) {
    0 < |s| <= MAX_SOURCE_ID
    && forall i :: 0 <= i < |s| ==> Alphanumeric(s[i]) || s[i] == '_' || s[i] == '-' || s[i] == '.'
  }

  /** The type names are compared as they are spelt, although a model may spell them in either case. */
  predicate ValueFits(v: Value, dataType: string) {
    if dataType in NUMERIC_TYPES then v.Number? && (dataType == "integer" ==> v.integral)
    else if dataType == "boolean" || dataType == "bool" then v.Flag?
    else v.TextValue? && |v.s| <= MAX_TEXT_VALUE
  }

  predicate SampleFits(s: Sample, t: Tag) {
    s.quality in QUALITIES && ValueFits(s.value, t.dataType)
  }

  predicate ValuesFit(values: map<string, Sample>, tags: map<string, Tag>) {
    forall k :: k in values ==> k in tags && SampleFits(values[k], tags[k])
  }

  /** What is checked before the lock is taken. */
  ghost function Checked(m: MachineModel, generation: nat, batch: Batch, maximum: nat): Option<IngestError> {
    if !ValidModel(m) then Some(WrongModel)
    else if batch.modelId != m.modelId || batch.modelRevision != m.revision || batch.generation != generation then Some(StaleContext)
    else if !SourceIdentity(batch.sourceId) || batch.values == map[] || |batch.values| > maximum
            || !ValuesFit(batch.values, TagMap(m)) then Some(InvalidTelemetry)
    else None
  }

  // Commit

  function Stamp(batch: Batch, now: nat, keys: set<string>): map<string, Current> {
    map k | k in keys && k in batch.values :: Current(batch.values[k], now, batch.sourceId, batch.sequence)
  }

  predicate Advances(s: Store, batch: Batch) {
    batch.sourceId in s.sequences ==> batch.sequence > s.sequences[batch.sourceId]
  }

  function CommitError(s: Store, generation: nat, batch: Batch): Option<IngestError> {
    if s.generation != generation then Some(StaleContext) else if !Advances(s, batch) then Some(OutOfOrder) else None
  }

  function Committed(s: Store, batch: Batch, now: nat): Store {
    s.(values := s.values + Stamp(batch, now, batch.values.Keys), sequences := s.sequences[batch.sourceId := batch.sequence],
       acceptedBatches := s.acceptedBatches + 1, acceptedValues := s.acceptedValues + |batch.values|, lastReceived := now)
  }

  function Rejected(s: Store): Store {
    s.(rejectedBatches := s.rejectedBatches + 1)
  }

  ghost function IngestFault(s: Store, m: MachineModel, generation: nat, batch: Batch, maximum: nat): Option<IngestError> {
    match Checked(m, generation, batch, maximum)
    case Some(e) => Some(e)
    case None => CommitError(s, generation, batch)
  }

  function Reconfigured(s: Store, generation: nat): Store {
    s.(generation := generation, values := map[], sequences := map[], lastReceived := 0)
  }

  // Reading

  datatype Reading = Reading(value: Value, quality: string, unit: string, age: Option<nat>)

  function Age(now: nat, received: nat): nat {
    if received <= now then now - received else 0
  }

  function ReadingOf(s: Store, generation: nat, now: nat, staleAfter: nat, t: Tag): Reading {
    if s.generation != generation || t.id !in s.values then Reading(Null, "unknown", t.unit, None)
    else
      var c := s.values[t.id];
      var age := Age(now, c.received);
      Reading(c.sample.value, if age > staleAfter && c.sample.quality == "good" then "stale" else c.sample.quality, t.unit, Some(age))
  }

  function Readings(s: Store, generation: nat, now: nat, staleAfter: nat): Tag -> Reading {
    (t: Tag) => ReadingOf(s, generation, now, staleAfter, t)
  }

  predicate OfQuality(readings: seq<Reading>, quality: string) {
    exists i :: 0 <= i < |readings| && readings[i].quality == quality
  }

  /** The quality of the whole. */
  function Overall(readings: seq<Reading>): string {
    if OfQuality(readings, "good") then
      if forall i :: 0 <= i < |readings| ==> readings[i].quality == "good" then "good" else "partial"
    else if OfQuality(readings, "stale") then "stale"
    else "unknown"
  }

  predicate Compare(x: real, operator: string, threshold: real) {
    if operator == ">" then x > threshold
    else if operator == ">=" then x >= threshold
    else if operator == "<" then x < threshold
    else if operator == "<=" then x <= threshold
    else if operator == "==" then x == threshold
    else x != threshold
  }

  predicate Available(r: Reading) {
    r.value.Number? && r.quality != "bad" && r.quality != "unknown"
  }

  predicate Active(r: Reading, a: Alarm) {
    Available(r) && Compare(r.value.x, a.operator, a.threshold)
  }

  datatype AlarmReading = AlarmReading(id: string, available: bool, active: bool)

  function AlarmReadingOf(x: Index, s: Store, generation: nat, now: nat, staleAfter: nat): Alarm -> AlarmReading {
    (a: Alarm) =>
      if a.tagId !in x.tags then AlarmReading(a.id, false, false)
      else
        var r := ReadingOf(s, generation, now, staleAfter, x.tags[a.tagId]);
        AlarmReading(a.id, Available(r), Active(r, a))
  }

  /** The store as the service holds it. */
  class TelemetryValues {
    const staleAfter: nat
    const maximum: nat
    var generation: nat
    var values: map<string, Current>
    var sequences: map<string, nat>
    var acceptedBatches: nat
    var rejectedBatches: nat
    var acceptedValues: nat
    var lastReceived: nat

    ghost function State(): Store
      reads this
    {
      Store(generation, values, sequences, acceptedBatches, rejectedBatches, acceptedValues, lastReceived)
    }

    constructor (interval: nat, limit: nat)
      ensures State() == Store(0, map[], map[], 0, 0, 0, 0) && staleAfter == interval && maximum == limit
    {
      staleAfter, maximum := interval, limit;
      generation, values, sequences := 0, map[], map[];
      acceptedBatches, rejectedBatches, acceptedValues, lastReceived := 0, 0, 0, 0;
    }

    static method CheckValues(values: map<string, Sample>, tags: map<string, Tag>) returns (ok: bool)
      ensures ok <==> ValuesFit(values, tags)
    {
      var remaining := values.Keys;
      while remaining != {}
        invariant remaining <= values.Keys
        invariant forall k :: k in values.Keys - remaining ==> k in tags && SampleFits(values[k], tags[k])
        decreases remaining
      {
        var k :| k in remaining;
        if k !in tags || !SampleFits(values[k], tags[k]) {
          return false;
        }
        remaining := remaining - {k};
      }
      ok := true;
    }

    method Check(m: MachineModel, context: nat, batch: Batch) returns (fault: Option<IngestError>)
      ensures fault == Checked(m, context, batch, maximum)
    {
      hide ValidModel, ValuesFit, SourceIdentity;
      var index := IndexModel(m, Digest(b => "", d => ""));
      if index.Failure? {
        return Some(WrongModel);
      }
      if batch.modelId != m.modelId || batch.modelRevision != m.revision || batch.generation != context {
        return Some(StaleContext);
      }
      if !SourceIdentity(batch.sourceId) || batch.values == map[] || |batch.values| > maximum {
        return Some(InvalidTelemetry);
      }
      var ok := CheckValues(batch.values, index.value.tags);
      fault := if ok then None else Some(InvalidTelemetry);
    }

    method CheckCommit(context: nat, batch: Batch) returns (fault: Option<IngestError>)
      ensures fault == CommitError(State(), context, batch)
    {
      if generation != context {
        return Some(StaleContext);
      }
      fault := if batch.sourceId in sequences && batch.sequence <= sequences[batch.sourceId] then Some(OutOfOrder) else None;
    }

    method CommitBatch(batch: Batch, now: nat)
      modifies this
      ensures State() == Committed(old(State()), batch, now)
    {
      hide Stamp;
      StoreValues(batch, now);
      sequences := sequences[batch.sourceId := batch.sequence];
      acceptedBatches := acceptedBatches + 1;
      acceptedValues := acceptedValues + |batch.values|;
      lastReceived := now;
    }

    /** A batch either commits as a whole or changes nothing but the count of rejections. */
    method Ingest(m: MachineModel, context: nat, batch: Batch, now: nat) returns (fault: Option<IngestError>)
      modifies this
      ensures fault == IngestFault(old(State()), m, context, batch, maximum)
      ensures State() == if fault.None? then Committed(old(State()), batch, now) else Rejected(old(State()))
    {
      hide Committed, CommitError, Checked;
      fault := Check(m, context, batch);
      if fault.None? {
        fault := CheckCommit(context, batch);
      }
      if fault.Some? {
        rejectedBatches := rejectedBatches + 1;
        return;
      }
      CommitBatch(batch, now);
    }

    method StoreValues(batch: Batch, now: nat)
      modifies `values
      ensures values == old(values) + Stamp(batch, now, batch.values.Keys)
    {
      var remaining := batch.values.Keys;
      while remaining != {}
        invariant remaining <= batch.values.Keys
        invariant values == old(values) + Stamp(batch, now, batch.values.Keys - remaining)
        decreases remaining
      {
        var k :| k in remaining;
        ghost var done := batch.values.Keys - remaining;
        remaining := remaining - {k};
        assert batch.values.Keys - remaining == done + {k};
        values := values[k := Current(batch.values[k], now, batch.sourceId, batch.sequence)];
      }
    }

    method Reconfigure(context: nat)
      modifies this
      ensures State() == Reconfigured(old(State()), context)
    {
      values, sequences, generation, lastReceived := map[], map[], context, 0;
    }

    method ReadTag(t: Tag, context: nat, now: nat) returns (reading: Reading)
      ensures reading == ReadingOf(State(), context, now, staleAfter, t)
    {
      reading := Reading(Null, "unknown", t.unit, None);
      if generation == context && t.id in values {
        var c := values[t.id];
        var age := now - (if now <= c.received then now else c.received);
        reading := Reading(c.sample.value, c.sample.quality, t.unit, Some(age));
        if age > staleAfter && reading.quality == "good" {
          reading := reading.(quality := "stale");
        }
      }
    }

    /** The alarms of a snapshot, from the readings of their tags. */
    method SnapshotAlarms(x: Index, context: nat, now: nat) returns (alarms: seq<AlarmReading>)
      requires ValidIndex(x)
      ensures alarms == Map(AlarmReadingOf(x, State(), context, now, staleAfter), x.model.alarms)
    {
      hide ReadingOf, ValidModel, Compare, Map, ById;
      AlarmFacts(x);
      alarms := [];
      MapNothing(AlarmReadingOf(x, State(), context, now, staleAfter), x.model.alarms);
      for i := 0 to |x.model.alarms|
        invariant alarms == Map(AlarmReadingOf(x, State(), context, now, staleAfter), x.model.alarms[..i])
      {
        var a := x.model.alarms[i];
        MapSnoc(AlarmReadingOf(x, State(), context, now, staleAfter), x.model.alarms[..i], a);
        assert x.model.alarms[..i + 1] == x.model.alarms[..i] + [a];
        assert a in x.model.alarms;
        var reading := ReadTag(x.tags[a.tagId], context, now);
        var available := reading.value.Number? && reading.quality != "bad" && reading.quality != "unknown";
        var value := if available then reading.value.x else 0.0;
        alarms := alarms + [AlarmReading(a.id, available, available && Compare(value, a.operator, a.threshold))];
      }
      AllTaken(x.model.alarms);
    }

    method Snapshot(m: MachineModel, context: nat, now: nat) returns (readings: seq<Reading>, quality: string)
      ensures readings == Map(Readings(State(), context, now, staleAfter), m.tags)
      ensures quality == Overall(readings)
    {
      hide ReadingOf, Tallied, Overall;
      readings := [];
      var good, stale, unavailable := 0, 0, 0;
      TallyNone();
      for i := 0 to |m.tags|
        invariant readings == Map(Readings(State(), context, now, staleAfter), m.tags[..i])
        invariant Tallied(readings, good, stale, unavailable)
      {
        MapSnoc(Readings(State(), context, now, staleAfter), m.tags[..i], m.tags[i]);
        assert m.tags[..i + 1] == m.tags[..i] + [m.tags[i]];
        var reading := ReadTag(m.tags[i], context, now);
        TallyOne(readings, good, stale, unavailable, reading);
        if reading.quality == "good" {
          good := good + 1;
        } else if reading.quality == "stale" {
          stale := stale + 1;
        } else {
          unavailable := unavailable + 1;
        }
        readings := readings + [reading];
      }
      assert m.tags[..|m.tags|] == m.tags;
      TallyTells(readings, good, stale, unavailable);
      quality := "unknown";
      if good > 0 && stale == 0 && unavailable == 0 {
        quality := "good";
      } else if good > 0 {
        quality := "partial";
      } else if stale > 0 {
        quality := "stale";
      }
    }
  }

  lemma MapNothing<A, B>(f: A -> B, s: seq<A>)
    ensures Map(f, s[..0]) == []
  {
  }

  /** The three counters, as far as the overall quality depends on them. */
  ghost predicate Tallied(readings: seq<Reading>, good: nat, stale: nat, unavailable: nat) {
    && (good > 0 <==> OfQuality(readings, "good")) && (stale > 0 <==> OfQuality(readings, "stale"))
    && ((stale == 0 && unavailable == 0) <==> forall j :: 0 <= j < |readings| ==> readings[j].quality == "good")
  }

  lemma TallyNone()
    ensures Tallied([], 0, 0, 0)
  {
  }

  lemma TallyOne(readings: seq<Reading>, good: nat, stale: nat, unavailable: nat, r: Reading)
    requires Tallied(readings, good, stale, unavailable)
    ensures var longer := readings + [r];
      if r.quality == "good" then Tallied(longer, good + 1, stale, unavailable)
      else if r.quality == "stale" then Tallied(longer, good, stale + 1, unavailable)
      else Tallied(longer, good, stale, unavailable + 1)
  {
    hide OfQuality;
    var longer := readings + [r];
    QualitySnoc(readings, r);
    assert longer[|readings|] == r;
    assert (forall j :: 0 <= j < |longer| ==> longer[j].quality == "good")
      <==> r.quality == "good" && forall j :: 0 <= j < |readings| ==> readings[j].quality == "good" by {
      assert forall j :: 0 <= j < |readings| ==> longer[j] == readings[j];
    }
  }

  lemma TallyTells(readings: seq<Reading>, good: nat, stale: nat, unavailable: nat)
    requires Tallied(readings, good, stale, unavailable)
    ensures Overall(readings) == if good > 0 && stale == 0 && unavailable == 0 then "good" else if good > 0 then "partial"
                                 else if stale > 0 then "stale" else "unknown"
  {
    hide OfQuality;
  }

  lemma QualitySnoc(readings: seq<Reading>, r: Reading)
    ensures forall q :: OfQuality(readings + [r], q) <==> OfQuality(readings, q) || r.quality == q
  {
    forall q ensures OfQuality(readings + [r], q) <==> OfQuality(readings, q) || r.quality == q {
      if OfQuality(readings, q) {
        var i :| 0 <= i < |readings| && readings[i].quality == q;
        assert (readings + [r])[i].quality == q;
      }
      assert (readings + [r])[|readings|] == r;
    }
  }
}
