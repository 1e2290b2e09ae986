/** The small machine models that concrete instances are about: a tank, its level, and one alarm or two; and a
    machine with nothing on it. */
module ExampleModels {
  import opened Model
  import opened Wrappers

  const TANK := Asset("tank", "Tank", "vessel", None)
  const PROBE := Source("s", "n", "i")
  const HIGH := Alarm("high", "tank", "High", "level", ">", 90.0, "high")
  const LATE := Alarm("late", "tank", "Late", "level", ">", 95.0, "high")

  function Level(dataType: string, unit: string): Tag {
    Tag("level", "tank", "Level", "level", dataType, unit, PROBE)
  }

  function Plant(revision: nat, level: Tag, alarms: seq<Alarm>): MachineModel {
    MachineModel("plant", revision, "Plant", [TANK], [], [level], alarms)
  }

  const BEFORE := Plant(1, Level("number", "m"), [HIGH])
  const AFTER := Plant(2, Level("number", "cm"), [HIGH, LATE])

  /** A machine with nothing on it. */
  const BARE := MachineModel("p", 1, "P", [], [], [], [])

  lemma BareValid()
    ensures ValidModel(BARE)
  {
  }

  lemma LowerWords()
    ensures Lower("number") == "number" && Lower("Number") == "number" && Lower("level") == "level" && Lower("high") == "high"
  {
    assert Lower("number") == ['n', 'u', 'm', 'b', 'e', 'r'];
    assert Lower("Number") == ['n', 'u', 'm', 'b', 'e', 'r'];
    assert Lower("level") == ['l', 'e', 'v', 'e', 'l'];
    assert Lower("high") == ['h', 'i', 'g', 'h'];
  }

  lemma TankIds()
    ensures ById([TANK], ASSET_ID) == map["tank" := TANK]
  {
    assert [TANK][..0] == [];
  }

  lemma LevelMap(level: Tag)
    requires level.id == "level"
    ensures ById([level], TAG_ID) == map["level" := level]
  {
    assert [level][..0] == [];
  }

  lemma TankValid()
    ensures AssetFields(TANK)
  {
  }

  lemma LevelValid(dataType: string, unit: string)
    requires (dataType == "number" || dataType == "Number") && (unit == "m" || unit == "cm")
    ensures TagFields(Level(dataType, unit), {"tank"})
  {
    hide Lower;
    LowerWords();
  }

  lemma AlarmsValid(dataType: string, unit: string)
    requires dataType == "number" || dataType == "Number"
    ensures AlarmFields(HIGH, {"tank"}, map["level" := Level(dataType, unit)])
    ensures AlarmFields(LATE, {"tank"}, map["level" := Level(dataType, unit)])
  {
    hide Lower;
    LowerWords();
  }

  lemma PlantNamed()
    ensures Identity("plant") && Text("Plant")
  {
  }

  lemma AlarmsDistinct()
    ensures DistinctIds([HIGH], ALARM_ID) && DistinctIds([HIGH, LATE], ALARM_ID)
  {
    assert HIGH.id[0] != LATE.id[0];
  }

  lemma PlantValid(m: MachineModel, dataType: string, unit: string)
    requires (dataType == "number" || dataType == "Number") && (unit == "m" || unit == "cm")
    requires m == Plant(m.revision, Level(dataType, unit), m.alarms) && m.revision <= 2 && (m.alarms == [HIGH] || m.alarms == [HIGH, LATE])
    ensures ValidModel(m) && TagMap(m) == map["level" := Level(dataType, unit)]
  {
    hide ById, AssetFields, TagFields, AlarmFields, RelationshipFields, Identity, Text;
    PlantNamed();
    TankIds();
    TankValid();
    LevelMap(Level(dataType, unit));
    LevelValid(dataType, unit);
    AlarmsValid(dataType, unit);
    AlarmsDistinct();
    assert AssetIds(m) == {"tank"};
    assert m.tags[0] == Level(dataType, unit) && m.assets[0] == TANK && m.alarms[0] == HIGH;
    assert |m.alarms| > 1 ==> m.alarms[1] == LATE;
  }
}
