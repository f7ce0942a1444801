/**
 * The sensor-list editor (src/customEditors/EditorSensorList.tsx). It edits
 * the very array the host handed it: replacing an entry, splicing one out or
 * pushing a default sensor, and after each edit it passes that same array to
 * the host's `onChange`.
 */
module EditorSensorList {
  import opened Wrappers
  import opened Types

  /** The sensor the "Add New" button appends. */
  function DefaultNewSensor(): (s: Sensor)
    ensures s.position == Position(50.0, 50.0)
    ensures s.mappingIds == []
    ensures s.query == Query("A", "")
    ensures s.visible && s.decimals == 2 && s.unit == None
    ensures !s.valueBlink && !s.backgroundBlink && !s.bold
  {
    Sensor(
      name := "Name",
      query := Query("A", ""),
      visible := true,
      backgroundColor := "#000",
      fontColor := "#FFF",
      bold := false,
      link := "",
      position := Position(50.0, 50.0),
      mappingIds := [],
      unit := None,
      decimals := 2,
      valueBlink := false,
      iconName := "",
      backgroundBlink := false)
  }

  /** `sensors[index] = sensor`, for an index inside the list. */
  function Replaced(sensors: seq<Sensor>, index: nat, sensor: Sensor): (r: seq<Sensor>)
    requires index < |sensors|
    ensures |r| == |sensors|
    ensures r[index] == sensor
    ensures forall j :: 0 <= j < |sensors| && j != index ==> r[j] == sensors[j]
  {
    sensors[index := sensor]
  }

  /** `sensors.splice(index, 1)`, for an index inside the list. */
  function Spliced(sensors: seq<Sensor>, index: nat): (r: seq<Sensor>)
    requires index < |sensors|
    ensures |r| == |sensors| - 1
    ensures forall j :: 0 <= j < index ==> r[j] == sensors[j]
    ensures forall j :: index <= j < |r| ==> r[j] == sensors[j + 1]
  {
    sensors[..index] + sensors[index + 1..]
  }

  /** `sensors.push(sensor)`. */
  function Pushed(sensors: seq<Sensor>, sensor: Sensor): (r: seq<Sensor>)
    ensures |r| == |sensors| + 1
    ensures r[..|sensors|] == sensors
    ensures r[|sensors|] == sensor
  {
    sensors + [sensor]
  }

  /** Splicing out the entry just pushed gives back the list as it was. */
  lemma SpliceUndoesPush(sensors: seq<Sensor>, sensor: Sensor)
    ensures Spliced(Pushed(sensors, sensor), |sensors|) == sensors
  {
  }

  /** Splicing keeps every entry but one, in the same relative order. */
  lemma SplicedKeepsOrder(sensors: seq<Sensor>, index: nat, i: nat, j: nat)
    requires index < |sensors|
    requires i < j < |sensors| && i != index && j != index
    ensures
      var i', j' := if i < index then i else i - 1, if j < index then j else j - 1;
      i' < j' < |Spliced(sensors, index)| &&
      Spliced(sensors, index)[i'] == sensors[i] && Spliced(sensors, index)[j'] == sensors[j]
  {
  }

  /** A JavaScript array object: its identity is shared, its contents change in place. */
  class SensorArray {
    var items: seq<Sensor>

    constructor (items: seq<Sensor>)
      ensures this.items == items
    {
      this.items := items;
    }
  }

  /**
   * The editor over the host's array `sensors`. `notified` lists, in call
   * order, each call to `onChange`: the array passed and the contents it
   * held at the moment of the call.
   */
  class SensorListEditor {
    const sensors: SensorArray
    var notified: seq<(SensorArray, seq<Sensor>)>

    constructor (value: SensorArray)
      ensures sensors == value && notified == []
    {
      sensors := value;
      notified := [];
    }

    /** Replace entry `index`, then notify with the same array. */
    method OnSensorChange(sensor: Sensor, index: nat)
      requires index < |sensors.items|
      modifies sensors, this
      ensures sensors.items == Replaced(old(sensors.items), index, sensor)
      ensures notified == old(notified) + [(sensors, sensors.items)]
    {
      sensors.items := sensors.items[index := sensor];
      notified := notified + [(sensors, sensors.items)];
    }

    /** Remove entry `index`, then notify with the same array. */
    method OnSensorDelete(index: nat)
      requires index < |sensors.items|
      modifies sensors, this
      ensures sensors.items == Spliced(old(sensors.items), index)
      ensures notified == old(notified) + [(sensors, sensors.items)]
    {
      sensors.items := sensors.items[..index] + sensors.items[index + 1..];
      notified := notified + [(sensors, sensors.items)];
    }

    /** Append the default sensor, then notify with the same array. */
    method AddNewSensor()
      modifies sensors, this
      ensures sensors.items == Pushed(old(sensors.items), DefaultNewSensor())
      ensures notified == old(notified) + [(sensors, sensors.items)]
    {
      sensors.items := sensors.items + [DefaultNewSensor()];
      notified := notified + [(sensors, sensors.items)];
    }
  }

  /** Adding a sensor and then deleting the last entry leaves the host's list as it was, after two notifications. */
  method AddThenDeleteLast(editor: SensorListEditor)
    modifies editor, editor.sensors
    ensures editor.sensors.items == old(editor.sensors.items)
    ensures |editor.notified| == |old(editor.notified)| + 2 && editor.notified[..|old(editor.notified)|] == old(editor.notified)
    ensures editor.notified[|old(editor.notified)|] == (editor.sensors, Pushed(old(editor.sensors.items), DefaultNewSensor()))
    ensures editor.notified[|old(editor.notified)| + 1] == (editor.sensors, old(editor.sensors.items))
  {
    editor.AddNewSensor();
    editor.OnSensorDelete(|editor.sensors.items| - 1);
    SpliceUndoesPush(old(editor.sensors.items), DefaultNewSensor());
  }
}
