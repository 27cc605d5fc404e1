/** The sensor platform (custom_components/eight_sleep_local/sensor.py): a
    static table of attributes, the entities set up from it per side, how an
    entity reads its value out of the newest status document, and the names
    and identifiers the entities are registered under. */
module Sensor {
  import opened Json
  import opened Text
  import opened Client
  import opened ConfigFlow

  /** One `SENSOR_TYPES` entry. */
  datatype SensorInfo = SensorInfo(
    name: string,
    unit: Option<string>,
    jsonKey: string,
    deviceClass: Option<string>,
    binary: bool)

  const DeviceClassTemperature: string := "temperature"

  const SensorTypes: map<string, SensorInfo> := map[
    "current_temp_f" := SensorInfo("Current Temperature (F)", Some("\U{00B0}F"), "currentTemperatureF", Some(DeviceClassTemperature), false),
    "target_temp_f" := SensorInfo("Target Temperature (F)", Some("\U{00B0}F"), "targetTemperatureF", Some(DeviceClassTemperature), false),
    "seconds_remaining" := SensorInfo("Seconds Remaining", Some("s"), "secondsRemaining", None, false),
    "is_alarm_vibrating" := SensorInfo("Alarm Vibrating", None, "isAlarmVibrating", None, true),
    "is_on" := SensorInfo("Device On", None, "isOn", None, true),
    "is_priming" := SensorInfo("Is Priming", None, "isPriming", None, true),
    "water_level" := SensorInfo("Water Level", None, "waterLevel", None, true)
  ]

  const LeftAttributes: seq<string> :=
    ["current_temp_f", "target_temp_f", "seconds_remaining", "is_alarm_vibrating", "is_on"]
  const RightAttributes: seq<string> := LeftAttributes
  const HubAttributes: seq<string> := ["is_priming", "water_level"]

  /** The sides the value lookups know about. */
  predicate KnownSide(side: string) { side == "left" || side == "right" || side == "hub" }

  datatype EntityKind = ValueSensor | BinarySensor

  /** A constructed entity: which class, and the (side, attribute) it reads. */
  datatype Entity = Entity(kind: EntityKind, side: string, attributeKey: string)

  /** `create_entity`: a binary sensor exactly when the table marks the attribute binary. */
  function CreateEntity(side: string, attributeKey: string): (e: Entity)
    requires attributeKey in SensorTypes
    ensures e.side == side && e.attributeKey == attributeKey
    ensures e.kind == BinarySensor <==> SensorTypes[attributeKey].binary
  {
    if SensorTypes[attributeKey].binary then Entity(BinarySensor, side, attributeKey)
    else Entity(ValueSensor, side, attributeKey)
  }

  /** `[create_entity(side, a) for a in attrs if a in SENSOR_TYPES]`. */
  function EntitiesFor(side: string, attrs: seq<string>): (es: seq<Entity>)
    ensures |es| <= |attrs|
  {
    if attrs == [] then []
    else
      var rest := EntitiesFor(side, attrs[1..]);
      if attrs[0] in SensorTypes then [CreateEntity(side, attrs[0])] + rest else rest
  }

  /** The comprehension keeps only listed attributes that have a table entry,
      each for the given side. */
  lemma {:induction false} EntitiesForMembers(side: string, attrs: seq<string>)
    ensures forall e :: e in EntitiesFor(side, attrs) ==>
              e.side == side && e.attributeKey in attrs && e.attributeKey in SensorTypes
  {
    if attrs != [] {
      EntitiesForMembers(side, attrs[1..]);
      assert forall a :: a in attrs[1..] ==> a in attrs;
    }
  }

  /** When every listed attribute has a table entry, the comprehension makes one
      entity per attribute, in order. */
  lemma {:induction false} EntitiesForAllKnown(side: string, attrs: seq<string>)
    requires forall a :: a in attrs ==> a in SensorTypes
    ensures |EntitiesFor(side, attrs)| == |attrs|
    ensures forall i :: 0 <= i < |attrs| ==> EntitiesFor(side, attrs)[i] == CreateEntity(side, attrs[i])
  {
    if attrs != [] {
      assert attrs[0] in attrs;
      assert forall a :: a in attrs[1..] ==> a in attrs;
      EntitiesForAllKnown(side, attrs[1..]);
      var rest := EntitiesFor(side, attrs[1..]);
      assert EntitiesFor(side, attrs) == [CreateEntity(side, attrs[0])] + rest;
    }
  }

  lemma EntitiesForStep(side: string, a: string, rest: seq<string>)
    requires a in SensorTypes
    ensures EntitiesFor(side, [a] + rest) == [CreateEntity(side, a)] + EntitiesFor(side, rest)
  {
    assert ([a] + rest)[1..] == rest;
  }

  /** What a bed side gets: three value sensors, then two binary sensors. */
  function BedSideEntities(side: string): seq<Entity>
  {
    [Entity(ValueSensor, side, "current_temp_f"), Entity(ValueSensor, side, "target_temp_f"),
     Entity(ValueSensor, side, "seconds_remaining"), Entity(BinarySensor, side, "is_alarm_vibrating"),
     Entity(BinarySensor, side, "is_on")]
  }

  /** What the hub gets: two binary sensors. */
  const HubEntities: seq<Entity> :=
    [Entity(BinarySensor, "hub", "is_priming"), Entity(BinarySensor, "hub", "water_level")]

  lemma BedSideSetup(side: string)
    ensures EntitiesFor(side, LeftAttributes) == BedSideEntities(side)
  {
    var a := LeftAttributes;
    assert a == [a[0]] + ([a[1]] + ([a[2]] + ([a[3]] + ([a[4]] + []))));
    EntitiesForStep(side, a[4], []);
    EntitiesForStep(side, a[3], [a[4]] + []);
    EntitiesForStep(side, a[2], [a[3]] + ([a[4]] + []));
    EntitiesForStep(side, a[1], [a[2]] + ([a[3]] + ([a[4]] + [])));
    EntitiesForStep(side, a[0], [a[1]] + ([a[2]] + ([a[3]] + ([a[4]] + []))));
  }

  lemma HubSetup()
    ensures EntitiesFor("hub", HubAttributes) == HubEntities
  {
    var a := HubAttributes;
    assert a == [a[0]] + ([a[1]] + []);
    EntitiesForStep("hub", a[1], []);
    EntitiesForStep("hub", a[0], [a[1]] + []);
  }

  /** The entities `async_setup_entry` adds, left, then right, then hub; the
      kinds follow the table's binary flags. */
  function SetupEntities(): (es: seq<Entity>)
    ensures es == BedSideEntities("left") + BedSideEntities("right") + HubEntities
  {
    BedSideSetup("left");
    BedSideSetup("right");
    HubSetup();
    EntitiesFor("left", LeftAttributes) + EntitiesFor("right", RightAttributes)
      + EntitiesFor("hub", HubAttributes)
  }

  /** How many of `es` are of `kind` on `side`. */
  function CountOf(es: seq<Entity>, side: string, kind: EntityKind): nat
  {
    if es == [] then 0
    else (if es[0].side == side && es[0].kind == kind then 1 else 0) + CountOf(es[1..], side, kind)
  }

  lemma {:induction false} CountOfAppend(a: seq<Entity>, b: seq<Entity>, side: string, kind: EntityKind)
    ensures CountOf(a + b, side, kind) == CountOf(a, side, kind) + CountOf(b, side, kind)
  {
    if a == [] {
      assert a + b == b;
    } else {
      CountOfAppend(a[1..], b, side, kind);
      assert (a + b)[1..] == a[1..] + b;
    }
  }

  lemma CountOfCons(x: Entity, rest: seq<Entity>, side: string, kind: EntityKind)
    ensures CountOf([x] + rest, side, kind) ==
              (if x.side == side && x.kind == kind then 1 else 0) + CountOf(rest, side, kind)
  {
    assert ([x] + rest)[1..] == rest;
  }

  /** The count over a five-element list, written out. */
  lemma CountOfFive(e: seq<Entity>, s: string, k: EntityKind)
    requires |e| == 5
    ensures CountOf(e, s, k) ==
              (if e[0].side == s && e[0].kind == k then 1 else 0) + (if e[1].side == s && e[1].kind == k then 1 else 0)
              + (if e[2].side == s && e[2].kind == k then 1 else 0) + (if e[3].side == s && e[3].kind == k then 1 else 0)
              + (if e[4].side == s && e[4].kind == k then 1 else 0)
  {
    assert e == [e[0]] + ([e[1]] + ([e[2]] + ([e[3]] + ([e[4]] + []))));
    CountOfCons(e[4], [], s, k);
    CountOfCons(e[3], [e[4]] + [], s, k);
    CountOfCons(e[2], [e[3]] + ([e[4]] + []), s, k);
    CountOfCons(e[1], [e[2]] + ([e[3]] + ([e[4]] + [])), s, k);
    CountOfCons(e[0], [e[1]] + ([e[2]] + ([e[3]] + ([e[4]] + []))), s, k);
  }

  /** A bed side's entities: three value sensors and two binary sensors on
      that side, none on any other. */
  lemma BedSideCounts(side: string, other: string)
    requires other != side
    ensures CountOf(BedSideEntities(side), side, ValueSensor) == 3
    ensures CountOf(BedSideEntities(side), side, BinarySensor) == 2
    ensures CountOf(BedSideEntities(side), other, ValueSensor) == 0
    ensures CountOf(BedSideEntities(side), other, BinarySensor) == 0
  {
    var e := BedSideEntities(side);
    CountOfFive(e, side, ValueSensor);
    CountOfFive(e, side, BinarySensor);
    CountOfFive(e, other, ValueSensor);
    CountOfFive(e, other, BinarySensor);
  }

  /** The hub's entities: two binary sensors on the hub, none elsewhere. */
  lemma HubCounts(other: string)
    requires other != "hub"
    ensures CountOf(HubEntities, "hub", ValueSensor) == 0
    ensures CountOf(HubEntities, "hub", BinarySensor) == 2
    ensures CountOf(HubEntities, other, ValueSensor) == 0
    ensures CountOf(HubEntities, other, BinarySensor) == 0
  {
    var e := HubEntities;
    assert e == [e[0]] + ([e[1]] + []);
    CountOfCons(e[1], [], "hub", ValueSensor);
    CountOfCons(e[0], [e[1]] + [], "hub", ValueSensor);
    CountOfCons(e[1], [], "hub", BinarySensor);
    CountOfCons(e[0], [e[1]] + [], "hub", BinarySensor);
    CountOfCons(e[1], [], other, ValueSensor);
    CountOfCons(e[0], [e[1]] + [], other, ValueSensor);
    CountOfCons(e[1], [], other, BinarySensor);
    CountOfCons(e[0], [e[1]] + [], other, BinarySensor);
  }

  /** Counting over the three blocks setup concatenates. */
  lemma CountOfBlocks(l: seq<Entity>, r: seq<Entity>, h: seq<Entity>, side: string, kind: EntityKind)
    ensures CountOf(l + r + h, side, kind) == CountOf(l, side, kind) + CountOf(r, side, kind) + CountOf(h, side, kind)
  {
    CountOfAppend(l + r, h, side, kind);
    CountOfAppend(l, r, side, kind);
  }

  /** The counts over two bed sides' blocks followed by the hub's block. */
  lemma BlockCounts(es: seq<Entity>, a: string, b: string)
    requires a != b && a != "hub" && b != "hub"
    requires es == BedSideEntities(a) + BedSideEntities(b) + HubEntities
    ensures |es| == 12
    ensures CountOf(es, a, ValueSensor) == 3 && CountOf(es, a, BinarySensor) == 2
    ensures CountOf(es, b, ValueSensor) == 3 && CountOf(es, b, BinarySensor) == 2
    ensures CountOf(es, "hub", ValueSensor) == 0 && CountOf(es, "hub", BinarySensor) == 2
  {
    var l, r, h := BedSideEntities(a), BedSideEntities(b), HubEntities;
    BedSideCounts(a, b);
    BedSideCounts(a, "hub");
    BedSideCounts(b, a);
    BedSideCounts(b, "hub");
    HubCounts(a);
    HubCounts(b);
    CountOfBlocks(l, r, h, a, ValueSensor);
    CountOfBlocks(l, r, h, a, BinarySensor);
    CountOfBlocks(l, r, h, b, ValueSensor);
    CountOfBlocks(l, r, h, b, BinarySensor);
    CountOfBlocks(l, r, h, "hub", ValueSensor);
    CountOfBlocks(l, r, h, "hub", BinarySensor);
  }

  /** Setup makes twelve entities: per bed side three value sensors and two
      binary sensors, and two binary sensors for the hub. */
  lemma SetupEntityCounts(es: seq<Entity>)
    requires es == SetupEntities()
    ensures |es| == 12
    ensures CountOf(es, "left", ValueSensor) == 3 && CountOf(es, "left", BinarySensor) == 2
    ensures CountOf(es, "right", ValueSensor) == 3 && CountOf(es, "right", BinarySensor) == 2
    ensures CountOf(es, "hub", ValueSensor) == 0 && CountOf(es, "hub", BinarySensor) == 2
  {
    BlockCounts(es, "left", "right");
  }

  /** `f"eight_sleep_{side}_{attribute_key}"`. */
  function UniqueId(side: string, attributeKey: string): (id: string)
    ensures |id| == 13 + |side| + |attributeKey| && id[..12] == "eight_sleep_"
  {
    "eight_sleep_" + side + "_" + attributeKey
  }

  /** Sides without an underscore keep unique ids apart: different (side,
      attribute) pairs never share one. */
  lemma UniqueIdInjective(s1: string, k1: string, s2: string, k2: string)
    requires '_' !in s1 && '_' !in s2
    requires UniqueId(s1, k1) == UniqueId(s2, k2)
    ensures s1 == s2 && k1 == k2
  {
    var p := "eight_sleep_";
    assert UniqueId(s1, k1) == p + (s1 + "_" + k1);
    assert UniqueId(s2, k2) == p + (s2 + "_" + k2);
    assert s1 + "_" + k1 == UniqueId(s1, k1)[|p|..] == s2 + "_" + k2;
    SplitAtFirst(s1, k1, s2, k2, '_');
  }

  lemma UniqueIdsDiffer(s1: string, k1: string, s2: string, k2: string)
    requires '_' !in s1 && '_' !in s2
    requires s1 != s2 || k1 != k2
    ensures UniqueId(s1, k1) != UniqueId(s2, k2)
  {
    if UniqueId(s1, k1) == UniqueId(s2, k2) {
      UniqueIdInjective(s1, k1, s2, k2);
    }
  }

  function IdOf(e: Entity): string { UniqueId(e.side, e.attributeKey) }

  /** No two entities of `es` share a unique id. */
  ghost predicate IdsDistinct(es: seq<Entity>)
  {
    forall i, j :: 0 <= i < j < |es| ==> IdOf(es[i]) != IdOf(es[j])
  }

  /** No entity of `a` shares a unique id with one of `b`. */
  ghost predicate IdsApart(a: seq<Entity>, b: seq<Entity>)
  {
    forall i, j :: 0 <= i < |a| && 0 <= j < |b| ==> IdOf(a[i]) != IdOf(b[j])
  }

  lemma IdsDistinctAppend(a: seq<Entity>, b: seq<Entity>)
    requires IdsDistinct(a) && IdsDistinct(b) && IdsApart(a, b)
    ensures IdsDistinct(a + b)
  {
    forall i, j | 0 <= i < j < |a + b| ensures IdOf((a + b)[i]) != IdOf((a + b)[j]) {
      if j < |a| {
        assert (a + b)[i] == a[i] && (a + b)[j] == a[j];
      } else if i < |a| {
        assert (a + b)[i] == a[i] && (a + b)[j] == b[j - |a|];
      } else {
        assert (a + b)[i] == b[i - |a|] && (a + b)[j] == b[j - |a|];
      }
    }
  }

  /** Entities on two different underscore-free sides never share a unique id. */
  lemma SidesApart(a: seq<Entity>, sa: string, b: seq<Entity>, sb: string)
    requires '_' !in sa && '_' !in sb && sa != sb
    requires forall i :: 0 <= i < |a| ==> a[i].side == sa
    requires forall j :: 0 <= j < |b| ==> b[j].side == sb
    ensures IdsApart(a, b)
  {
    forall i, j | 0 <= i < |a| && 0 <= j < |b| ensures IdOf(a[i]) != IdOf(b[j]) {
      UniqueIdsDiffer(sa, a[i].attributeKey, sb, b[j].attributeKey);
    }
  }

  lemma IdsApartAppend(a: seq<Entity>, b: seq<Entity>, c: seq<Entity>)
    requires IdsApart(a, c) && IdsApart(b, c)
    ensures IdsApart(a + b, c)
  {
    forall i, j | 0 <= i < |a + b| && 0 <= j < |c| ensures IdOf((a + b)[i]) != IdOf(c[j]) {
      if i < |a| {
        assert (a + b)[i] == a[i];
      } else {
        assert (a + b)[i] == b[i - |a|];
      }
    }
  }

  /** Within one side the attribute ids have different lengths, so the unique
      ids do too. */
  lemma BedSideIdsDistinct(side: string)
    ensures IdsDistinct(BedSideEntities(side))
  {
    var e := BedSideEntities(side);
    var lengths := [14, 13, 17, 18, 5];
    assert forall i :: 0 <= i < 5 ==> |IdOf(e[i])| == 13 + |side| + lengths[i];
  }

  lemma HubIdsDistinct()
    ensures IdsDistinct(HubEntities)
  {
    assert |IdOf(HubEntities[0])| != |IdOf(HubEntities[1])|;
  }

  /** Two underscore-free bed sides and the hub: no two entities share a unique id. */
  lemma BlockIdsDistinct(es: seq<Entity>, a: string, b: string)
    requires '_' !in a && '_' !in b
    requires a != b && a != "hub" && b != "hub"
    requires es == BedSideEntities(a) + BedSideEntities(b) + HubEntities
    ensures IdsDistinct(es)
  {
    var l, r, h := BedSideEntities(a), BedSideEntities(b), HubEntities;
    assert '_' !in "hub";
    BedSideIdsDistinct(a);
    BedSideIdsDistinct(b);
    HubIdsDistinct();
    SidesApart(l, a, r, b);
    SidesApart(l, a, h, "hub");
    SidesApart(r, b, h, "hub");
    IdsDistinctAppend(l, r);
    IdsApartAppend(l, r, h);
    IdsDistinctAppend(l + r, h);
  }

  /** The twelve entities set up have twelve different unique ids. */
  lemma SetupUniqueIdsDistinct(es: seq<Entity>)
    requires es == SetupEntities()
    ensures IdsDistinct(es)
  {
    BlockIdsDistinct(es, "left", "right");
  }

  /** `f"Eight Sleep {side.capitalize()} {friendly_name}"`. */
  function EntityName(side: string, attributeKey: string): (name: string)
    requires attributeKey in SensorTypes
    ensures |name| == 13 + |side| + |SensorTypes[attributeKey].name|
    ensures name[..12] == "Eight Sleep "
    ensures name[12..12 + |side|] == Capitalize(side) && name[12 + |side|] == ' '
    ensures name[|name| - |SensorTypes[attributeKey].name|..] == SensorTypes[attributeKey].name
  {
    "Eight Sleep " + Capitalize(side) + " " + SensorTypes[attributeKey].name
  }

  /** The three sides display as Left, Right and Hub. */
  lemma SideDisplayNames()
    ensures Capitalize("left") == "Left"
    ensures Capitalize("right") == "Right"
    ensures Capitalize("hub") == "Hub"
  {
  }

  /** `f"eight_sleep_{side}_device_{host}_{port}"`, the device-registry identifier. */
  function DeviceIdentifier(side: string, host: string, port: int): (id: string)
    ensures |id| > 12 && id[..12] == "eight_sleep_"
  {
    "eight_sleep_" + side + "_device_" + host + "_" + IntString(port)
  }

  /** The identifier with everything before the port cut off. */
  lemma DeviceIdentifierParts(side: string, host: string, port: int)
    ensures DeviceIdentifier(side, host, port) ==
              "eight_sleep_" + (side + "_" + ("device_" + host)) + "_" + IntString(port)
  {
  }

  lemma DropPrefix(p: string, a: string, b: string)
    requires p + a == p + b
    ensures a == b
  {
    assert a == (p + a)[|p|..];
    assert b == (p + b)[|p|..];
  }

  /** Two devices share an identifier only when side, host and port all agree
      (for sides without an underscore, whatever the host contains). */
  lemma DeviceIdentifierInjective(s1: string, h1: string, p1: int, s2: string, h2: string, p2: int)
    requires '_' !in s1 && '_' !in s2
    requires DeviceIdentifier(s1, h1, p1) == DeviceIdentifier(s2, h2, p2)
    ensures s1 == s2 && h1 == h2 && p1 == p2
  {
    var pre, dev := "eight_sleep_", "device_";
    var ps1, ps2 := IntString(p1), IntString(p2);
    var x1, x2 := pre + (s1 + "_" + (dev + h1)), pre + (s2 + "_" + (dev + h2));
    DeviceIdentifierParts(s1, h1, p1);
    DeviceIdentifierParts(s2, h2, p2);
    assert '_' !in ps1 && '_' !in ps2;
    SplitAtLast(x1, ps1, x2, ps2, '_');
    IntStringInjective(p1, p2);
    DropPrefix(pre, s1 + "_" + (dev + h1), s2 + "_" + (dev + h2));
    SplitAtFirst(s1, dev + h1, s2, dev + h2, '_');
    DropPrefix(dev, h1, h2);
  }

  /** `self.coordinator.data or {}`. */
  function OrEmpty(data: Json): (d: Json)
    ensures Truthy(data) ==> d == data
    ensures !Truthy(data) ==> d == EmptyObject
  {
    if Truthy(data) then data else EmptyObject
  }

  /** `EightSleepSensor.native_value` for an entity on `side` reading `attributeKey`. */
  function NativeValue(data: Json, side: string, attributeKey: string): (r: Outcome<Json>)
    requires attributeKey in SensorTypes
    ensures !KnownSide(side) ==> r == Ok(JNull)
    ensures !Truthy(data) ==> r == Ok(JNull)
    ensures var k := SensorTypes[attributeKey].jsonKey;
            side == "hub" && data.JObj? ==> r == Ok(if k in data.fields then data.fields[k] else JNull)
    ensures (side == "left" || side == "right") && data.JObj? && side !in data.fields ==> r == Ok(JNull)
    ensures var k := SensorTypes[attributeKey].jsonKey;
            (side == "left" || side == "right") && data.JObj? && side in data.fields && data.fields[side].JObj? ==>
              r == Ok(if k in data.fields[side].fields then data.fields[side].fields[k] else JNull)
    ensures r.Raises? <==>
              KnownSide(side) && Truthy(data) &&
              (!data.JObj? || (side != "hub" && side in data.fields && !data.fields[side].JObj?))
  {
    var d := OrEmpty(data);
    var jsonKey := SensorTypes[attributeKey].jsonKey;
    if side == "left" || side == "right" then GetIn(d, side, jsonKey, JNull)
    else if side == "hub" then Get(d, jsonKey, JNull)
    else Ok(JNull)
  }

  /** `bool(...)` applied to whatever an evaluation produced. */
  function TruthOf(o: Outcome<Json>): (r: Outcome<bool>)
    ensures o.Ok? <==> r.Ok?
    ensures o.Ok? ==> r.value == Truthy(o.value)
    ensures o.Raises? ==> r.error == o.error
  {
    match o
    case Ok(v) => Ok(Truthy(v))
    case Raises(e) => Raises(e)
  }

  /** `EightSleepBinarySensor.is_on`: the truthiness of the raw value; `value`
      is never bound for a side other than left, right or hub. */
  function IsOn(data: Json, side: string, attributeKey: string): (r: Outcome<bool>)
    requires attributeKey in SensorTypes
    ensures !KnownSide(side) ==> r == Raises(UnboundLocalError)
    ensures KnownSide(side) ==> r == TruthOf(NativeValue(data, side, attributeKey))
  {
    var d := OrEmpty(data);
    var jsonKey := SensorTypes[attributeKey].jsonKey;
    var value :=
      if side == "left" || side == "right" then GetIn(d, side, jsonKey, JNull)
      else if side == "hub" then Get(d, jsonKey, JNull)
      else Raises(UnboundLocalError);
    TruthOf(value)
  }

  /** The hub's water level reads on for any non-empty string, "false" included:
      the value is not compared with "true". */
  lemma WaterLevelReadsTruthiness(s: string)
    ensures IsOn(JObj(map["waterLevel" := JStr(s)]), "hub", "water_level") == Ok(s != "")
    ensures IsOn(JObj(map["waterLevel" := JStr("false")]), "hub", "water_level") == Ok(true)
  {
    var doc := JObj(map["waterLevel" := JStr(s)]);
    assert Truthy(doc);
  }

  /** With no document (`None`) or an empty one, every value is `None` and every
      binary sensor is off. */
  lemma NoDataReadsDefaults(data: Json, side: string, attributeKey: string)
    requires attributeKey in SensorTypes && KnownSide(side)
    requires data == JNull || data == EmptyObject
    ensures NativeValue(data, side, attributeKey) == Ok(JNull)
    ensures IsOn(data, side, attributeKey) == Ok(false)
  {
  }

  /** A status document as the device sends it: both bed sides (the right one
      empty), the hub flags and a sensor label. */
  function SampleDocument(): Json
  {
    JObj(map[
      "left" := JObj(map["currentTemperatureF" := JInt(83), "targetTemperatureF" := JInt(90),
                         "secondsRemaining" := JInt(300), "isAlarmVibrating" := JBool(true),
                         "isOn" := JBool(true)]),
      "right" := EmptyObject,
      "waterLevel" := JStr("true"),
      "isPriming" := JBool(false),
      "sensorLabel" := JStr("abc")])
  }

  /** In the sample document the left side's values come back as sent. */
  lemma SampleLeftReadings(doc: Json)
    requires doc == SampleDocument()
    ensures NativeValue(doc, "left", "current_temp_f") == Ok(JInt(83))
    ensures IsOn(doc, "left", "is_on") == Ok(true)
  {
  }

  /** In the sample document the empty right side gives no value and reads off. */
  lemma SampleRightReadings(doc: Json)
    requires doc == SampleDocument()
    ensures NativeValue(doc, "right", "current_temp_f") == Ok(JNull)
    ensures IsOn(doc, "right", "is_on") == Ok(false)
  {
  }

  /** In the sample document the hub flags read by truthiness. */
  lemma SampleHubReadings(doc: Json)
    requires doc == SampleDocument()
    ensures IsOn(doc, "hub", "is_priming") == Ok(false)
    ensures IsOn(doc, "hub", "water_level") == Ok(true)
  {
  }

  /** `entry.data.get("host", "localhost")`. */
  function EntryHost(d: EntryData): (host: string)
    ensures d.host.Some? ==> host == d.host.value
    ensures d.host.None? ==> host == DefaultHost
  {
    match d.host
    case Some(h) => h
    case None => DefaultHost
  }

  /** `entry.data.get("port", 8080)`. */
  function EntryPort(d: EntryData): (port: int)
    ensures d.port.Some? ==> port == d.port.value
    ensures d.port.None? ==> port == DefaultPort
  {
    match d.port
    case Some(p) => p
    case None => DefaultPort
  }

  /** An entry the config flow creates connects the client to exactly the host
      and port the user typed in. */
  lemma FlowEntryConfiguresClient(u: UserInput)
    requires StepUser(Some(u)).CreateEntry?
    ensures EntryHost(StepUser(Some(u)).data) == u.host
    ensures EntryPort(StepUser(Some(u)).data) == u.port
  {
  }

  /** `async_setup_entry`, with the first refresh's round-trip given as
      `firstFetch`: a client on the entry's host and port owning a fresh
      session, the document the coordinator holds after the first refresh,
      and the twelve entities. */
  method SetupEntry(entry: EntryData, firstFetch: Fetch)
    returns (client: LocalEightSleep, data: Json, entities: seq<Entity>)
    ensures fresh(client) && client.Valid()
    ensures client.host == EntryHost(entry) && client.port == EntryPort(entry)
    ensures client.session != null && !client.session.closed && client.internal
    ensures client.deviceJsonList ==
              if firstFetch.Response? && firstFetch.status == 200 then [firstFetch.body] else []
    ensures data == client.DeviceData()
    ensures entities == SetupEntities()
  {
    client := new LocalEightSleep(EntryHost(entry), EntryPort(entry), null);
    var _ := client.Start();
    client.UpdateDeviceData(firstFetch);
    data := client.DeviceData();
    entities := SetupEntities();
  }
}
