/** The front end's sensor store (src/app/services/sensor-data/sensor-data.service.ts):
    seven slots, one per polled feed, each rewritten from the feed's latest
    reading on every polling round. The clock is a parameter. */
module SensorData {
  import opened Common
  import opened FeedConstants
  import opened FeedModels
  import opened FeedsService

  /** What a slot holds. `value` is `parseFloat` of the reading (0 when absent). */
  datatype Reading = Reading(
    feedKey: string, value: Number, unit: string, status: StatusText,
    statusColor: Color, lastUpdated: int, error: Option<string>)

  /** The seven polled keys, in the order they are polled. */
  const POLLED_KEYS: seq<string> := ["gas-sensor", "temperature", "humidity", "sound-sensor",
                                     "motion-detector", "ultrasonic-distance", "ultrasonic-distance2"]

  datatype SensorConfig = SensorConfig(unit: string, name: string)

  /** `sensorConfig[feedKey]`. */
  function SensorConfigFor(feedKey: string): Option<SensorConfig>
  {
    match feedKey
    case "gas-sensor" => Some(SensorConfig("PPM", "Calidad del Aire"))
    case "temperature" => Some(SensorConfig("°C", "Temperatura"))
    case "humidity" => Some(SensorConfig("%", "Humedad"))
    case "sound-sensor" => Some(SensorConfig("dB", "Nivel de Ruido"))
    case "motion-detector" => Some(SensorConfig("", "Detección de Movimiento"))
    case "ultrasonic-distance" => Some(SensorConfig("cm", "Distancia Ultrasónica 1"))
    case "ultrasonic-distance2" => Some(SensorConfig("cm", "Distancia Ultrasónica 2"))
    case _ => None
  }

  /** The slot a key is written to by `setSensorData`'s switch, as an index
      into POLLED_KEYS; None for every other key. */
  function SlotOf(feedKey: string): (i: Option<nat>)
    ensures i.Some? <==> feedKey in POLLED_KEYS
    ensures i.Some? ==> i.value < |POLLED_KEYS| && POLLED_KEYS[i.value] == feedKey
  {
    match feedKey
    case "gas-sensor" => Some(0)
    case "temperature" => Some(1)
    case "humidity" => Some(2)
    case "sound-sensor" => Some(3)
    case "motion-detector" => Some(4)
    case "ultrasonic-distance" => Some(5)
    case "ultrasonic-distance2" => Some(6)
    case _ => None
  }

  /** The polled keys are distinct, each has a store config, and each is a
      feed key of the backend (the NFC and servo feeds are not polled). */
  lemma PolledKeysWellFormed()
    ensures forall i :: 0 <= i < |POLLED_KEYS| ==> SlotOf(POLLED_KEYS[i]) == Some(i)
    ensures forall k :: k in POLLED_KEYS ==> SensorConfigFor(k).Some?
    ensures forall k :: k in POLLED_KEYS ==> ParseFeedKey(k).Some?
    ensures "nfc-uid" !in POLLED_KEYS && "servo-angle" !in POLLED_KEYS
  {
    forall k | k in POLLED_KEYS
      ensures ParseFeedKey(k).Some?
    {
      var i :| 0 <= i < |POLLED_KEYS| && POLLED_KEYS[i] == k;
      ParseKeyText([GasSensor, Temperature, Humidity, SoundSensor, MotionDetector,
                    UltrasonicDistance, UltrasonicDistance2][i]);
    }
  }

  const NO_DATA_STATUS: string := "Datos no disponibles"
  const NO_DATA_ERROR: string := "No hay datos disponibles"

  /** The record updateSensorSignal writes: a placeholder when there is no
      reading, otherwise the parsed value classified by the status helpers. */
  function SignalFor(feedKey: string, config: SensorConfig, data: Option<DataPoint>, now: int): (s: Reading)
    ensures s.feedKey == feedKey && s.unit == config.unit
    ensures data.None? ==> s.value == Finite(0.0) && s.status == Label(NO_DATA_STATUS)
                           && s.statusColor == Secondary && s.lastUpdated == now && s.error == Some(NO_DATA_ERROR)
    ensures data.Some? ==> s.value == ParseFloatOf(data.value.value) && s.error.None?
                           && s.status == StatusTextOf(feedKey, s.value) && s.statusColor == StatusColor(feedKey, s.value)
                           && s.lastUpdated == data.value.createdAt
  {
    match data
    case None => Reading(feedKey, Finite(0.0), config.unit, Label(NO_DATA_STATUS), Secondary, now, Some(NO_DATA_ERROR))
    case Some(d) =>
      var value := ParseFloatOf(d.value);
      Reading(feedKey, value, config.unit, StatusTextOf(feedKey, value), StatusColor(feedKey, value), d.createdAt, None)
  }

  /** A polled reading after `catchError(() => of(null))` and `data || null`. */
  function Fetched(outcome: Result<Option<DataPoint>, string>): (d: Option<DataPoint>)
    ensures d.Some? <==> outcome.Ok? && outcome.value.Some?
    ensures d.Some? ==> d == outcome.value
  {
    match outcome
    case Ok(v) => v
    case Err(_) => None
  }

  class SensorDataService {
    var gasData: Option<Reading>
    var temperatureData: Option<Reading>
    var humidityData: Option<Reading>
    var soundData: Option<Reading>
    var motionData: Option<Reading>
    var ultrasonicDistance1Data: Option<Reading>
    var ultrasonicDistance2Data: Option<Reading>

    /** The slots in POLLED_KEYS order. */
    function Slots(): (s: seq<Option<Reading>>)
      reads this
      ensures |s| == |POLLED_KEYS|
    {
      [gasData, temperatureData, humidityData, soundData, motionData,
       ultrasonicDistance1Data, ultrasonicDistance2Data]
    }

    /** Every slot starts empty. */
    constructor ()
      ensures forall i :: 0 <= i < |POLLED_KEYS| ==> Slots()[i].None?
    {
      gasData := None;
      temperatureData := None;
      humidityData := None;
      soundData := None;
      motionData := None;
      ultrasonicDistance1Data := None;
      ultrasonicDistance2Data := None;
    }

    /** The value of the signal getSensorData returns: the key's slot, or
        the null of a fresh signal for any other key. */
    function GetSensorData(feedKey: string): (r: Option<Reading>)
      reads this
      ensures SlotOf(feedKey).Some? ==> r == Slots()[SlotOf(feedKey).value]
      ensures SlotOf(feedKey).None? ==> r.None?
    {
      match feedKey
      case "gas-sensor" => gasData
      case "temperature" => temperatureData
      case "humidity" => humidityData
      case "sound-sensor" => soundData
      case "motion-detector" => motionData
      case "ultrasonic-distance" => ultrasonicDistance1Data
      case "ultrasonic-distance2" => ultrasonicDistance2Data
      case _ => None
    }

    /** setSensorData: write the key's slot; any other key changes nothing. */
    method SetSensorData(feedKey: string, data: Reading)
      modifies this
      ensures SlotOf(feedKey).Some? ==> Slots() == old(Slots())[SlotOf(feedKey).value := Some(data)]
      ensures SlotOf(feedKey).None? ==> Slots() == old(Slots())
      ensures SlotOf(feedKey).Some? ==> GetSensorData(feedKey) == Some(data)
    {
      match feedKey {
        case "gas-sensor" => gasData := Some(data);
        case "temperature" => temperatureData := Some(data);
        case "humidity" => humidityData := Some(data);
        case "sound-sensor" => soundData := Some(data);
        case "motion-detector" => motionData := Some(data);
        case "ultrasonic-distance" => ultrasonicDistance1Data := Some(data);
        case "ultrasonic-distance2" => ultrasonicDistance2Data := Some(data);
        case _ =>
      }
    }

    /** updateSensorSignal: build the record and write it to the key's slot.
        The store's config lookup needs one of the polled keys. */
    method UpdateSensorSignal(feedKey: string, data: Option<DataPoint>, now: int)
      requires SensorConfigFor(feedKey).Some?
      modifies this
      ensures SlotOf(feedKey).Some?
      ensures Slots() == old(Slots())[SlotOf(feedKey).value := Some(SignalFor(feedKey, SensorConfigFor(feedKey).value, data, now))]
    {
      var config := SensorConfigFor(feedKey).value;
      SetSensorData(feedKey, SignalFor(feedKey, config, data, now));
    }

    /** One polling round, each key in turn: every slot is rewritten, a
        failed fetch producing the placeholder. */
    method UpdateAllSensorData(fetch: string -> Result<Option<DataPoint>, string>, now: int)
      modifies this
      ensures forall i :: 0 <= i < |POLLED_KEYS| ==>
                Slots()[i] == Some(SignalFor(POLLED_KEYS[i], SensorConfigFor(POLLED_KEYS[i]).value,
                                             Fetched(fetch(POLLED_KEYS[i])), now))
    {
      PolledKeysWellFormed();
      var i := 0;
      while i < |POLLED_KEYS|
        invariant 0 <= i <= |POLLED_KEYS|
        invariant forall j :: 0 <= j < i ==>
                    Slots()[j] == Some(SignalFor(POLLED_KEYS[j], SensorConfigFor(POLLED_KEYS[j]).value,
                                                 Fetched(fetch(POLLED_KEYS[j])), now))
      {
        var feedKey := POLLED_KEYS[i];
        UpdateSensorSignal(feedKey, Fetched(fetch(feedKey)), now);
        i := i + 1;
      }
    }
  }
}
