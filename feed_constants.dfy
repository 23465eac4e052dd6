/** The closed set of feed keys, the metadata attached to each key, and the
    parking thresholds (src/app/api/constants/feeds/feeds.constant.ts). */
module FeedConstants {
  import opened Common

  /** `FeedKey`: one constructor per entry of `FEED_KEYS`. */
  datatype FeedKey =
    | SoundSensor
    | GasSensor
    | Temperature
    | Humidity
    | MotionDetector
    | UltrasonicDistance
    | UltrasonicDistance2
    | NfcUid
    | ServoAngle

  /** The string value each `FEED_KEYS` entry stands for. */
  function KeyText(k: FeedKey): string
  {
    match k
    case SoundSensor => "sound-sensor"
    case GasSensor => "gas-sensor"
    case Temperature => "temperature"
    case Humidity => "humidity"
    case MotionDetector => "motion-detector"
    case UltrasonicDistance => "ultrasonic-distance"
    case UltrasonicDistance2 => "ultrasonic-distance2"
    case NfcUid => "nfc-uid"
    case ServoAngle => "servo-angle"
  }

  /** `Object.values(FEED_KEYS)`, in declaration order. */
  const FEED_KEYS: seq<FeedKey> := [SoundSensor, GasSensor, Temperature, Humidity, MotionDetector,
                                    UltrasonicDistance, UltrasonicDistance2, NfcUid, ServoAngle]

  function KeyTexts(ks: seq<FeedKey>): (r: seq<string>)
    ensures |r| == |ks|
    ensures forall i :: 0 <= i < |ks| ==> r[i] == KeyText(ks[i])
  {
    if ks == [] then [] else [KeyText(ks[0])] + KeyTexts(ks[1..])
  }

  /** The string values of FEED_KEYS. */
  function FeedKeyValues(): seq<string>
  {
    KeyTexts(FEED_KEYS)
  }

  /** Reads a string as a feed key: the inverse of KeyText. */
  function ParseFeedKey(s: string): (r: Option<FeedKey>)
    ensures r.Some? ==> KeyText(r.value) == s
    ensures r.None? ==> forall k: FeedKey :: KeyText(k) != s
  {
    if s == "sound-sensor" then Some(SoundSensor)
    else if s == "gas-sensor" then Some(GasSensor)
    else if s == "temperature" then Some(Temperature)
    else if s == "humidity" then Some(Humidity)
    else if s == "motion-detector" then Some(MotionDetector)
    else if s == "ultrasonic-distance" then Some(UltrasonicDistance)
    else if s == "ultrasonic-distance2" then Some(UltrasonicDistance2)
    else if s == "nfc-uid" then Some(NfcUid)
    else if s == "servo-angle" then Some(ServoAngle)
    else None
  }

  /** Parsing a key's own text gives that key back: no two keys share a text. */
  lemma ParseKeyText(k: FeedKey)
    ensures ParseFeedKey(KeyText(k)) == Some(k)
  {
  }

  /** FEED_KEYS holds nine pairwise-distinct values, and every FeedKey is one of them. */
  lemma FeedKeysDistinctAndComplete()
    ensures |FeedKeyValues()| == 9
    ensures forall i, j :: 0 <= i < j < 9 ==> FeedKeyValues()[i] != FeedKeyValues()[j]
    ensures forall k: FeedKey :: k in FEED_KEYS
  {
    var vs := FeedKeyValues();
    forall i, j | 0 <= i < j < 9 ensures vs[i] != vs[j] {
      ParseKeyText(FEED_KEYS[i]);
      ParseKeyText(FEED_KEYS[j]);
    }
    forall k: FeedKey ensures k in FEED_KEYS {
      match k
      case SoundSensor => assert FEED_KEYS[0] == k;
      case GasSensor => assert FEED_KEYS[1] == k;
      case Temperature => assert FEED_KEYS[2] == k;
      case Humidity => assert FEED_KEYS[3] == k;
      case MotionDetector => assert FEED_KEYS[4] == k;
      case UltrasonicDistance => assert FEED_KEYS[5] == k;
      case UltrasonicDistance2 => assert FEED_KEYS[6] == k;
      case NfcUid => assert FEED_KEYS[7] == k;
      case ServoAngle => assert FEED_KEYS[8] == k;
    }
  }

  /** A string is a FeedKey value exactly when it is one of FEED_KEYS' values. */
  lemma {:induction false} ParseFeedKeyExactlyFeedKeys(s: string)
    ensures ParseFeedKey(s).Some? <==> s in FeedKeyValues()
  {
    var vs := FeedKeyValues();
    if ParseFeedKey(s).Some? {
      var k := ParseFeedKey(s).value;
      assert k in FEED_KEYS;
      var i :| 0 <= i < |FEED_KEYS| && FEED_KEYS[i] == k;
      assert vs[i] == s;
    }
    if s in vs {
      var i :| 0 <= i < |vs| && vs[i] == s;
      ParseKeyText(FEED_KEYS[i]);
    }
  }

  /** One FEED_CONFIG entry. */
  datatype FeedConfig = FeedConfig(name: string, description: string, unit: string)

  /** FEED_CONFIG: the metadata of each key. */
  function Config(k: FeedKey): (c: FeedConfig)
    ensures c.name != "" && c.description != "" && c.unit != ""
  {
    match k
    case SoundSensor => FeedConfig("Sensor de Sonido", "Nivel de ruido detectado por el micrófono", "dB")
    case GasSensor => FeedConfig("Sensor de Gas MQ-2", "Calidad del aire - detección de gases", "PPM")
    case Temperature => FeedConfig("Temperatura", "Temperatura ambiente medida por DHT11", "°C")
    case Humidity => FeedConfig("Humedad", "Humedad relativa medida por DHT11", "%")
    case MotionDetector => FeedConfig("Detector de Movimiento", "Detección de presencia mediante sensor PIR", "bool")
    case UltrasonicDistance =>
      FeedConfig("Distancia Ultrasónica - Espacio 1",
                 "Distancia medida por sensor HC-SR04 para espacio de estacionamiento 1", "cm")
    case UltrasonicDistance2 =>
      FeedConfig("Distancia Ultrasónica - Espacio 2",
                 "Distancia medida por sensor HC-SR04 para espacio de estacionamiento 2", "cm")
    case NfcUid => FeedConfig("Lector NFC", "UID de tarjetas NFC leídas por RC522", "string")
    case ServoAngle => FeedConfig("Ángulo del Servo", "Posición angular del servomotor", "°")
  }

  /** `FEED_CONFIG[key as FeedKey]`: present exactly for the nine key values. */
  function ConfigFor(key: string): (r: Option<FeedConfig>)
    ensures r.Some? <==> ParseFeedKey(key).Some?
    ensures r.Some? ==> exists k: FeedKey :: KeyText(k) == key && r.value == Config(k)
  {
    match ParseFeedKey(key)
    case Some(k) => Some(Config(k))
    case None => None
  }

  /** `Object.entries(FEED_CONFIG)`: the entries in insertion order, which is FEED_KEYS' order. */
  function ConfigEntries(ks: seq<FeedKey>): (r: seq<(string, FeedConfig)>)
    ensures |r| == |ks|
    ensures forall i :: 0 <= i < |ks| ==> r[i] == (KeyText(ks[i]), Config(ks[i]))
  {
    if ks == [] then [] else [(KeyText(ks[0]), Config(ks[0]))] + ConfigEntries(ks[1..])
  }

  const OCCUPIED_MAX_DISTANCE: int := 15
  const FREE_MIN_DISTANCE: int := 16
}
