/** Pure status derivation of the front end's feeds service
    (src/app/services/feeds/feeds.service.ts): parking occupancy from a
    distance, and a colour tier and a label per feed key and value. */
module FeedsService {
  import opened Common
  import FeedConstants

  datatype ParkingStatus = Occupied | Free | Unknown

  /** getParkingSpaceStatus: exactly 0 is unknown, (0, 15] is occupied, and
      everything else (negatives, above 15, infinities, NaN) is free. */
  function ParkingSpaceStatus(distance: Number): (s: ParkingStatus)
    ensures s == Unknown <==> distance == Finite(0.0)
    ensures s == Occupied <==> distance.Finite? && 0.0 < distance.v <= 15.0
    ensures s == Free <==> distance.NaN? || distance.PosInf? || distance.NegInf?
                           || (distance.Finite? && (distance.v < 0.0 || distance.v > 15.0))
  {
    if distance == Finite(0.0) then Unknown
    else if distance.Gt(0.0) && distance.Le(15.0) then Occupied
    else Free
  }

  /** The Bootstrap-style colour names getStatusColor returns. */
  datatype Color = Danger | Warning | Success | Secondary | Primary

  /** getStatusColor */
  function StatusColor(feedKey: string, value: Number): (c: Color)
    ensures c == Primary <==> feedKey !in ["gas-sensor", "sound-sensor", "temperature", "humidity",
                                           "motion-detector", "ultrasonic-distance", "ultrasonic-distance2"]
    ensures c == Danger ==> feedKey in ["gas-sensor", "sound-sensor", "ultrasonic-distance", "ultrasonic-distance2"]
    ensures c == Secondary <==> (feedKey == "ultrasonic-distance" || feedKey == "ultrasonic-distance2") && value == Finite(0.0)
    ensures value.NaN? ==> c != Danger && c != Secondary
  {
    if feedKey == "gas-sensor" then
      (if value.Gt(500.0) then Danger else if value.Gt(300.0) then Warning else Success)
    else if feedKey == "sound-sensor" then
      (if value.Gt(80.0) then Danger else if value.Gt(60.0) then Warning else Success)
    else if feedKey == "temperature" then
      (if value.Gt(30.0) || value.Lt(15.0) then Warning else Success)
    else if feedKey == "humidity" then
      (if value.Gt(80.0) || value.Lt(30.0) then Warning else Success)
    else if feedKey == "motion-detector" then
      (if value == Finite(1.0) then Warning else Success)
    else if feedKey == "ultrasonic-distance" || feedKey == "ultrasonic-distance2" then
      (match ParkingSpaceStatus(value)
       case Occupied => Danger
       case Free => Success
       case Unknown => Secondary)
    else Primary
  }

  /** A status label: a fixed text, or `formatSensorValue(value)`, whose
      number formatting is not modelled. */
  datatype StatusText = Label(text: string) | FormattedValue(value: Number)

  /** getStatusText: there is no temperature or humidity case. */
  function StatusTextOf(feedKey: string, value: Number): (t: StatusText)
    ensures t.FormattedValue? <==> feedKey !in ["gas-sensor", "sound-sensor", "motion-detector",
                                                "ultrasonic-distance", "ultrasonic-distance2"]
    ensures t.FormattedValue? ==> t.value == value
    ensures t.Label? ==> t.text != ""
  {
    if feedKey == "gas-sensor" then
      Label(if value.Gt(500.0) then "Calidad del aire mala"
            else if value.Gt(300.0) then "Calidad moderada" else "Calidad buena")
    else if feedKey == "sound-sensor" then
      Label(if value.Gt(80.0) then "Ruido alto"
            else if value.Gt(60.0) then "Ruido moderado" else "Ambiente silencioso")
    else if feedKey == "motion-detector" then
      Label(if value == Finite(1.0) then "Presencia detectada" else "Sin presencia")
    else if feedKey == "ultrasonic-distance" || feedKey == "ultrasonic-distance2" then
      Label(match ParkingSpaceStatus(value)
            case Occupied => "Ocupado"
            case Free => "Libre"
            case Unknown => "Estado desconocido")
    else FormattedValue(value)
  }

  /** Which label goes with which colour tier, for the keys that have both:
      an independent table to check the two switches against. */
  function TierLabel(feedKey: string, c: Color): Option<string>
  {
    match (feedKey, c)
    case ("gas-sensor", Danger) => Some("Calidad del aire mala")
    case ("gas-sensor", Warning) => Some("Calidad moderada")
    case ("gas-sensor", Success) => Some("Calidad buena")
    case ("sound-sensor", Danger) => Some("Ruido alto")
    case ("sound-sensor", Warning) => Some("Ruido moderado")
    case ("sound-sensor", Success) => Some("Ambiente silencioso")
    case ("motion-detector", Warning) => Some("Presencia detectada")
    case ("motion-detector", Success) => Some("Sin presencia")
    case ("ultrasonic-distance", Danger) => Some("Ocupado")
    case ("ultrasonic-distance", Success) => Some("Libre")
    case ("ultrasonic-distance", Secondary) => Some("Estado desconocido")
    case ("ultrasonic-distance2", Danger) => Some("Ocupado")
    case ("ultrasonic-distance2", Success) => Some("Libre")
    case ("ultrasonic-distance2", Secondary) => Some("Estado desconocido")
    case _ => None
  }

  predicate HasTieredText(feedKey: string)
  {
    feedKey in {"gas-sensor", "sound-sensor", "motion-detector", "ultrasonic-distance", "ultrasonic-distance2"}
  }

  /** For gas, sound, motion and both ultrasonic keys, getStatusText emits
      a tier's label exactly when getStatusColor emits that tier's colour. */
  lemma TextTierMatchesColorTier(feedKey: string, value: Number)
    requires HasTieredText(feedKey)
    ensures TierLabel(feedKey, StatusColor(feedKey, value)) == Some(StatusTextOf(feedKey, value).text)
    ensures StatusTextOf(feedKey, value).Label?
  {
  }

  /** Temperature and humidity have colours but no label of their own: their
      text is the formatted value. */
  lemma TemperatureHumidityFallThrough(value: Number)
    ensures StatusTextOf("temperature", value) == FormattedValue(value)
    ensures StatusTextOf("humidity", value) == FormattedValue(value)
  {
  }

  /** Temperature warns outside [15, 30] and humidity outside [30, 80];
      the bounds themselves, and NaN, are success. */
  lemma ComfortBands(x: real)
    ensures StatusColor("temperature", Finite(x)) == Warning <==> x < 15.0 || x > 30.0
    ensures StatusColor("humidity", Finite(x)) == Warning <==> x < 30.0 || x > 80.0
    ensures StatusColor("temperature", Finite(15.0)) == Success
    ensures StatusColor("temperature", Finite(30.0)) == Success
    ensures StatusColor("humidity", Finite(30.0)) == Success
    ensures StatusColor("humidity", Finite(80.0)) == Success
    ensures StatusColor("temperature", NaN) == Success && StatusColor("humidity", NaN) == Success
  {
  }

  /** Gas is danger above 500 and warning in (300, 500]; sound is danger
      above 80 and warning in (60, 80]; everything else, NaN included, is
      success for both. */
  lemma AlarmBands(x: real)
    ensures StatusColor("gas-sensor", Finite(x)) == Danger <==> x > 500.0
    ensures StatusColor("gas-sensor", Finite(x)) == Warning <==> 300.0 < x <= 500.0
    ensures StatusColor("gas-sensor", Finite(x)) == Success <==> x <= 300.0
    ensures StatusColor("sound-sensor", Finite(x)) == Danger <==> x > 80.0
    ensures StatusColor("sound-sensor", Finite(x)) == Warning <==> 60.0 < x <= 80.0
    ensures StatusColor("sound-sensor", Finite(x)) == Success <==> x <= 60.0
    ensures StatusColor("gas-sensor", PosInf) == Danger && StatusColor("sound-sensor", PosInf) == Danger
    ensures StatusColor("gas-sensor", NaN) == Success && StatusColor("sound-sensor", NaN) == Success
  {
  }

  /** Motion warns exactly on the reading 1; a parking sensor is danger
      exactly when its space is occupied and success exactly when it is free. */
  lemma PresenceBands(value: Number)
    ensures StatusColor("motion-detector", value) == Warning <==> value == Finite(1.0)
    ensures StatusColor("motion-detector", value) != Warning ==> StatusColor("motion-detector", value) == Success
    ensures StatusColor("ultrasonic-distance", value) == Danger <==> ParkingSpaceStatus(value) == Occupied
    ensures StatusColor("ultrasonic-distance", value) == Success <==> ParkingSpaceStatus(value) == Free
    ensures StatusColor("ultrasonic-distance2", value) == Danger <==> ParkingSpaceStatus(value) == Occupied
  {
  }

  /** The two parking sensors are classified identically. */
  lemma UltrasonicKeysAgree(value: Number)
    ensures StatusColor("ultrasonic-distance", value) == StatusColor("ultrasonic-distance2", value)
    ensures StatusTextOf("ultrasonic-distance", value) == StatusTextOf("ultrasonic-distance2", value)
  {
  }

  /** A key outside the seven classified ones is neutral: primary colour,
      formatted value as text. */
  lemma UnlistedKeyIsNeutral(feedKey: string, value: Number)
    requires feedKey !in {"gas-sensor", "sound-sensor", "temperature", "humidity", "motion-detector",
                          "ultrasonic-distance", "ultrasonic-distance2"}
    ensures StatusColor(feedKey, value) == Primary
    ensures StatusTextOf(feedKey, value) == FormattedValue(value)
  {
  }

  /** On whole-centimetre distances the classifier's hard-coded 15 agrees with
      PARKING_CONFIG: positive distances up to OCCUPIED_MAX_DISTANCE are
      occupied, and those from FREE_MIN_DISTANCE on are free, with nothing
      in between. */
  lemma ParkingAgreesWithConfig(d: int)
    requires d > 0
    ensures ParkingSpaceStatus(Finite(d as real)) == Occupied <==> d <= FeedConstants.OCCUPIED_MAX_DISTANCE
    ensures ParkingSpaceStatus(Finite(d as real)) == Free <==> d >= FeedConstants.FREE_MIN_DISTANCE
  {
  }

  /** Sample readings and the status each one gets. */
  lemma ClassificationExamples()
    ensures ParkingSpaceStatus(Finite(0.0)) == Unknown
    ensures ParkingSpaceStatus(Finite(10.0)) == Occupied
    ensures ParkingSpaceStatus(Finite(16.0)) == Free
    ensures StatusColor("gas-sensor", Finite(600.0)) == Danger
    ensures StatusTextOf("gas-sensor", Finite(600.0)) == Label("Calidad del aire mala")
    ensures StatusColor("gas-sensor", Finite(350.0)) == Warning
    ensures StatusTextOf("gas-sensor", Finite(350.0)) == Label("Calidad moderada")
    ensures StatusColor("gas-sensor", Finite(100.0)) == Success
    ensures StatusTextOf("gas-sensor", Finite(100.0)) == Label("Calidad buena")
  {
  }
}
