/** One synthetic sensor reading (`generate_sensor_data`,
    producer/producer.py, lines 63-72). The random source and the clock are
    inputs: `random.random()` is an exact fraction in [0, 1) and the clock is
    the text `datetime.utcnow().isoformat()` returned. */
module Reading {
  import opened Config

  /** A value of `random.random()`: `num / den`, at least 0 and below 1. */
  datatype Fraction = Fraction(num: nat, den: nat)
  type UnitDraw = f: Fraction | f.num < f.den witness Fraction(0, 1)

  /** Hundredths in `valor`: 10000 stands for 100.00. */
  const MaxHundredths: nat := 10000

  /** The integer nearest to `x / d`, ties to the even one, as Python's
      `round` rounds. */
  function RoundHalfEven(x: nat, d: nat): (q: nat)
    requires d > 0
    ensures -(d as int) <= 2 * (x - q * d) <= d
    ensures (2 * (x - q * d) == d || 2 * (x - q * d) == -(d as int)) ==> q % 2 == 0
  {
    var q0, r := x / d, x % d;
    RemainderSteps(x, d, q0, r);
    if 2 * r < d then q0
    else if 2 * r > d then q0 + 1
    else if q0 % 2 == 0 then q0
    else q0 + 1
  }

  /** The distances from `x` to the multiples of `d` on either side of it. */
  lemma RemainderSteps(x: nat, d: nat, q0: nat, r: nat)
    requires x == q0 * d + r
    ensures x - q0 * d == r && x - (q0 + 1) * d == r - d
  {
    assert (q0 + 1) * d == q0 * d + d;
  }

  /** `round(random.uniform(0, 100), 2)` in hundredths:
      `uniform(0, 100)` is `100 * random()`, so the hundredths are
      `10000 * num / den` rounded. The result is the nearest hundredth to
      the drawn value and lies in 0..10000, that is [0, 100.00]. */
  function Valor(draw: UnitDraw): (v: nat)
    ensures v <= MaxHundredths
    ensures -(draw.den as int) <= 2 * (MaxHundredths * draw.num - v * draw.den) <= draw.den
  {
    RoundedBelowBound(MaxHundredths * draw.num, draw.den, MaxHundredths, draw.num);
    RoundHalfEven(MaxHundredths * draw.num, draw.den)
  }

  /** Rounding `bound * num / d` with `num < d` never exceeds `bound`. */
  lemma RoundedBelowBound(x: nat, d: nat, bound: nat, num: nat)
    requires num < d && x == bound * num
    ensures RoundHalfEven(x, d) <= bound
  {
    var q := RoundHalfEven(x, d);
    if q > bound {
      MulMonotone(bound + 1, q, d);
      MulMonotone(num, d, bound);
      assert false;
    }
  }

  lemma MulMonotone(a: nat, b: nat, c: nat)
    requires a <= b
    ensures a * c <= b * c
  {
  }

  /** The upper end 100.00 is reachable: a draw just below 1 rounds up. */
  lemma ValorReachesHundred()
    ensures Valor(Fraction(19999, 20000)) == MaxHundredths
  {
  }

  /** The record `generate_sensor_data` returns: exactly the three fields
      `sensor_id`, `valor` (in hundredths) and `timestamp`. */
  datatype Reading = Reading(sensorId: string, valor: nat, timestamp: string)

  /** A reading as the producer emits it: stamped with the configured
      sensor id, a value in range and a UTC timestamp ending in `Z`. */
  predicate WellFormed(r: Reading, sensorId: string)
  {
    r.sensorId == sensorId && r.valor <= MaxHundredths &&
    |r.timestamp| > 0 && r.timestamp[|r.timestamp| - 1] == 'Z'
  }

  /** `generate_sensor_data()` for the given draw and clock text. */
  function GenerateSensorData(cfg: Settings, draw: UnitDraw, isoNow: string): (r: Reading)
    ensures WellFormed(r, cfg.sensorId)
    ensures r.timestamp[..|r.timestamp| - 1] == isoNow
  {
    Reading(cfg.sensorId, Valor(draw), isoNow + "Z")
  }

  /** A JSON value as `json.dumps` sees it in the payload. */
  datatype JsonValue = JsonString(s: string) | JsonNumber(hundredths: nat)

  /** The payload dict, in insertion order, which `json.dumps` keeps. */
  type Payload = seq<(string, JsonValue)>

  function Keys(p: Payload): (keys: seq<string>)
    ensures |keys| == |p|
    ensures forall i :: 0 <= i < |p| ==> keys[i] == p[i].0
  {
    if |p| == 0 then [] else [p[0].0] + Keys(p[1..])
  }

  /** The dict literal of lines 68-72. */
  function Fields(r: Reading): (p: Payload)
    ensures Keys(p) == ["sensor_id", "valor", "timestamp"]
    ensures p[0].1 == JsonString(r.sensorId) && p[1].1 == JsonNumber(r.valor)
    ensures p[2].1 == JsonString(r.timestamp)
  {
    [("sensor_id", JsonString(r.sensorId)), ("valor", JsonNumber(r.valor)),
     ("timestamp", JsonString(r.timestamp))]
  }

  /** Every payload the producer hands to the encoder carries exactly the
      keys `sensor_id`, `valor`, `timestamp`, the configured sensor id and a
      value of at most 100.00. */
  lemma PayloadShape(cfg: Settings, draw: UnitDraw, isoNow: string)
    ensures var p := Fields(GenerateSensorData(cfg, draw, isoNow));
      Keys(p) == ["sensor_id", "valor", "timestamp"] &&
      p[0].1 == JsonString(cfg.sensorId) &&
      p[1].1.JsonNumber? && p[1].1.hundredths <= MaxHundredths
  {
  }
}
