/** Configuration of the producer: the five environment variables read once
    at import time (producer/producer.py, lines 16-20), with their defaults.
    The environment is a map from variable names to their text. */
module Config {
  import opened Wrappers

  const DefaultHost := "localhost"
  const DefaultPort := "6379"
  const DefaultSensorId := "rbt-01"
  const DefaultPushInterval := "3"

  /** The resolved configuration. `password` is absent (`None`) unless
      REDIS_PASSWORD is set; `port` and `pushInterval` are whatever integers
      the text parsed to: the code checks neither range nor sign. */
  datatype Settings = Settings(
    host: string,
    port: int,
    password: Option<string>,
    sensorId: string,
    pushInterval: int)

  /** The ValueError raised by `int(...)` on a malformed numeric variable. */
  datatype ConfigError = NotAnInteger(variable: string, text: string)

  /** `os.environ.get(name, default)` */
  function Lookup(env: map<string, string>, name: string, default: string): (v: string)
    ensures name in env ==> v == env[name]
    ensures name !in env ==> v == default
  {
    if name in env then env[name] else default
  }

  predicate IsDigit(c: char)
  {
    '0' <= c <= '9'
  }

  /** A non-empty run of ASCII decimal digits. */
  predicate IsNumeral(s: string)
  {
    |s| > 0 && forall i :: 0 <= i < |s| ==> IsDigit(s[i])
  }

  function DigitValue(c: char): nat
    requires IsDigit(c)
  {
    (c as int) - ('0' as int)
  }

  /** The value of a string of digits, most significant digit first. */
  function DigitsValue(s: string): nat
    requires forall i :: 0 <= i < |s| ==> IsDigit(s[i])
  {
    if |s| == 0 then 0 else 10 * DigitsValue(s[..|s| - 1]) + DigitValue(s[|s| - 1])
  }

  /** `int(text)` on a base-10 string: an optional sign followed by digits.
      Anything else is a ValueError, modelled as `None`. */
  function ParseInt(text: string): (r: Option<int>)
    ensures |text| == 0 ==> r.None?
    ensures (exists i :: 0 < i < |text| && !IsDigit(text[i])) ==> r.None?
    ensures r.Some? <==>
      (IsNumeral(text) || (|text| > 0 && (text[0] == '+' || text[0] == '-') && IsNumeral(text[1..])))
    ensures IsNumeral(text) ==> r == Some(DigitsValue(text))
    ensures |text| > 0 && text[0] == '+' && r.Some? ==> r.value == DigitsValue(text[1..])
    ensures |text| > 0 && text[0] == '-' && r.Some? ==> r.value == -(DigitsValue(text[1..]) as int)
  {
    if |text| > 0 && (text[0] == '+' || text[0] == '-') then
      if IsNumeral(text[1..]) then
        var magnitude: int := DigitsValue(text[1..]);
        Some(if text[0] == '-' then -magnitude else magnitude)
      else
        None
    else if IsNumeral(text) then
      Some(DigitsValue(text))
    else
      None
  }

  function DigitChar(d: nat): (c: char)
    requires d < 10
    ensures IsDigit(c) && DigitValue(c) == d
  {
    (('0' as int) + d) as char
  }

  /** The canonical decimal text of a natural number (`str(n)`). */
  function Decimal(n: nat): (s: string)
    ensures IsNumeral(s)
  {
    if n < 10 then [DigitChar(n)] else Decimal(n / 10) + [DigitChar(n % 10)]
  }

  /** Reading a number's decimal text back gives the number. */
  lemma {:induction false} DigitsValueOfDecimal(n: nat)
    ensures DigitsValue(Decimal(n)) == n
  {
    var s := Decimal(n);
    if n >= 10 {
      assert s[..|s| - 1] == Decimal(n / 10);
      DigitsValueOfDecimal(n / 10);
    }
  }

  /** `str(n)` for any integer: a minus sign before negative numbers. */
  function IntText(n: int): string
  {
    if n < 0 then "-" + Decimal(-n) else Decimal(n)
  }

  /** `int(str(n)) == n` for every integer, negative ones included. */
  lemma ParseIntOfIntText(n: int)
    ensures ParseInt(IntText(n)) == Some(n)
  {
    var m := if n < 0 then -n else n;
    DigitsValueOfDecimal(m);
    var s := Decimal(m);
    assert s[0] != '+' && s[0] != '-' by { assert IsDigit(s[0]); }
    if n < 0 {
      assert ("-" + s)[1..] == s;
    }
  }

  /** Module-level configuration of producer.py: each variable falls back to
      its default; REDIS_PORT is converted before PUSH_INTERVAL, so a
      malformed port is the error reported when both are malformed. */
  function ResolveConfig(env: map<string, string>): (r: Result<Settings, ConfigError>)
    ensures r.Success? <==>
      ParseInt(Lookup(env, "REDIS_PORT", DefaultPort)).Some? &&
      ParseInt(Lookup(env, "PUSH_INTERVAL", DefaultPushInterval)).Some?
    ensures ParseInt(Lookup(env, "REDIS_PORT", DefaultPort)).None? ==>
      r == Failure(NotAnInteger("REDIS_PORT", Lookup(env, "REDIS_PORT", DefaultPort)))
    ensures r.Success? ==>
      r.value.sensorId == Lookup(env, "SENSOR_ID", DefaultSensorId) &&
      r.value.host == Lookup(env, "REDIS_HOST", DefaultHost) &&
      ("REDIS_PASSWORD" in env <==> r.value.password.Some?)
    ensures r.Success? ==>
      r.value.port == ParseInt(Lookup(env, "REDIS_PORT", DefaultPort)).value &&
      r.value.pushInterval == ParseInt(Lookup(env, "PUSH_INTERVAL", DefaultPushInterval)).value &&
      ("REDIS_PASSWORD" in env ==> r.value.password == Some(env["REDIS_PASSWORD"]))
    ensures (ParseInt(Lookup(env, "REDIS_PORT", DefaultPort)).Some? &&
             ParseInt(Lookup(env, "PUSH_INTERVAL", DefaultPushInterval)).None?) ==>
      r == Failure(NotAnInteger("PUSH_INTERVAL", Lookup(env, "PUSH_INTERVAL", DefaultPushInterval)))
  {
    var host := Lookup(env, "REDIS_HOST", DefaultHost);
    var portText := Lookup(env, "REDIS_PORT", DefaultPort);
    match ParseInt(portText)
    case None => Failure(NotAnInteger("REDIS_PORT", portText))
    case Some(port) =>
      var password := if "REDIS_PASSWORD" in env then Some(env["REDIS_PASSWORD"]) else None;
      var sensorId := Lookup(env, "SENSOR_ID", DefaultSensorId);
      var intervalText := Lookup(env, "PUSH_INTERVAL", DefaultPushInterval);
      match ParseInt(intervalText)
      case None => Failure(NotAnInteger("PUSH_INTERVAL", intervalText))
      case Some(interval) => Success(Settings(host, port, password, sensorId, interval))
  }

  /** With none of the five variables set, the producer talks to
      localhost:6379 without a password, as sensor rbt-01, every 3 seconds. */
  lemma DefaultsWhenUnset(env: map<string, string>)
    requires "REDIS_HOST" !in env && "REDIS_PORT" !in env && "REDIS_PASSWORD" !in env
    requires "SENSOR_ID" !in env && "PUSH_INTERVAL" !in env
    ensures ResolveConfig(env) == Success(Settings("localhost", 6379, None, "rbt-01", 3))
  {
    ParseIntOfIntText(6379);
    assert IntText(6379) == DefaultPort;
    ParseIntOfIntText(3);
    assert IntText(3) == DefaultPushInterval;
  }

  /** Each numeric variable, set or left at its default, gives the integer
      its text spells; a set password is used verbatim. */
  lemma SetVariablesOverride(env: map<string, string>, port: int, interval: int)
    requires Lookup(env, "REDIS_PORT", DefaultPort) == IntText(port)
    requires Lookup(env, "PUSH_INTERVAL", DefaultPushInterval) == IntText(interval)
    ensures ResolveConfig(env).Success?
    ensures ResolveConfig(env).value.port == port
    ensures ResolveConfig(env).value.pushInterval == interval
    ensures "REDIS_PASSWORD" in env ==> ResolveConfig(env).value.password == Some(env["REDIS_PASSWORD"])
  {
    ParseIntOfIntText(port);
    ParseIntOfIntText(interval);
  }

  /** The code accepts a port outside 1..65535 and a non-positive interval:
      neither is validated after parsing. */
  lemma NoRangeValidation()
    ensures ResolveConfig(map["REDIS_PORT" := "70000", "PUSH_INTERVAL" := "-5"]) ==
      Success(Settings("localhost", 70000, None, "rbt-01", -5))
  {
    ParseIntOfIntText(70000);
    assert IntText(70000) == "70000";
    ParseIntOfIntText(-5);
    assert IntText(-5) == "-5";
  }
}
