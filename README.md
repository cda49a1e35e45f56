# Resilient sensor producer — Dafny model

This project models the producer process of an IoT telemetry demo
(`producer/producer.py`). The process reads its configuration from five
environment variables and waits for Redis with a bounded retry: 30 probes,
3 seconds apart, with a fresh client after every failure. It then loops for
ever. Each pass generates a synthetic reading (`sensor_id`, `valor`,
`timestamp`) and `LPUSH`es its JSON text onto the `sensors` list. On a Redis
error it replaces the client and drops the reading. Any other error is
reported and followed by the sleep at line 106. The loop stops on Ctrl+C.
An exception raised by that sleep leaves `main`.

Modules, one per part of the script:

- `Wrappers` (`wrappers.dfy`): `Option` and `Result`.
- `Config` (`config.dfy`): `os.environ.get` with defaults, and `int(...)` as a
  parser that can fail.
- `Connection` (`connection.dfy`): the client handle, `make_client`, and
  `wait_for_redis`. The last is a method over a sequence of probe outcomes
  that returns the handle and the exact sequence of events: handles built,
  probes, sleeps.
- `Reading` (`reading.dfy`): `generate_sensor_data`. The random source is an
  exact fraction in [0, 1). `round(uniform(0, 100), 2)` is round-half-even in
  hundredths. The clock text is an input.
- `Producer` (`producer.dfy`): a class holding the store's `sensors` list, the
  current client, the number of clients built, the `iteration` counter and the
  loop status. It has a `Step` method for one pass of `while True`, a `Run`
  driver over a finite sequence of ticks, and `ProducerProcess` for the whole
  script.

Points where the code's behaviour is easy to misread:

- The code does not check that the port is in 1..65535 or that the push
  interval is positive. Any integer text passes configuration
  (`NoRangeValidation`).
- A negative push interval passes configuration but ends the process after
  the first iteration. That iteration's push or reconnect still happens.
  Then `time.sleep` at line 99 raises ValueError. Line 104 catches it, and
  the sleep at line 106 raises it again out of `main` (`Status.Crashed`,
  `NegativeIntervalEndsFirstIteration`).
- After an unexpected error, the code sleeps at line 106 outside the `try`. A
  Ctrl+C during that sleep escapes `main` instead of ending it cleanly
  (`Status.Crashed`, `Exit.ExceptionEscaped`).
- The code promises neither monotonic timestamps nor a JSON round trip, so
  the model claims neither.

## Model

| member | source | states |
|---|---|---|
| `Config.Lookup` | producer/producer.py:16-20 | `os.environ.get(name, default)`: the variable's value when it is set, the default otherwise |
| `Config.ParseInt` | producer/producer.py:17 | `int(text)` succeeds exactly on a numeral with an optional `+` or `-` in front; everything else, the empty text included, is a ValueError (`None`); an unsigned or `+`-signed numeral gives its decimal value, and a `-` negates it (no digit-count limit, see Left out) |
| `Config.ParseIntOfIntText` | producer/producer.py:17-20 | `int(str(n)) == n` for every integer `n`, negative ones included (no digit-count limit, see Left out) |
| `Config.ResolveConfig` | producer/producer.py:16-20 | configuration succeeds exactly when both REDIS_PORT and PUSH_INTERVAL parse, and then holds the integers `int()` gives for them; a bad port is the error reported, since it is converted first, and a bad interval is reported only when the port parses; host and sensor id come from the environment or their defaults; a password is present exactly when REDIS_PASSWORD is set, and is then its value verbatim |
| `Config.DefaultsWhenUnset` | producer/producer.py:16-20 | with none of the five variables set, the configuration is `localhost`, 6379, no password, `rbt-01`, 3 |
| `Config.SetVariablesOverride` | producer/producer.py:17-20 | whenever REDIS_PORT and PUSH_INTERVAL, as set or as defaulted, spell integers, configuration succeeds with exactly those integers; a set REDIS_PASSWORD is used verbatim |
| `Config.NoRangeValidation` | producer/producer.py:17-20 | port 70000 and interval -5 are accepted as they are: there is no range or sign check |
| `Connection.MakeClient` | producer/producer.py:29-38 | a new handle targets the configured host, port and password, with a 5-second connect timeout, keepalive and decoded responses; building one cannot fail |
| `Connection.LeadingFailures` | producer/producer.py:47-53 | the index of the first successful probe: every earlier probe failed, and the probe at that index succeeded (or none did) |
| `Connection.WaitForRedis` | producer/producer.py:41-60 | returns the handle built after the k leading failures when k < 30, or fails (`None`) when the first 30 probes all fail; its events are exactly `ConnectTrace(probes)`; the final attempt counter equals the number of failed probes and is at most 30 |
| `Connection.FailedRoundsTally` | producer/producer.py:52-58 | every failed round is one failed probe, one 3-second sleep and one new handle |
| `Connection.ConnectsAfterLeadingFailures` | producer/producer.py:47-58 | k failures (k < 30) then a success: k + 1 probes, k sleeps (3k seconds), k + 1 handles, and the successful probe is the last event |
| `Connection.GivesUpAfterMaxRetries` | producer/producer.py:43-60 | 30 failures: exactly 30 probes, 30 sleeps (90 s) and 31 handles; the 30th failure is still followed by a sleep and a new handle before giving up |
| `Connection.AtMostMaxRetriesProbes` | producer/producer.py:44-47 | whatever the probes answer, at most 30 are made, and handles built = failed probes + 1 |
| `Reading.RoundHalfEven` | producer/producer.py:65 | the result is the integer nearest to x / d, and a tie goes to the even one |
| `Reading.Valor` | producer/producer.py:65 | `valor` is the hundredth nearest to 100 times the draw, and lies between 0 and 100.00 (0..10000 hundredths) for every draw in [0, 1) |
| `Reading.RoundedBelowBound` | producer/producer.py:65 | rounding `bound * num / d` for `num < d` never rounds past `bound` |
| `Reading.ValorReachesHundred` | producer/producer.py:65 | the upper end 100.00 is reached by a draw just below 1 |
| `Reading.GenerateSensorData` | producer/producer.py:63-72 | a generated reading carries the configured sensor id, a value of at most 100.00, and the clock text followed by `Z` |
| `Reading.Fields` | producer/producer.py:68-72 | the payload has exactly the keys `sensor_id`, `valor`, `timestamp`, in that order, holding the reading's fields |
| `Reading.PayloadShape` | producer/producer.py:63-72 | every payload handed to `json.dumps` has exactly those three keys, the configured sensor id, and a value of at most 100.00 |
| `Producer.StatusAfter` | producer/producer.py:95-106 | with a non-negative interval the loop goes on after every outcome without an interrupt; it stops cleanly on an interrupt caught at line 101; it ends abnormally on an interrupt in the sleep of line 106, or after any iteration that reaches a sleep with a negative interval (ValueError escaping line 106) |
| `Producer.Consumed` | producer/producer.py:86-106 | the loop runs up to and including the first tick that ends it; no earlier tick ends it |
| `Producer.ReversedAt` | producer/producer.py:93 | position i of the list holds the record pushed i pushes before the newest |
| `Producer.RunIterations` | producer/producer.py:85-88 | each iteration adds exactly 1 to `iteration`: after the loop it has grown by the number of ticks consumed |
| `Producer.RunStatus` | producer/producer.py:86-106 | the loop ends with the status of the last tick consumed, and is still running only if no consumed tick ended it |
| `Producer.RunBuilt` | producer/producer.py:95-97 | one new handle is built per Redis error among the ticks consumed, and no other handle |
| `Producer.RunSensors` | producer/producer.py:92-97 | after the loop the list is the records pushed, newest first (LPUSH order), ahead of the old contents; failed pushes add nothing |
| `Producer.NegativeIntervalEndsFirstIteration` | producer/producer.py:86-106 | with a negative interval exactly one iteration runs: its push or reconnect takes effect, and the process then ends abnormally, or cleanly if the first tick was an interrupt |
| `Producer.PublishedBound` | producer/producer.py:92-97 | each tick publishes at most one record, and a tick with a Redis error publishes none (the reading is dropped) |
| `Producer.PublishedFromPushes` | producer/producer.py:89-93 | every record on the list is the encoding of a reading generated in a tick whose push succeeded |
| `Producer.Producer.constructor` | producer/producer.py:80-85 | the loop starts with the handle `wait_for_redis` returned, as the newest handle built, `iteration` 0, and the store as it was |
| `Producer.Producer.Step` | producer/producer.py:87-106 | the new state is `StepSpec` of the old one: `iteration` goes up by 1; a successful push puts `[dumps(payload)] + old` in the list; a Redis error leaves the list unchanged and installs a new handle (generation + 1); other outcomes change neither; the status follows `StatusAfter` for the configured interval, so a negative interval crashes after the push or reconnect; the handle in use stays the newest one built and targets the configured store |
| `Producer.Producer.Run` | producer/producer.py:85-106 | the new state is `RunSpec` of the old one: `iteration` rose by the number of ticks consumed; the list is the records pushed, newest first, ahead of the old contents; one handle was built per Redis error; the handle in use is the newest |
| `Producer.ProducerProcess` | producer/producer.py:16-106 | a configuration error ends the process before any probe; 30 failed probes end it with the store untouched; otherwise the loop's list, iteration count and exit are those of `Run` under the configured interval, so a negative interval escapes `main` after one iteration |

## Left out

- `generate_report.py`: it renders a PDF through reportlab and reads the
  filesystem. It is not part of this model.
- The Redis client itself: sockets, `ping`, `lpush` transport, the connect
  timeout and keepalive behaviour. Probe and push results are inputs.
- All `print` output and the real duration of sleeps. `wait_for_redis`
  records its sleeps as events. The loop's `time.sleep(PUSH_INTERVAL)` is
  modelled only as the place where an interrupt may arrive and, with a
  negative interval, where ValueError is raised.
- `random.uniform` is an exact fraction, not a 53-bit float. Floating-point
  error in `100 * random()` and in `round` is not modelled. Neither is the
  distribution.
- `datetime.utcnow().isoformat()` is an input string, and its format is not
  checked.
- `json.dumps` is a function parameter (`Encoder`). No claim is made about its
  output or about decoding it.
- Config.ParseInt: it rejects surrounding whitespace, digit-group underscores
  and non-ASCII digits, all of which Python's `int()` accepts.
- Config.ParseInt: it has no limit on the number of digits. CPython 3.11
  and later, and the 3.7-3.10 security releases, raise ValueError on a
  numeral of more than 4300 digits, so such a REDIS_PORT or PUSH_INTERVAL
  fails configuration there. The limit depends on the interpreter version
  and on `sys.set_int_max_str_digits`.
- Config.ParseIntOfIntText: for the same reason, `str(n)` raises on those
  interpreters for an `n` of more than 4300 digits. The round trip is
  stated without that limit.
- Connection.WaitForRedis: it requires one probe outcome for each of the 30
  attempts it may make, even when fewer are used.
- Producer.Producer.Step: an interval too large for `time.sleep`
  (OverflowError) is treated as a valid sleep, because the limit depends on
  the platform. The model's crash covers negative intervals only.
- Producer.Producer.Step: a KeyboardInterrupt arriving before `iteration += 1`
  is modelled as arriving after it. The counter is not observable after the
  loop ends.
- Producer.Producer.Step: an exception raised after a successful `lpush`
  (from the print at line 94) is not modelled separately. `OtherError` means
  the push did not take effect.
- A KeyboardInterrupt during `wait_for_redis` or during configuration is not
  modelled.
- Exit statuses are named (`Exit`), not given as numeric process codes.
- The endless `while True` runs over a finite sequence of ticks.
  `StillRunning` means the ticks ran out.
