/** The producer's main loop (producer/producer.py, lines 75-106) and the
    whole process. The store's `sensors` list is a sequence, head first, as
    Redis `LPUSH` keeps it; `json.dumps` is the encoder passed in; each loop
    iteration is driven by a `Tick` saying how the iteration went and
    carrying the random draw and clock text it saw. The endless
    `while True` runs over a finite sequence of ticks. */
module Producer {
  import opened Wrappers
  import opened Config
  import opened Connection
  import opened Reading

  /** `json.dumps` */
  type Encoder = Payload -> string

  /** How one iteration of the loop ends.
      - `Pushed`: `lpush` succeeded;
      - `StoreError`: `lpush` raised ConnectionError or RedisError;
      - `OtherError`: any other exception escaped the body before the push;
      - `Interrupt`: KeyboardInterrupt before the push took effect.
      `interrupted` says that KeyboardInterrupt arrived during the sleep
      that ends the iteration: the one at line 99 (caught at line 101), or,
      after `OtherError`, the one at line 106, which no handler covers. */
  datatype StepOutcome =
    | Pushed(interrupted: bool)
    | StoreError(interrupted: bool)
    | OtherError(interrupted: bool)
    | Interrupt

  /** Running; left the loop through `break`; or left `main` with an
      exception raised in the except-branch sleep of line 106. */
  datatype Status = Running | Stopped | Crashed

  /** The status after one iteration with the given `PUSH_INTERVAL`.
      `time.sleep` raises ValueError on a negative length: with a negative
      interval the sleep at line 99 raises, line 104 catches it, and the
      sleep at line 106 raises it again out of `main`; after `OtherError`
      the sleep at line 106 raises at once. An interrupt before the push
      breaks out of the loop before any sleep. Otherwise the loop goes on
      after every outcome except an interrupt, and only an interrupt in the
      line-106 sleep escapes `main`. */
  function StatusAfter(o: StepOutcome, pushInterval: int): (s: Status)
    ensures s == Running <==> pushInterval >= 0 && !o.Interrupt? && !o.interrupted
    ensures s == Crashed <==> !o.Interrupt? && (pushInterval < 0 || o == OtherError(true))
    ensures s == Stopped <==> o.Interrupt? || (pushInterval >= 0 && !o.OtherError? && o.interrupted)
  {
    match o
    case Interrupt => Stopped
    case Pushed(interrupted) =>
      if pushInterval < 0 then Crashed else if interrupted then Stopped else Running
    case StoreError(interrupted) =>
      if pushInterval < 0 then Crashed else if interrupted then Stopped else Running
    case OtherError(interrupted) =>
      if pushInterval < 0 || interrupted then Crashed else Running
  }

  predicate Ends(o: StepOutcome, pushInterval: int)
  {
    StatusAfter(o, pushInterval) != Running
  }

  datatype Tick = Tick(outcome: StepOutcome, draw: UnitDraw, isoNow: string)

  /** `json.dumps(payload)` for the reading generated in this tick. */
  function Record(cfg: Settings, dumps: Encoder, t: Tick): string
  {
    dumps(Fields(GenerateSensorData(cfg, t.draw, t.isoNow)))
  }

  /** The records successfully pushed by `ticks`, oldest first. */
  function Published(cfg: Settings, dumps: Encoder, ticks: seq<Tick>): seq<string>
  {
    if |ticks| == 0 then []
    else
      (if ticks[0].outcome.Pushed? then [Record(cfg, dumps, ticks[0])] else []) +
      Published(cfg, dumps, ticks[1..])
  }

  /** Number of iterations in `ticks` whose push hit a store error. */
  function StoreErrors(ticks: seq<Tick>): nat
  {
    if |ticks| == 0 then 0
    else (if ticks[0].outcome.StoreError? then 1 else 0) + StoreErrors(ticks[1..])
  }

  function Reversed(s: seq<string>): (r: seq<string>)
    ensures |r| == |s|
  {
    if |s| == 0 then [] else Reversed(s[1..]) + [s[0]]
  }

  /** How many ticks the loop consumes: up to and including the first one
      that ends it, or all of them. */
  function Consumed(ticks: seq<Tick>, pushInterval: int): (n: nat)
    ensures n <= |ticks|
    ensures forall i :: 0 <= i < n - 1 ==> !Ends(ticks[i].outcome, pushInterval)
    ensures n < |ticks| ==> n > 0 && Ends(ticks[n - 1].outcome, pushInterval)
    ensures n == |ticks| && n > 0 && !Ends(ticks[n - 1].outcome, pushInterval) ==>
      forall i :: 0 <= i < |ticks| ==> !Ends(ticks[i].outcome, pushInterval)
  {
    if |ticks| == 0 then 0
    else if Ends(ticks[0].outcome, pushInterval) then 1
    else 1 + Consumed(ticks[1..], pushInterval)
  }

  /** Position i of the reversal is position |s| - 1 - i of the original:
      the newest record is at the head of the list. */
  lemma {:induction false} ReversedAt(s: seq<string>, i: nat)
    requires i < |s|
    ensures Reversed(s)[i] == s[|s| - 1 - i]
  {
    if i < |s| - 1 {
      ReversedAt(s[1..], i);
    }
  }

  /** The loop's state as the code sees it: the store's list, the number of
      handles built (the one in use is the last), `iteration`, and whether
      the loop is still running. */
  datatype LoopState = LoopState(sensors: seq<string>, built: nat, iteration: nat, status: Status)

  /** One pass of the loop body (lines 87-106) as a state transition. */
  function StepSpec(cfg: Settings, dumps: Encoder, s: LoopState, t: Tick): LoopState
  {
    LoopState(
      if t.outcome.Pushed? then [Record(cfg, dumps, t)] + s.sensors else s.sensors,
      s.built + (if t.outcome.StoreError? then 1 else 0),
      s.iteration + 1,
      StatusAfter(t.outcome, cfg.pushInterval))
  }

  /** The loop over `ticks`: steps while running and ticks remain. */
  function RunSpec(cfg: Settings, dumps: Encoder, s: LoopState, ticks: seq<Tick>): LoopState
    decreases |ticks|
  {
    if |ticks| == 0 || s.status != Running then s
    else RunSpec(cfg, dumps, StepSpec(cfg, dumps, s, ticks[0]), ticks[1..])
  }

  /** Each iteration of the loop adds exactly 1 to `iteration`: the loop
      runs `Consumed(ticks, cfg.pushInterval)` iterations. */
  lemma {:induction false} RunIterations(cfg: Settings, dumps: Encoder, s: LoopState, ticks: seq<Tick>)
    requires s.status == Running
    decreases |ticks|
    ensures RunSpec(cfg, dumps, s, ticks).iteration == s.iteration + Consumed(ticks, cfg.pushInterval)
  {
    if |ticks| > 0 && !Ends(ticks[0].outcome, cfg.pushInterval) {
      RunIterations(cfg, dumps, StepSpec(cfg, dumps, s, ticks[0]), ticks[1..]);
    }
  }

  /** The loop stops with the status of the last tick it consumed, and only
      once a tick has ended it. */
  lemma {:induction false} RunStatus(cfg: Settings, dumps: Encoder, s: LoopState, ticks: seq<Tick>)
    requires s.status == Running
    decreases |ticks|
    ensures var n := Consumed(ticks, cfg.pushInterval);
      RunSpec(cfg, dumps, s, ticks).status ==
        (if n == 0 then Running else StatusAfter(ticks[n - 1].outcome, cfg.pushInterval))
  {
    if |ticks| > 0 && !Ends(ticks[0].outcome, cfg.pushInterval) {
      var rest := ticks[1..];
      RunStatus(cfg, dumps, StepSpec(cfg, dumps, s, ticks[0]), rest);
      var m := Consumed(rest, cfg.pushInterval);
      assert m > 0 ==> rest[m - 1] == ticks[m];
    }
  }

  /** One handle is built per store error among the ticks consumed. */
  lemma {:induction false} RunBuilt(cfg: Settings, dumps: Encoder, s: LoopState, ticks: seq<Tick>)
    requires s.status == Running
    decreases |ticks|
    ensures RunSpec(cfg, dumps, s, ticks).built == s.built + StoreErrors(ticks[..Consumed(ticks, cfg.pushInterval)])
  {
    if |ticks| > 0 {
      var n := Consumed(ticks, cfg.pushInterval);
      PrefixCons(cfg, dumps, ticks, n);
      if !Ends(ticks[0].outcome, cfg.pushInterval) {
        RunBuilt(cfg, dumps, StepSpec(cfg, dumps, s, ticks[0]), ticks[1..]);
      }
    }
  }

  /** The list after the loop holds the records pushed, newest first, ahead
      of what was there: LPUSH order. */
  lemma {:induction false} RunSensors(cfg: Settings, dumps: Encoder, s: LoopState, ticks: seq<Tick>)
    requires s.status == Running
    decreases |ticks|
    ensures RunSpec(cfg, dumps, s, ticks).sensors ==
      Reversed(Published(cfg, dumps, ticks[..Consumed(ticks, cfg.pushInterval)])) + s.sensors
  {
    if |ticks| > 0 {
      var t := ticks[0];
      var n := Consumed(ticks, cfg.pushInterval);
      PrefixCons(cfg, dumps, ticks, n);
      var rest := ticks[1..];
      var p := Published(cfg, dumps, rest[..n - 1]);
      ReversedCons(t.outcome.Pushed?, Record(cfg, dumps, t), p);
      if !Ends(t.outcome, cfg.pushInterval) {
        RunSensors(cfg, dumps, StepSpec(cfg, dumps, s, t), rest);
      } else {
        assert p == [];
      }
    }
  }

  /** With a negative `PUSH_INTERVAL` the first iteration is the last: its
      push or reconnect still happens, then the sleep at line 99 raises
      ValueError, line 104 catches it and the sleep at line 106 raises it
      out of `main`. Only an interrupt before the push ends it cleanly. */
  lemma NegativeIntervalEndsFirstIteration(cfg: Settings, dumps: Encoder, s: LoopState, ticks: seq<Tick>)
    requires s.status == Running && cfg.pushInterval < 0 && |ticks| > 0
    ensures Consumed(ticks, cfg.pushInterval) == 1
    ensures var r, t := RunSpec(cfg, dumps, s, ticks), ticks[0];
      r.iteration == s.iteration + 1 &&
      r.sensors == (if t.outcome.Pushed? then [Record(cfg, dumps, t)] + s.sensors else s.sensors) &&
      r.built == s.built + (if t.outcome.StoreError? then 1 else 0) &&
      r.status == (if t.outcome.Interrupt? then Stopped else Crashed)
  {
  }

  /** Splitting the first tick off a non-empty consumed prefix. */
  lemma PrefixCons(cfg: Settings, dumps: Encoder, ticks: seq<Tick>, n: nat)
    requires 0 < n <= |ticks|
    ensures Published(cfg, dumps, ticks[..n]) ==
      (if ticks[0].outcome.Pushed? then [Record(cfg, dumps, ticks[0])] else []) +
      Published(cfg, dumps, ticks[1..][..n - 1])
    ensures StoreErrors(ticks[..n]) ==
      (if ticks[0].outcome.StoreError? then 1 else 0) + StoreErrors(ticks[1..][..n - 1])
    ensures ticks[n - 1] == (if n == 1 then ticks[0] else ticks[1..][n - 2])
  {
    assert ticks[..n][0] == ticks[0];
    assert ticks[..n][1..] == ticks[1..][..n - 1];
  }

  lemma ReversedCons(pushed: bool, x: string, p: seq<string>)
    ensures Reversed((if pushed then [x] else []) + p) == Reversed(p) + (if pushed then [x] else [])
  {
    if pushed {
      assert ([x] + p)[1..] == p;
    } else {
      assert [] + p == p;
    }
  }

  /** Each tick publishes at most one record, and a tick that hits a store
      error publishes none: the reading is dropped. */
  lemma {:induction false} PublishedBound(cfg: Settings, dumps: Encoder, ticks: seq<Tick>)
    ensures |Published(cfg, dumps, ticks)| + StoreErrors(ticks) <= |ticks|
  {
    if |ticks| > 0 {
      PublishedBound(cfg, dumps, ticks[1..]);
    }
  }

  /** Every published record is the encoding of a reading generated in a
      tick whose push succeeded. */
  lemma {:induction false} PublishedFromPushes(cfg: Settings, dumps: Encoder, ticks: seq<Tick>, k: nat)
    requires k < |Published(cfg, dumps, ticks)|
    ensures exists j :: (0 <= j < |ticks| && ticks[j].outcome.Pushed? &&
                         Published(cfg, dumps, ticks)[k] == Record(cfg, dumps, ticks[j]))
  {
    var rest := ticks[1..];
    if ticks[0].outcome.Pushed? && k == 0 {
      assert Published(cfg, dumps, ticks)[0] == Record(cfg, dumps, ticks[0]);
    } else {
      var k' := if ticks[0].outcome.Pushed? then k - 1 else k;
      assert Published(cfg, dumps, ticks)[k] == Published(cfg, dumps, rest)[k'];
      PublishedFromPushes(cfg, dumps, rest, k');
      var j :| 0 <= j < |rest| && rest[j].outcome.Pushed? &&
        Published(cfg, dumps, rest)[k'] == Record(cfg, dumps, rest[j]);
      assert ticks[j + 1] == rest[j];
    }
  }

  /** The producer: its configuration, the encoder, the store's `sensors`
      list, the current handle `r`, the number of handles built so far and
      the loop's `iteration` counter. */
  class Producer {
    const cfg: Settings
    const dumps: Encoder
    var sensors: seq<string>
    var client: Client
    var built: nat
    var iteration: nat
    var status: Status

    /** The handle in use targets the configured store and is the newest
        one built. */
    ghost predicate Valid()
      reads this
    {
      built > 0 && client == MakeClient(cfg, built - 1)
    }

    /** The state right after `wait_for_redis` returned `client` (line 80)
        and `iteration = 0` (line 85). */
    constructor (cfg: Settings, dumps: Encoder, store: seq<string>, client: Client)
      requires client == MakeClient(cfg, client.generation)
      ensures Valid()
      ensures this.cfg == cfg && this.dumps == dumps && this.client == client
      ensures sensors == store && built == client.generation + 1
      ensures iteration == 0 && status == Running
    {
      this.cfg := cfg;
      this.dumps := dumps;
      this.sensors := store;
      this.client := client;
      this.built := client.generation + 1;
      this.iteration := 0;
      this.status := Running;
    }

    ghost function State(): LoopState
      reads this
    {
      LoopState(sensors, built, iteration, status)
    }

    /** One iteration of `while True` (lines 87-106): `iteration += 1`; on a
        successful push the record goes to the head of the list; on a Redis
        error the list is unchanged and a new handle replaces the old one;
        other errors change nothing; the status follows `StatusAfter`. */
    method Step(t: Tick)
      requires Valid() && status == Running
      modifies this
      ensures Valid()
      ensures State() == StepSpec(cfg, dumps, old(State()), t)
      ensures !t.outcome.StoreError? ==> client == old(client)
    {
      iteration := iteration + 1;
      match t.outcome {
        case Pushed(_) =>
          var payload := GenerateSensorData(cfg, t.draw, t.isoNow);
          sensors := [dumps(Fields(payload))] + sensors;
        case StoreError(_) =>
          client := MakeClient(cfg, built);
          built := built + 1;
        case OtherError(_) =>
        case Interrupt =>
      }
      status := StatusAfter(t.outcome, cfg.pushInterval);
    }

    /** The loop of lines 86-106 over `ticks`, until one of them ends it or
        they run out. */
    method Run(ticks: seq<Tick>) returns (consumed: nat)
      requires Valid() && status == Running
      modifies this
      ensures Valid()
      ensures State() == RunSpec(cfg, dumps, old(State()), ticks)
      ensures consumed == Consumed(ticks, cfg.pushInterval)
      ensures iteration == old(iteration) + consumed
      ensures sensors == Reversed(Published(cfg, dumps, ticks[..consumed])) + old(sensors)
      ensures built == old(built) + StoreErrors(ticks[..consumed])
      ensures status == if consumed == 0 then Running
                        else StatusAfter(ticks[consumed - 1].outcome, cfg.pushInterval)
    {
      ghost var start := State();
      consumed := 0;
      while consumed < |ticks| && status == Running
        invariant consumed <= |ticks|
        invariant Valid()
        invariant iteration == start.iteration + consumed
        invariant RunSpec(cfg, dumps, start, ticks) == RunSpec(cfg, dumps, State(), ticks[consumed..])
      {
        Step(ticks[consumed]);
        assert ticks[consumed..][1..] == ticks[consumed + 1..];
        consumed := consumed + 1;
      }
      assert State() == RunSpec(cfg, dumps, start, ticks);
      RunIterations(cfg, dumps, start, ticks);
      RunStatus(cfg, dumps, start, ticks);
      RunBuilt(cfg, dumps, start, ticks);
      RunSensors(cfg, dumps, start, ticks);
    }
  }

  /** How the process ends. */
  datatype Exit =
    | ConfigFailed(error: ConfigError)   // ValueError at import time
    | ConnectFailed                      // exception after 30 failed probes
    | CleanExit                          // `break` on KeyboardInterrupt
    | ExceptionEscaped                   // raised by the line-106 sleep
    | StillRunning                       // the ticks ran out first

  function ExitOf(s: Status): Exit
  {
    match s
    case Running => StillRunning
    case Stopped => CleanExit
    case Crashed => ExceptionEscaped
  }

  /** The whole process: configuration (lines 16-20), `wait_for_redis`
      (line 80), then the loop, against the given environment, probe
      outcomes, initial store contents and ticks. */
  method ProducerProcess(env: map<string, string>, dumps: Encoder, probes: seq<bool>,
                         store: seq<string>, ticks: seq<Tick>)
    returns (exit: Exit, sensors: seq<string>, trace: seq<Event>, iterations: nat)
    requires |probes| >= MaxRetries
    ensures ResolveConfig(env).Failure? ==>
      exit == ConfigFailed(ResolveConfig(env).error) && sensors == store && trace == [] && iterations == 0
    ensures ResolveConfig(env).Success? ==> trace == ConnectTrace(probes)
    ensures ResolveConfig(env).Success? && LeadingFailures(probes) >= MaxRetries ==>
      exit == ConnectFailed && sensors == store && iterations == 0
    ensures ResolveConfig(env).Success? && LeadingFailures(probes) < MaxRetries ==>
      var n := Consumed(ticks, ResolveConfig(env).value.pushInterval);
      iterations == n &&
      sensors == Reversed(Published(ResolveConfig(env).value, dumps, ticks[..n])) + store &&
      exit == (if n == 0 then StillRunning
               else ExitOf(StatusAfter(ticks[n - 1].outcome, ResolveConfig(env).value.pushInterval)))
  {
    match ResolveConfig(env) {
      case Failure(e) =>
        return ConfigFailed(e), store, [], 0;
      case Success(cfg) =>
        var client, attempts;
        client, attempts, trace := WaitForRedis(cfg, probes);
        if client.None? {
          return ConnectFailed, store, trace, 0;
        }
        var p := new Producer(cfg, dumps, store, client.value);
        var n := p.Run(ticks);
        exit := if n == 0 then StillRunning else ExitOf(p.status);
        sensors := p.sensors;
        iterations := p.iteration;
    }
  }
}
