/** Store handles and the bounded-retry connection acquisition of the
    producer (producer/producer.py, lines 29-60). The store itself is not
    modelled: a handle is a value naming the endpoint it targets and its
    generation (how many handles were built before it), and each liveness
    probe (`r.ping()`) is an outcome supplied by the caller. */
module Connection {
  import opened Wrappers
  import opened Config

  /** `max_retries` */
  const MaxRetries: nat := 30
  /** `wait_time`, the fixed pause after a failed probe */
  const RetryDelaySeconds: nat := 3
  /** `socket_connect_timeout` of every handle */
  const ConnectTimeoutSeconds: nat := 5

  /** A `redis.Redis` handle as `make_client` builds it. */
  datatype Client = Client(
    host: string,
    port: int,
    password: Option<string>,
    connectTimeout: nat,
    keepalive: bool,
    decodeResponses: bool,
    generation: nat)

  /** `make_client()`: a fresh handle to the configured store. Building a
      handle opens nothing and cannot fail. */
  function MakeClient(cfg: Settings, generation: nat): (c: Client)
    ensures c.host == cfg.host && c.port == cfg.port && c.password == cfg.password
    ensures c.connectTimeout == 5 && c.keepalive && c.decodeResponses
    ensures c.generation == generation
  {
    Client(cfg.host, cfg.port, cfg.password, ConnectTimeoutSeconds, true, true, generation)
  }

  /** What `wait_for_redis` does, in order: build a handle, probe it, sleep. */
  datatype Event = Construct(generation: nat) | Probe(ok: bool) | Sleep(seconds: nat)

  /** How many probes (and failed probes), sleeps, seconds slept and
      handles built a sequence of events contains. */
  datatype Tally = Tally(probes: nat, failedProbes: nat, sleeps: nat, seconds: nat, handles: nat)
  {
    function Plus(other: Tally): Tally
    {
      Tally(probes + other.probes, failedProbes + other.failedProbes, sleeps + other.sleeps,
            seconds + other.seconds, handles + other.handles)
    }
  }

  function TallyOf(t: seq<Event>): Tally
  {
    if |t| == 0 then Tally(0, 0, 0, 0, 0)
    else
      var before, e := TallyOf(t[..|t| - 1]), t[|t| - 1];
      Tally(before.probes + (if e.Probe? then 1 else 0),
            before.failedProbes + (if e.Probe? && !e.ok then 1 else 0),
            before.sleeps + (if e.Sleep? then 1 else 0),
            before.seconds + (if e.Sleep? then e.seconds else 0),
            before.handles + (if e.Construct? then 1 else 0))
  }

  /** Number of leading failed probes: the index of the first success, or
      the length of `probes` when every probe fails. */
  function LeadingFailures(probes: seq<bool>): (k: nat)
    ensures k <= |probes|
    ensures forall i :: 0 <= i < k ==> !probes[i]
    ensures k < |probes| ==> probes[k]
  {
    if |probes| == 0 || probes[0] then 0 else 1 + LeadingFailures(probes[1..])
  }

  /** The events of the first `n` failed rounds of the loop: the probe
      fails, the producer sleeps 3 seconds, then builds handle number `i`. */
  function FailedRounds(n: nat): seq<Event>
  {
    if n == 0 then []
    else FailedRounds(n - 1) + [Probe(false), Sleep(RetryDelaySeconds), Construct(n)]
  }

  /** The events of `wait_for_redis` against the given probe outcomes. */
  function ConnectTrace(probes: seq<bool>): seq<Event>
  {
    var k := LeadingFailures(probes);
    var failures := if k < MaxRetries then k else MaxRetries;
    [Construct(0)] + FailedRounds(failures) + (if k < MaxRetries then [Probe(true)] else [])
  }

  /** `wait_for_redis()`. `probes[i]` is the outcome of the i-th ping; a
      probe is answered for each of the 30 attempts the loop may make. The
      result is the live handle, or `None` for the exception raised after
      30 failed probes; `attempts` is the final value of the attempt counter. */
  method WaitForRedis(cfg: Settings, probes: seq<bool>)
    returns (client: Option<Client>, attempts: nat, trace: seq<Event>)
    requires |probes| >= MaxRetries
    ensures trace == ConnectTrace(probes)
    ensures attempts == TallyOf(trace).failedProbes && attempts <= MaxRetries
    ensures client == (if LeadingFailures(probes) < MaxRetries
                       then Some(MakeClient(cfg, LeadingFailures(probes)))
                       else None)
  {
    var r := MakeClient(cfg, 0);
    trace := [Construct(0)];
    attempts := 0;
    while attempts < MaxRetries
      invariant attempts <= MaxRetries
      invariant forall i :: 0 <= i < attempts ==> !probes[i]
      invariant r == MakeClient(cfg, attempts)
      invariant trace == [Construct(0)] + FailedRounds(attempts)
    {
      if probes[attempts] {
        trace := trace + [Probe(true)];
        ConnectsAfterLeadingFailures(probes, attempts);
        return Some(r), attempts, trace;
      }
      attempts := attempts + 1;
      trace := trace + [Probe(false), Sleep(RetryDelaySeconds), Construct(attempts)];
      r := MakeClient(cfg, attempts);
    }
    assert trace + [] == trace;
    GivesUpAfterMaxRetries(probes);
    client := None;
  }

  lemma {:induction false} TallyAppend(a: seq<Event>, b: seq<Event>)
    ensures TallyOf(a + b) == TallyOf(a).Plus(TallyOf(b))
  {
    if |b| > 0 {
      assert (a + b)[..|a + b| - 1] == a + b[..|b| - 1];
      TallyAppend(a, b[..|b| - 1]);
    } else {
      assert a + b == a;
    }
  }

  /** Each failed round holds one probe (a failed one), one 3-second sleep
      and one new handle. */
  lemma {:induction false} FailedRoundsTally(n: nat)
    ensures TallyOf(FailedRounds(n)) == Tally(n, n, n, RetryDelaySeconds * n, n)
  {
    if n > 0 {
      FailedRoundsTally(n - 1);
      RoundTally(n);
      TallyAppend(FailedRounds(n - 1), [Probe(false), Sleep(RetryDelaySeconds), Construct(n)]);
    }
  }

  lemma RoundTally(n: nat)
    ensures TallyOf([Probe(false), Sleep(RetryDelaySeconds), Construct(n)]) ==
      Tally(1, 1, 1, RetryDelaySeconds, 1)
  {
    var round := [Probe(false), Sleep(RetryDelaySeconds), Construct(n)];
    var two := [Probe(false), Sleep(RetryDelaySeconds)];
    assert round[..|round| - 1] == two;
    assert two[..|two| - 1] == [Probe(false)];
    assert TallyOf([Probe(false)]) == Tally(1, 1, 0, 0, 0);
    assert TallyOf(two) == Tally(1, 1, 1, RetryDelaySeconds, 0);
  }

  /** If the first k probes fail (k < 30) and the next succeeds, the producer
      probes k + 1 times, sleeps k times (3 s each), builds k + 1 handles,
      and the successful probe is the last thing it does. */
  lemma ConnectsAfterLeadingFailures(probes: seq<bool>, k: nat)
    requires k < MaxRetries && k < |probes| && probes[k]
    requires forall i :: 0 <= i < k ==> !probes[i]
    ensures TallyOf(ConnectTrace(probes)) == Tally(k + 1, k, k, RetryDelaySeconds * k, k + 1)
    ensures ConnectTrace(probes)[|ConnectTrace(probes)| - 1] == Probe(true)
  {
    assert LeadingFailures(probes) == k;
    assert ConnectTrace(probes) == [Construct(0)] + FailedRounds(k) + [Probe(true)];
    FailedRoundsTally(k);
    TallyAppend([Construct(0)], FailedRounds(k));
    TallyAppend([Construct(0)] + FailedRounds(k), [Probe(true)]);
  }

  /** If none of the first 30 probes succeeds, the producer gives up after
      exactly 30 probes, having slept 30 times (90 s) and built 31 handles:
      the first one and one after every failure, the 30th included. */
  lemma GivesUpAfterMaxRetries(probes: seq<bool>)
    requires |probes| >= MaxRetries
    requires forall i :: 0 <= i < MaxRetries ==> !probes[i]
    ensures TallyOf(ConnectTrace(probes)) == Tally(30, 30, 30, 90, 31)
    ensures ConnectTrace(probes)[|ConnectTrace(probes)| - 1] == Construct(30)
  {
    var k := LeadingFailures(probes);
    assert k >= MaxRetries;
    var failures := if k < MaxRetries then k else MaxRetries;
    FailedRoundsTally(failures);
    TallyAppend([Construct(0)], FailedRounds(failures));
    assert ConnectTrace(probes) == [Construct(0)] + FailedRounds(failures);
  }

  /** Whatever the probes answer, at most 30 probes are made, and the
      producer builds exactly one handle per probe plus one after the last
      probe if that one failed. */
  lemma AtMostMaxRetriesProbes(probes: seq<bool>)
    requires |probes| >= MaxRetries
    ensures TallyOf(ConnectTrace(probes)).probes <= MaxRetries
    ensures TallyOf(ConnectTrace(probes)).handles == TallyOf(ConnectTrace(probes)).failedProbes + 1
  {
    var k := LeadingFailures(probes);
    if k < MaxRetries {
      ConnectsAfterLeadingFailures(probes, k);
    } else {
      GivesUpAfterMaxRetries(probes);
    }
  }
}
