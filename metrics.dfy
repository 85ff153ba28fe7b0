/**
 * The metrics scatter-gather loop of the event layer (cc-tstl/src/api/event.ts):
 * `runMetricCollector` broadcasts a `metric_collect` event on every interval timer and
 * gathers the `metric_response` events of the publishers until each has answered or the
 * response timeout fires; `runMetricProvider` answers every collect with its samples.
 *
 * The host is an input: the collector sees a finite trace of what its `pullEventRaw` calls
 * give (an event, or the error the call throws), each paired with the value
 * `os.epoch("utc")` would return while it is handled, and the n-th call of `os.startTimer`
 * returns `timerIds(n)`.  What the loops hand back to the host (timers started, events
 * queued, payloads flushed) is an output log.  An exception ends either loop: the model
 * records it and pulls no more.
 */
module Metrics {
  import opened Wrappers
  import opened Values
  import opened Events
  import opened EventProperties
  import opened EventRoundTrip

  /** What the loops hand to the host, in order. */
  datatype Signal =
    | StartTimer(id: real, seconds: real)   // `os.startTimer(seconds)`, which returned `id`
    | Queue(tuple: seq<Value>)              // `os.queueEvent(...tuple)`
    | Flush(payload: Value)                 // `options.on_flush(payload)`

  /** `MetricCollectorOptions`; `on_flush` is opaque, only whether it is given matters. */
  datatype Options = Options(intervalSeconds: real, responseTimeoutSeconds: Option<real>, hasOnFlush: bool)

  /** The ids the host's successive `os.startTimer` calls return. */
  type TimerIds = nat -> real

  /** `math.max(0.05, options.interval_seconds)`. */
  function Interval(o: Options): (r: real)
    ensures r >= 0.05 && r >= o.intervalSeconds
    ensures r == 0.05 || r == o.intervalSeconds
  {
    if o.intervalSeconds < 0.05 then 0.05 else o.intervalSeconds
  }

  /** `options.response_timeout_seconds ?? intervalSeconds * 0.5`. */
  function ResponseTimeout(o: Options): real {
    if o.responseTimeoutSeconds.Some? then o.responseTimeoutSeconds.value else Interval(o) * 0.5
  }

  /** What ends a loop by an exception: a throw out of `pullEventRaw`, or a `for..of` over a non-iterable. */
  datatype Thrown = Decode(error: DecodeError) | NotIterable(value: Value)

  /** What one `pullEventRaw` call gives: the decoded event, or the error it throws. */
  type Pulled = Result<Event, DecodeError>

  /**
   * The entries `for (const entry of resource_metrics)` visits: the items of an array, the
   * characters of a string, one at a time; any other value is not iterable and the loop throws.
   */
  function Entries(v: Value): (r: Result<seq<Value>, Thrown>)
    ensures r.Ok? <==> v.Arr? || v.Str?
    ensures r.Err? ==> r.error == NotIterable(v)
    ensures v.Arr? ==> r == Ok(v.items)
    ensures v.Str? ==> r.Ok? && |r.value| == |v.s| && forall k :: 0 <= k < |v.s| ==> r.value[k] == Str([v.s[k]])
  {
    if v.Arr? then Ok(v.items)
    else if v.Str? then Ok(seq(|v.s|, k requires 0 <= k < |v.s| => Str([v.s[k]])))
    else Err(NotIterable(v))
  }

  /** The `MetricsData` a round flushes: `{ resource_metrics: collected }`. */
  function Payload(collected: seq<Value>): Value {
    Obj(map["resource_metrics" := Arr(collected)])
  }

  /** Where the payload goes: `on_flush` when given, otherwise `MetricEvent.emit`. */
  function FlushSignal(o: Options, collected: seq<Value>): Signal {
    if o.hasOnFlush then Flush(Payload(collected)) else Queue(Encode(Metric(Payload(collected))))
  }

  /** The locals of one collection round. */
  datatype Round = Round(requestId: nat, expected: nat, received: set<string>, collected: seq<Value>, timeoutId: real)

  /**
   * The collector's state between two pulled events; `stopped` once the loop has returned or
   * thrown, and `thrown` says what it threw.
   */
  datatype Collector = Collector(publishers: set<string>, requestId: nat, timerId: real, round: Option<Round>,
                                 timers: nat, stopped: bool, thrown: Option<Thrown>, log: seq<Signal>)

  /** The state before the first pull: no publishers, request id 1, the first interval timer started. */
  function Start(o: Options, timerIds: TimerIds): Collector {
    Collector({}, 1, timerIds(0), None, 1, false, None, [StartTimer(timerIds(0), Interval(o))])
  }

  /** The loop is left by an exception: nothing more is pulled, flushed or started. */
  function Throw(s: Collector, t: Thrown): Collector {
    s.(round := None, stopped := true, thrown := Some(t))
  }

  /** The interval timer fired: queue `metric_collect` and start the response timeout. */
  function BeginRound(o: Options, timerIds: TimerIds, s: Collector, epoch: int): Collector {
    var current := s.requestId;
    var collect := Queue(Encode(MetricCollect(current as real, (epoch * 1_000_000) as real)));
    var timeoutId := timerIds(s.timers);
    s.(requestId := current + 1, round := Some(Round(current, |s.publishers|, {}, [], timeoutId)),
       timers := s.timers + 1, log := s.log + [collect, StartTimer(timeoutId, ResponseTimeout(o))])
  }

  /** The round is over: flush what was collected, then start the next interval timer. */
  function EndRound(o: Options, timerIds: TimerIds, s: Collector): Collector
    requires s.round.Some?
  {
    var nextId := timerIds(s.timers);
    s.(round := None, timerId := nextId, timers := s.timers + 1,
       log := s.log + [FlushSignal(o, s.round.value.collected), StartTimer(nextId, Interval(o))])
  }

  /** The inner loop's test: a round ends as soon as it has as many responders as it expects. */
  function Settle(o: Options, timerIds: TimerIds, s: Collector): Collector {
    if s.round.Some? && |s.round.value.received| >= s.round.value.expected then EndRound(o, timerIds, s) else s
  }

  /** One event of the outer loop. */
  function Between(o: Options, timerIds: TimerIds, s: Collector, e: Event, epoch: int): Collector {
    if e.MetricRegister? then s.(publishers := s.publishers + {e.publisherId})
    else if e.MetricUnregister? then s.(publishers := s.publishers - {e.publisherId})
    else if e.Timer? && e.id == s.timerId then Settle(o, timerIds, BeginRound(o, timerIds, s, epoch))
    else if e.Terminate? then s.(stopped := true)
    else s
  }

  /** One event of the inner loop; it has no branch for terminate. */
  function During(o: Options, timerIds: TimerIds, s: Collector, e: Event): Collector
    requires s.round.Some?
  {
    var r := s.round.value;
    if e.MetricResponse? then
      if e.requestId != r.requestId as real || e.publisherId in r.received then s
      else if Entries(e.resourceMetrics).Err? then Throw(s, Entries(e.resourceMetrics).error)
      else
        var r' := r.(received := r.received + {e.publisherId}, collected := r.collected + Entries(e.resourceMetrics).value);
        Settle(o, timerIds, s.(round := Some(r')))
    else if e.MetricRegister? then s.(publishers := s.publishers + {e.publisherId})
    else if e.MetricUnregister? then s.(publishers := s.publishers - {e.publisherId})
    else if e.Timer? && e.id == r.timeoutId then EndRound(o, timerIds, s)
    else s
  }

  /**
   * The collector's reaction to one pull; a pull that throws ends the loop, and after
   * terminate or a throw it pulls no more.
   */
  function Step(o: Options, timerIds: TimerIds, s: Collector, p: Pulled, epoch: int): Collector {
    if s.stopped then s
    else if p.Err? then Throw(s, Decode(p.error))
    else if s.round.None? then Between(o, timerIds, s, p.value, epoch)
    else During(o, timerIds, s, p.value)
  }

  /** The state after the collector has handled `trace` in order. */
  function Steps(o: Options, timerIds: TimerIds, s: Collector, trace: seq<(Pulled, int)>): Collector
    decreases |trace|
  {
    if trace == [] then s
    else
      var last := trace[|trace| - 1];
      Step(o, timerIds, Steps(o, timerIds, s, trace[..|trace| - 1]), last.0, last.1)
  }

  lemma StepsSnoc(o: Options, timerIds: TimerIds, s: Collector, trace: seq<(Pulled, int)>, i: nat)
    requires i < |trace|
    ensures Steps(o, timerIds, s, trace[..i + 1]) == Step(o, timerIds, Steps(o, timerIds, s, trace[..i]), trace[i].0, trace[i].1)
  {
    assert trace[..i + 1][..i] == trace[..i];
  }

  /** Once stopped, the collector ignores the rest of the trace. */
  lemma {:induction false} StoppedStays(o: Options, timerIds: TimerIds, s: Collector, trace: seq<(Pulled, int)>)
    requires s.stopped
    ensures Steps(o, timerIds, s, trace) == s
    decreases |trace|
  {
    if trace != [] {
      StoppedStays(o, timerIds, s, trace[..|trace| - 1]);
    }
  }

  lemma StoppedSuffix(o: Options, timerIds: TimerIds, s: Collector, trace: seq<(Pulled, int)>, i: nat)
    requires i <= |trace| && Steps(o, timerIds, s, trace[..i]).stopped
    ensures Steps(o, timerIds, s, trace) == Steps(o, timerIds, s, trace[..i])
    decreases |trace| - i
  {
    if i < |trace| {
      StepsSnoc(o, timerIds, s, trace, i);
      StoppedSuffix(o, timerIds, s, trace, i + 1);
    } else {
      assert trace[..i] == trace;
    }
  }

  /**
   * `runMetricCollector(options)` on a finite trace: the outer loop of the source; the inner
   * loop of a round is `CollectRound`.  The loop returns when terminate arrives between rounds,
   * ends when a pull or a round throws, or stops when the trace runs out.
   */
  method RunMetricCollector(o: Options, timerIds: TimerIds, trace: seq<(Pulled, int)>) returns (c: Collector)
    ensures c == Steps(o, timerIds, Start(o, timerIds), trace)
  {
    var publisherIds: set<string> := {};
    var requestId: nat := 1;
    var intervalSeconds := if o.intervalSeconds < 0.05 then 0.05 else o.intervalSeconds;
    var timers: nat := 0;
    var log: seq<Signal> := [];
    var timerId := timerIds(timers);
    timers := timers + 1;
    log := log + [StartTimer(timerId, intervalSeconds)];
    ghost var start := Collector(publisherIds, requestId, timerId, None, timers, false, None, log);
    assert start == Start(o, timerIds);
    var i := 0;
    while i < |trace|
      invariant i <= |trace|
      invariant Collector(publisherIds, requestId, timerId, None, timers, false, None, log) == Steps(o, timerIds, start, trace[..i])
    {
      var before := Collector(publisherIds, requestId, timerId, None, timers, false, None, log);
      var pulled := trace[i].0;
      var epoch := trace[i].1;
      StepsSnoc(o, timerIds, start, trace, i);
      i := i + 1;
      if pulled.Err? {
        StoppedSuffix(o, timerIds, start, trace, i);
        return Collector(publisherIds, requestId, timerId, None, timers, true, Some(Decode(pulled.error)), log);
      }
      var raw := pulled.value;
      BetweenRounds(o, timerIds, before, raw, epoch);
      if raw.MetricRegister? {
        publisherIds := publisherIds + {raw.publisherId};
      } else if raw.MetricUnregister? {
        publisherIds := publisherIds - {raw.publisherId};
      } else if raw.Timer? && raw.id == timerId {
        var open := OpenRound(o, timerIds, before, epoch);
        var after;
        after, i := CollectRound(o, timerIds, start, trace, i, open);
        if after.round.Some? {
          assert trace[..i] == trace;
          return after;
        }
        if after.stopped {
          StoppedSuffix(o, timerIds, start, trace, i);
          return after;
        }
        publisherIds, requestId, timerId, timers, log := after.publishers, after.requestId, after.timerId, after.timers, after.log;
      } else if raw.Terminate? {
        StoppedSuffix(o, timerIds, start, trace, i);
        return Collector(publisherIds, requestId, timerId, None, timers, true, None, log);
      }
    }
    assert trace[..i] == trace;
    c := Collector(publisherIds, requestId, timerId, None, timers, false, None, log);
  }

  /** Between rounds, a step on an event is the outer loop's `Between`. */
  lemma BetweenRounds(o: Options, timerIds: TimerIds, s: Collector, e: Event, epoch: int)
    requires !s.stopped && s.round.None?
    ensures Step(o, timerIds, s, Ok(e), epoch) == Between(o, timerIds, s, e, epoch)
  {
  }

  /**
   * The interval timer's branch up to the inner loop: take the next request id, queue the
   * collect stamped with `epoch × 1_000_000`, count the publishers and start the timeout.
   */
  method OpenRound(o: Options, timerIds: TimerIds, s: Collector, epoch: int) returns (open: Collector)
    ensures open == BeginRound(o, timerIds, s, epoch)
  {
    var responseTimeout := if o.responseTimeoutSeconds.Some? then o.responseTimeoutSeconds.value
                           else (if o.intervalSeconds < 0.05 then 0.05 else o.intervalSeconds) * 0.5;
    var currentTimeUnixNano := epoch * 1_000_000;
    var currentRequestId := s.requestId;
    var collect := Queue(Encode(MetricCollect(currentRequestId as real, currentTimeUnixNano as real)));
    var expected := |s.publishers|;
    var timeoutTimerId := timerIds(s.timers);
    open := s.(requestId := currentRequestId + 1, round := Some(Round(currentRequestId, expected, {}, [], timeoutTimerId)),
               timers := s.timers + 1, log := s.log + [collect, StartTimer(timeoutTimerId, responseTimeout)]);
  }

  /**
   * One round of `runMetricCollector`: the inner loop, from just after the collect is queued
   * until the round has its responders or its timeout fires, then the flush and the next
   * interval timer.  A trace that ends inside the round returns the open round; a throw
   * inside the round returns the stopped collector.
   */
  method CollectRound(o: Options, timerIds: TimerIds, ghost start: Collector, trace: seq<(Pulled, int)>, i0: nat,
                      open: Collector) returns (after: Collector, i: nat)
    requires open.round.Some? && !open.stopped && open.thrown.None? && i0 <= |trace|
    requires Settle(o, timerIds, open) == Steps(o, timerIds, start, trace[..i0])
    ensures i0 <= i <= |trace| && after == Steps(o, timerIds, start, trace[..i])
    ensures after.round.Some? ==> i == |trace| && !after.stopped
    ensures after.stopped <==> after.thrown.Some?
    ensures after.stopped ==> after.round.None?
  {
    var publisherIds := open.publishers;
    var currentRequestId := open.round.value.requestId;
    var expected := open.round.value.expected;
    var received := open.round.value.received;
    var collected := open.round.value.collected;
    var timeoutTimerId := open.round.value.timeoutId;
    i := i0;
    while |received| < expected
      invariant i0 <= i <= |trace|
      invariant Settle(o, timerIds, open.(publishers := publisherIds,
                                           round := Some(Round(currentRequestId, expected, received, collected, timeoutTimerId))))
                == Steps(o, timerIds, start, trace[..i])
      decreases |trace| - i
    {
      var current := open.(publishers := publisherIds,
                            round := Some(Round(currentRequestId, expected, received, collected, timeoutTimerId)));
      if i == |trace| {
        return current, i;
      }
      var pulled := trace[i].0;
      StepsSnoc(o, timerIds, start, trace, i);
      InRound(o, timerIds, current, pulled, trace[i].1);
      i := i + 1;
      if pulled.Err? {
        return open.(publishers := publisherIds, round := None, stopped := true, thrown := Some(Decode(pulled.error))), i;
      }
      var collectEvent := pulled.value;
      if collectEvent.MetricResponse? {
        if collectEvent.requestId != currentRequestId as real {
          continue;
        }
        if collectEvent.publisherId !in received {
          var entries := Entries(collectEvent.resourceMetrics);
          if entries.Err? {
            return open.(publishers := publisherIds, round := None, stopped := true, thrown := Some(entries.error)), i;
          }
          received := received + {collectEvent.publisherId};
          collected := Append(collected, entries.value);
        }
      } else if collectEvent.MetricRegister? {
        publisherIds := publisherIds + {collectEvent.publisherId};
      } else if collectEvent.MetricUnregister? {
        publisherIds := publisherIds - {collectEvent.publisherId};
      } else if collectEvent.Timer? && collectEvent.id == timeoutTimerId {
        assert Steps(o, timerIds, start, trace[..i]) == EndRound(o, timerIds, current);
        break;
      }
    }
    var closing := open.(publishers := publisherIds,
                         round := Some(Round(currentRequestId, expected, received, collected, timeoutTimerId)));
    assert Steps(o, timerIds, start, trace[..i]) == EndRound(o, timerIds, closing);
    after := FlushRound(o, timerIds, closing);
  }

  /** After the inner loop: flush the payload to `on_flush` or as a `metric` event, then start the next interval timer. */
  method FlushRound(o: Options, timerIds: TimerIds, closing: Collector) returns (after: Collector)
    requires closing.round.Some?
    ensures after == EndRound(o, timerIds, closing)
  {
    var payload := Payload(closing.round.value.collected);
    var log := closing.log;
    if o.hasOnFlush {
      log := log + [Flush(payload)];
    } else {
      log := log + [Queue(Encode(Metric(payload)))];
    }
    var intervalSeconds := if o.intervalSeconds < 0.05 then 0.05 else o.intervalSeconds;
    var timerId := timerIds(closing.timers);
    log := log + [StartTimer(timerId, intervalSeconds)];
    after := closing.(round := None, timerId := timerId, timers := closing.timers + 1, log := log);
  }

  /** Inside a round that still lacks responders, a step on an event is the inner loop's `During`. */
  lemma InRound(o: Options, timerIds: TimerIds, s: Collector, p: Pulled, epoch: int)
    requires s.round.Some? && !s.stopped && |s.round.value.received| < s.round.value.expected
    ensures Settle(o, timerIds, s) == s
    ensures p.Ok? ==> Step(o, timerIds, s, p, epoch) == During(o, timerIds, s, p.value)
    ensures p.Err? ==> Step(o, timerIds, s, p, epoch) == Throw(s, Decode(p.error))
  {
  }

  /** `for (const entry of entries) collected.push(entry)`. */
  method Append(collected: seq<Value>, entries: seq<Value>) returns (r: seq<Value>)
    ensures r == collected + entries
  {
    r := collected;
    for j := 0 to |entries|
      invariant r == collected + entries[..j]
    {
      r := r + [entries[j]];
    }
    assert entries[..|entries|] == entries;
  }

  // ---------------------------------------------------------------------------
  // What one step does

  /**
   * A pull that throws ends the loop wherever it happens, in a round or between rounds: the
   * collector stops with the error, and nothing is flushed or started.
   */
  lemma PullThrowEnds(o: Options, timerIds: TimerIds, s: Collector, error: DecodeError, epoch: int)
    requires !s.stopped
    ensures var t := Step(o, timerIds, s, Err(error), epoch);
            t.stopped && t.thrown == Some(Decode(error)) && t.round.None? && t.log == s.log &&
            t.publishers == s.publishers && t.requestId == s.requestId
  {
  }

  /** Inside a round terminate is not looked at; between rounds it ends the loop. */
  lemma TerminateOnlyBetweenRounds(o: Options, timerIds: TimerIds, s: Collector, epoch: int)
    requires !s.stopped
    ensures Step(o, timerIds, s, Ok(Terminate), epoch).stopped <==> s.round.None?
    ensures s.round.Some? ==> Step(o, timerIds, s, Ok(Terminate), epoch) == s
  {
  }

  /** A response to another request, or a second one from the same publisher, changes nothing. */
  lemma IgnoredResponses(o: Options, timerIds: TimerIds, s: Collector, e: Event, epoch: int)
    requires s.round.Some? && e.MetricResponse?
    requires e.requestId != s.round.value.requestId as real || e.publisherId in s.round.value.received
    ensures Step(o, timerIds, s, Ok(e), epoch) == s
  {
  }

  /** A timer other than the one the loop waits for changes nothing. */
  lemma OtherTimersIgnored(o: Options, timerIds: TimerIds, s: Collector, e: Event, epoch: int)
    requires e.Timer?
    requires if s.round.None? then e.id != s.timerId else e.id != s.round.value.timeoutId
    ensures Step(o, timerIds, s, Ok(e), epoch) == s
  {
  }

  /**
   * The interval timer starts a round: the collect carries the next request id and the epoch
   * in nanoseconds, the round expects the current publisher count, and with no publishers it
   * is flushed at once, before the next interval timer is started.
   */
  lemma RoundStart(o: Options, timerIds: TimerIds, s: Collector, e: Event, epoch: int)
    requires !s.stopped && s.round.None? && e.Timer? && e.id == s.timerId
    ensures var t := Step(o, timerIds, s, Ok(e), epoch);
            var opening := [Queue(Encode(MetricCollect(s.requestId as real, (epoch * 1_000_000) as real))),
                            StartTimer(timerIds(s.timers), ResponseTimeout(o))];
            t.requestId == s.requestId + 1 && t.publishers == s.publishers &&
            (t.round.Some? <==> s.publishers != {}) &&
            (t.round.Some? ==> t.round.value == Round(s.requestId, |s.publishers|, {}, [], timerIds(s.timers)) &&
                               t.log == s.log + opening) &&
            (t.round.None? ==> t.log == s.log + opening + [FlushSignal(o, []), StartTimer(timerIds(s.timers + 1), Interval(o))] &&
                               t.timerId == timerIds(s.timers + 1))
  {
  }

  /**
   * The round's own timeout ends it: the payload goes to `on_flush` or is queued as a
   * `metric` event, and only then is the next interval timer started.
   */
  lemma RoundTimeout(o: Options, timerIds: TimerIds, s: Collector, e: Event, epoch: int)
    requires !s.stopped && s.round.Some? && e.Timer? && e.id == s.round.value.timeoutId
    ensures var t := Step(o, timerIds, s, Ok(e), epoch);
            t.round.None? && t.timerId == timerIds(s.timers) && t.publishers == s.publishers &&
            t.log == s.log + [if o.hasOnFlush then Flush(Payload(s.round.value.collected))
                              else Queue([Str("metric"), Payload(s.round.value.collected)]),
                              StartTimer(timerIds(s.timers), Interval(o))]
  {
    assert Encode(Metric(Payload(s.round.value.collected))) == [Str("metric"), Payload(s.round.value.collected)];
  }

  /**
   * A first response to the current request counts, whether or not its publisher is
   * registered; the round ends with it exactly when it completes the expected count.  Its
   * `resource_metrics` must be iterable: otherwise the `for..of` throws and the loop ends.
   */
  lemma FirstResponseCounts(o: Options, timerIds: TimerIds, s: Collector, e: Event, epoch: int)
    requires !s.stopped && s.round.Some? && e.MetricResponse?
    requires e.requestId == s.round.value.requestId as real && e.publisherId !in s.round.value.received
    ensures !(e.resourceMetrics.Arr? || e.resourceMetrics.Str?) ==>
            Step(o, timerIds, s, Ok(e), epoch) == Throw(s, NotIterable(e.resourceMetrics))
    ensures e.resourceMetrics.Arr? || e.resourceMetrics.Str? ==>
            var r := s.round.value;
            var t := Step(o, timerIds, s, Ok(e), epoch);
            var collected := r.collected + Entries(e.resourceMetrics).value;
            !t.stopped &&
            (t.round.None? <==> |r.received| + 1 >= r.expected) &&
            (t.round.Some? ==> t.round.value == r.(received := r.received + {e.publisherId}, collected := collected)) &&
            (t.round.None? ==> t.log == s.log + [FlushSignal(o, collected), StartTimer(timerIds(s.timers), Interval(o))])
  {
  }

  /** Registrations change the publisher set in a round too, but not what the round expects. */
  lemma RegistrationsDuringRound(o: Options, timerIds: TimerIds, s: Collector, e: Event, epoch: int)
    requires !s.stopped && s.round.Some? && (e.MetricRegister? || e.MetricUnregister?)
    ensures var t := Step(o, timerIds, s, Ok(e), epoch);
            t == s.(publishers := if e.MetricRegister? then s.publishers + {e.publisherId} else s.publishers - {e.publisherId})
  {
  }

  // ---------------------------------------------------------------------------
  // Over a whole trace

  predicate IsCollect(sig: Signal) {
    sig.Queue? && |sig.tuple| == 3 && sig.tuple[0] == Str("metric_collect") && sig.tuple[1].Num?
  }

  /** The request ids of the `metric_collect` events in a log, in order. */
  function Collects(log: seq<Signal>): seq<real>
    decreases |log|
  {
    if log == [] then []
    else Collects(log[..|log| - 1]) + (if IsCollect(log[|log| - 1]) then [log[|log| - 1].tuple[1].n] else [])
  }

  /** `[1, 2, ..., n]`. */
  function Ids(n: nat): (r: seq<real>)
    ensures |r| == n && forall k :: 0 <= k < n ==> r[k] == (k + 1) as real
  {
    if n == 0 then [] else Ids(n - 1) + [n as real]
  }

  lemma {:induction false} CollectsAppend(a: seq<Signal>, b: seq<Signal>)
    ensures Collects(a + b) == Collects(a) + Collects(b)
    decreases |b|
  {
    if b != [] {
      var b' := b[..|b| - 1];
      assert (a + b)[..|a + b| - 1] == a + b';
      assert (a + b)[|a + b| - 1] == b[|b| - 1];
      CollectsAppend(a, b');
    } else {
      assert a + b == a;
    }
  }

  lemma CollectsPair(x: Signal, y: Signal)
    ensures Collects([x, y]) == (if IsCollect(x) then [x.tuple[1].n] else []) + (if IsCollect(y) then [y.tuple[1].n] else [])
  {
    assert [x, y][..1] == [x] && [x][..0] == [];
    assert Collects([x]) == (if IsCollect(x) then [x.tuple[1].n] else []);
  }

  /**
   * What every state of the collector satisfies: the collects so far carry the request ids
   * 1, 2, ..., and a round that is still open is the latest one and still lacks responders.
   */
  predicate Valid(s: Collector) {
    s.requestId >= 1 && Collects(s.log) == Ids(s.requestId - 1) && (s.thrown.Some? ==> s.stopped) &&
    (s.round.Some? ==> !s.stopped && s.round.value.requestId + 1 == s.requestId &&
                       |s.round.value.received| < s.round.value.expected)
  }

  lemma EndRoundValid(o: Options, timerIds: TimerIds, s: Collector)
    requires s.round.Some? && s.requestId >= 1 && Collects(s.log) == Ids(s.requestId - 1) && (s.thrown.Some? ==> s.stopped)
    ensures Valid(EndRound(o, timerIds, s)) && EndRound(o, timerIds, s).requestId == s.requestId
  {
    var flushed := [FlushSignal(o, s.round.value.collected), StartTimer(timerIds(s.timers), Interval(o))];
    CollectsAppend(s.log, flushed);
    assert Encode(Metric(Payload(s.round.value.collected))) == [Str("metric"), Payload(s.round.value.collected)];
    CollectsPair(flushed[0], flushed[1]);
  }

  lemma BeginRoundValid(o: Options, timerIds: TimerIds, s: Collector, epoch: int)
    requires Valid(s) && s.round.None? && !s.stopped
    ensures Valid(Settle(o, timerIds, BeginRound(o, timerIds, s, epoch)))
    ensures Settle(o, timerIds, BeginRound(o, timerIds, s, epoch)).requestId == s.requestId + 1
  {
    var b := BeginRound(o, timerIds, s, epoch);
    var opening := [Queue(Encode(MetricCollect(s.requestId as real, (epoch * 1_000_000) as real))),
                    StartTimer(timerIds(s.timers), ResponseTimeout(o))];
    assert b.log == s.log + opening;
    CollectsAppend(s.log, opening);
    assert Encode(MetricCollect(s.requestId as real, (epoch * 1_000_000) as real))
           == [Str("metric_collect"), Num(s.requestId as real), Num((epoch * 1_000_000) as real)];
    CollectsPair(opening[0], opening[1]);
    if |b.round.value.received| >= b.round.value.expected {
      EndRoundValid(o, timerIds, b);
    }
  }

  /** One step keeps the collector valid, and raises the request id by at most one. */
  lemma StepValid(o: Options, timerIds: TimerIds, s: Collector, p: Pulled, epoch: int)
    requires Valid(s)
    ensures var t := Step(o, timerIds, s, p, epoch);
            Valid(t) && s.requestId <= t.requestId <= s.requestId + 1 &&
            (t.requestId == s.requestId + 1 ==> t.stopped == s.stopped && s.round.None? && !s.stopped) &&
            (s.round.None? && t.round.Some? ==> t.requestId == s.requestId + 1)
  {
    if !s.stopped && p.Ok? {
      var e := p.value;
      if s.round.None? {
        if e.Timer? && e.id == s.timerId && !e.MetricRegister? && !e.MetricUnregister? {
          BeginRoundValid(o, timerIds, s, epoch);
        }
      } else {
        var r := s.round.value;
        if e.MetricResponse? && !(e.requestId != r.requestId as real || e.publisherId in r.received) &&
           Entries(e.resourceMetrics).Ok? {
          var r' := r.(received := r.received + {e.publisherId}, collected := r.collected + Entries(e.resourceMetrics).value);
          if |r'.received| >= r'.expected {
            EndRoundValid(o, timerIds, s.(round := Some(r')));
          }
        } else if e.Timer? && e.id == r.timeoutId {
          EndRoundValid(o, timerIds, s);
        }
      }
    }
  }

  /** Every state reached from a valid one is valid, and request ids only grow. */
  lemma {:induction false} StepsValid(o: Options, timerIds: TimerIds, s: Collector, trace: seq<(Pulled, int)>)
    requires Valid(s)
    ensures Valid(Steps(o, timerIds, s, trace)) && Steps(o, timerIds, s, trace).requestId >= s.requestId
    decreases |trace|
  {
    if trace != [] {
      var last := trace[|trace| - 1];
      StepsValid(o, timerIds, s, trace[..|trace| - 1]);
      StepValid(o, timerIds, Steps(o, timerIds, s, trace[..|trace| - 1]), last.0, last.1);
    }
  }

  /**
   * Request ids are 1, 2, 3, ...: after any trace, the collects queued so far carry exactly
   * the ids handed out, one per round, in order.
   */
  lemma RequestIdsInOrder(o: Options, timerIds: TimerIds, trace: seq<(Pulled, int)>)
    ensures var t := Steps(o, timerIds, Start(o, timerIds), trace);
            t.requestId >= 1 && Collects(t.log) == Ids(t.requestId - 1)
  {
    StartValid(o, timerIds);
    StepsValid(o, timerIds, Start(o, timerIds), trace);
  }

  /** The collector starts valid: no collect queued and request id 1. */
  lemma StartValid(o: Options, timerIds: TimerIds)
    ensures Valid(Start(o, timerIds))
  {
    var s0 := Start(o, timerIds);
    assert Collects(s0.log) == [] by {
      assert s0.log[..0] == [];
      assert !IsCollect(s0.log[0]);
    }
  }

  /**
   * A reference for one round: the first response of each publisher to request `id`, in the
   * order they arrive, starting from the publishers already counted.
   */
  function Gathered(trace: seq<(Pulled, int)>, id: real, received: set<string>, collected: seq<Value>): (set<string>, seq<Value>)
    decreases |trace|
  {
    if trace == [] then (received, collected)
    else
      var g := Gathered(trace[..|trace| - 1], id, received, collected);
      var p := trace[|trace| - 1].0;
      if p.Ok? && p.value.MetricResponse? && p.value.requestId == id && p.value.publisherId !in g.0 &&
         Entries(p.value.resourceMetrics).Ok?
      then (g.0 + {p.value.publisherId}, g.1 + Entries(p.value.resourceMetrics).value)
      else g
  }

  /**
   * While a round stays open, it has collected exactly the samples of the first response of
   * each distinct publisher to its own request id, once each: responses to other requests and
   * repeated responses are dropped, and a responder counts whether or not it is registered.
   */
  lemma {:induction false} RoundGathers(o: Options, timerIds: TimerIds, s: Collector, trace: seq<(Pulled, int)>)
    requires Valid(s) && s.round.Some?
    requires Steps(o, timerIds, s, trace).round.Some? && Steps(o, timerIds, s, trace).requestId == s.requestId
    ensures var r := s.round.value;
            var g := Gathered(trace, r.requestId as real, r.received, r.collected);
            Steps(o, timerIds, s, trace).round.value == r.(received := g.0, collected := g.1)
    decreases |trace|
  {
    if trace != [] {
      var init := trace[..|trace| - 1];
      var last := trace[|trace| - 1];
      StepsValid(o, timerIds, s, init);
      StepValid(o, timerIds, Steps(o, timerIds, s, init), last.0, last.1);
      RoundGathers(o, timerIds, s, init);
    }
  }

  // ---------------------------------------------------------------------------
  // The provider

  /** The provider callback: the samples for a request id and a collection time, or undefined. */
  type MetricProvider = (real, real) -> Option<seq<Value>>

  /** What the provider answers with: its samples, or `[]` when it returned undefined or none. */
  function Samples(response: Option<seq<Value>>): (r: seq<Value>)
    ensures response.None? ==> r == []
    ensures response.Some? ==> r == response.value
  {
    if response.Some? && |response.value| > 0 then response.value else []
  }

  /** The error the first throwing pull in `pulls` throws, if any. */
  function Threw(pulls: seq<Pulled>): (r: Option<DecodeError>)
    ensures r.None? <==> forall k :: 0 <= k < |pulls| ==> pulls[k].Ok?
    decreases |pulls|
  {
    if pulls == [] then None
    else
      var before := Threw(pulls[..|pulls| - 1]);
      if before.Some? then before
      else if pulls[|pulls| - 1].Err? then Some(pulls[|pulls| - 1].error)
      else None
  }

  /**
   * The `metric_response` events the provider queues for what its pulls return, up to the
   * first pull that throws.
   */
  function Answers(publisherId: string, provider: MetricProvider, pulls: seq<Pulled>): seq<Signal>
    decreases |pulls|
  {
    if pulls == [] then []
    else
      var before := pulls[..|pulls| - 1];
      var p := pulls[|pulls| - 1];
      Answers(publisherId, provider, before) +
      (if Threw(before).None? && p.Ok? && p.value.MetricCollect? then
         [Queue(Encode(MetricResponse(p.value.requestId, publisherId,
                                      Arr(Samples(provider(p.value.requestId, p.value.collectionTimeUnixNano))))))]
       else [])
  }

  /** The `metric_collect` events the pulls return before the first one that throws, in order. */
  function CollectsIn(pulls: seq<Pulled>): (r: seq<Event>)
    ensures forall k :: 0 <= k < |r| ==> r[k].MetricCollect?
    decreases |pulls|
  {
    if pulls == [] then []
    else
      var before := pulls[..|pulls| - 1];
      var p := pulls[|pulls| - 1];
      CollectsIn(before) + (if Threw(before).None? && p.Ok? && p.value.MetricCollect? then [p.value] else [])
  }

  /** After a pull has thrown, later pulls add no answer and leave the error as it was. */
  lemma {:induction false} ThrewSuffix(publisherId: string, provider: MetricProvider, pulls: seq<Pulled>, i: nat)
    requires i <= |pulls| && Threw(pulls[..i]).Some?
    ensures Threw(pulls) == Threw(pulls[..i])
    ensures Answers(publisherId, provider, pulls) == Answers(publisherId, provider, pulls[..i])
    decreases |pulls| - i
  {
    if i < |pulls| {
      assert pulls[..i + 1][..i] == pulls[..i];
      ThrewSuffix(publisherId, provider, pulls, i + 1);
    } else {
      assert pulls[..i] == pulls;
    }
  }

  /** One more pull, while none has thrown: it throws, answers a collect, or adds nothing. */
  lemma AnswersStep(publisherId: string, provider: MetricProvider, pulls: seq<Pulled>, i: nat)
    requires i < |pulls| && Threw(pulls[..i]).None?
    ensures Threw(pulls[..i + 1]) == (if pulls[i].Err? then Some(pulls[i].error) else None)
    ensures var p := pulls[i];
            Answers(publisherId, provider, pulls[..i + 1]) == Answers(publisherId, provider, pulls[..i]) +
              (if p.Ok? && p.value.MetricCollect? then
                 [Queue(Encode(MetricResponse(p.value.requestId, publisherId,
                                              Arr(Samples(provider(p.value.requestId, p.value.collectionTimeUnixNano))))))]
               else [])
  {
    assert pulls[..i + 1][..i] == pulls[..i];
  }

  /**
   * `runMetricProvider(publisherId, provider)` over what its `pullEventAs(MetricCollectEvent)`
   * calls return: it registers once, then answers each matched collect and skips the rest,
   * until a pull throws, which ends the loop with that error.
   */
  method RunMetricProvider(publisherId: string, provider: MetricProvider, pulls: seq<Pulled>)
    returns (log: seq<Signal>, thrown: Option<DecodeError>)
    ensures log == [Queue(Encode(MetricRegister(publisherId)))] + Answers(publisherId, provider, pulls)
    ensures thrown == Threw(pulls)
  {
    log := [Queue(Encode(MetricRegister(publisherId)))];
    var i := 0;
    while i < |pulls|
      invariant i <= |pulls| && Threw(pulls[..i]).None?
      invariant log == [Queue(Encode(MetricRegister(publisherId)))] + Answers(publisherId, provider, pulls[..i])
    {
      var pulled := pulls[i];
      AnswersStep(publisherId, provider, pulls, i);
      i := i + 1;
      if pulled.Err? {
        ThrewSuffix(publisherId, provider, pulls, i);
        return log, Some(pulled.error);
      }
      var event := pulled.value;
      if !event.MetricCollect? {  // `match` is false: not a MetricCollectEvent
        continue;
      }
      var response := provider(event.requestId, event.collectionTimeUnixNano);
      var samples: seq<Value>;
      if response.Some? && |response.value| > 0 {
        samples := response.value;
      } else {
        samples := [];
      }
      assert samples == Samples(response);
      log := log + [Queue(Encode(MetricResponse(event.requestId, publisherId, Arr(samples))))];
    }
    assert pulls[..i] == pulls;
    thrown := None;
  }

  /**
   * The provider answers every collect delivered before a pull throws, in order, with the
   * collect's own request id, its publisher id and the callback's samples for that request
   * and collection time.
   */
  lemma {:induction false} ProviderAnswers(publisherId: string, provider: MetricProvider, pulls: seq<Pulled>)
    ensures var a := Answers(publisherId, provider, pulls);
            var c := CollectsIn(pulls);
            |a| == |c| &&
            forall k :: 0 <= k < |a| ==>
              a[k] == Queue([Str("metric_response"), Num(c[k].requestId), Str(publisherId),
                             Arr(Samples(provider(c[k].requestId, c[k].collectionTimeUnixNano)))])
    decreases |pulls|
  {
    if pulls != [] {
      ProviderAnswers(publisherId, provider, pulls[..|pulls| - 1]);
      var p := pulls[|pulls| - 1];
      if p.Ok? && p.value.MetricCollect? {
        var e := p.value;
        var m := MetricResponse(e.requestId, publisherId, Arr(Samples(provider(e.requestId, e.collectionTimeUnixNano))));
        assert Encode(m) == [Str("metric_response"), Num(e.requestId), Str(publisherId), m.resourceMetrics];
      }
    }
  }

  /** The only registration the provider queues is the first signal. */
  lemma {:induction false} ProviderRegistersOnce(publisherId: string, provider: MetricProvider, pulls: seq<Pulled>)
    ensures forall k :: 0 <= k < |Answers(publisherId, provider, pulls)| ==>
              var sig := Answers(publisherId, provider, pulls)[k];
              sig.Queue? && |sig.tuple| > 0 && sig.tuple[0] == Str("metric_response")
  {
    ProviderAnswers(publisherId, provider, pulls);
  }

  /**
   * A pull that throws in practice: `LogEvent.emit` queues its `LogLevel` object where the
   * log schema wants a number, so a log emitted while the collector runs ends it.
   */
  lemma EmittedLogThrows(level: LogLevel, text: string)
    ensures Init(LogClass, [Str("log"), Obj(map["level" := Num(level.level as real), "name" := Str(level.name)]), Str(text)])
            == Err(InvalidEventType)
  {
    var args := [Str("log"), Obj(map["level" := Num(level.level as real), "name" := Str(level.name)]), Str(text)];
    LogIsReference(args);
    assert !At(args, 1).Num?;
  }

  /**
   * `emit` as intended: queueing the level's number, as `get_args` sends it, makes a log
   * that is pulled as the same event, with its level, message, info and trace.
   */
  lemma EmittedLevelDecodes(level: LogLevel, text: string, info: Value, trace: Value)
    requires level in AllLevels && (trace == Undefined || trace.Arr?)
    ensures Init(LogClass, [Str("log"), Num(level.level as real), Str(text), info, trace]) == Ok(Log(level, text, info, trace))
  {
    LogDecodes(Log(level, text, info, trace));
    LogTuple(level, text, info, trace);
  }

  lemma LogDecodes(e: Event)
    requires e.Log? && WellFormed(e)
    ensures Init(LogClass, Encode(e)) == Ok(e)
  {
    RoundTrip(e);
  }

  lemma LogTuple(level: LogLevel, text: string, info: Value, trace: Value)
    ensures Encode(Log(level, text, info, trace)) == [Str("log"), Num(level.level as real), Str(text), info, trace]
  {
  }

  /** A `metric_collect` whose request id is not a number is a pull that ends the provider. */
  lemma MalformedCollectThrows(requestId: string)
    ensures Init(MetricCollectClass, [Str("metric_collect"), Str(requestId), Num(0.0)]) == Err(InvalidEventType)
  {
  }

  /** A collect the collector queues reaches the provider's `pullEventAs` as the same event. */
  lemma CollectDecodes(requestId: real, collectionTimeUnixNano: real)
    ensures Init(MetricCollectClass, Encode(MetricCollect(requestId, collectionTimeUnixNano)))
            == Ok(MetricCollect(requestId, collectionTimeUnixNano))
  {
    RoundTrip(MetricCollect(requestId, collectionTimeUnixNano));
  }

  /** A provider's answer reaches the collector as a response with its request id, publisher and samples. */
  lemma ResponseDecodes(requestId: real, publisherId: string, samples: seq<Value>)
    ensures Init(MetricResponseClass, Encode(MetricResponse(requestId, publisherId, Arr(samples))))
            == Ok(MetricResponse(requestId, publisherId, Arr(samples)))
  {
    RoundTrip(MetricResponse(requestId, publisherId, Arr(samples)));
  }
}
