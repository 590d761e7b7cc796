/** The discrete-event M/M/c engine. Random draws are replaced by two supplied
    sample streams: interarrival times and service times. The run is given
    first as a state machine on values (`Sim`, `Step`, `RunFrom`), with its
    invariants as lemmas. After that comes the class `QueueSystem`, whose
    `Run` loop updates the object's fields and is proved to reach the same
    final state as `RunFrom`. */
module Queueing {
  import opened Stats

  datatype Option<T> = None | Some(value: T)

  /** The two parameters the event loop reads: number of servers and horizon. */
  datatype Config = Config(c: int, simTime: real)

  /** `max(1, servers)`: the server count is clamped to at least one. */
  function ServerCount(servers: int): (c: nat)
    ensures c >= 1 && c >= servers
    ensures servers >= 1 ==> c == servers
    ensures c == 1 || c == servers
  {
    if servers < 1 then 1 else servers
  }

  /** One state of a run. `queue` holds the arrival times of waiting customers
      (oldest first), `departures` the pending departure time of each busy
      server (unordered), `nextArrival` the scheduled next arrival,
      `interarrivals` and `services` the samples not yet drawn. `enqueued`
      counts the customers that have ever joined the queue; it is bookkeeping
      of the model and not a variable of the program. */
  datatype Sim = Sim(
    clock: real,
    busy: int,
    queue: seq<real>,
    departures: seq<real>,
    nextArrival: real,
    waits: seq<real>,
    interarrivals: seq<real>,
    services: seq<real>,
    enqueued: int
  )

  /** `min(t_next_departure)`, or no departure (+infinity) for an empty list. */
  function NextDeparture(departures: seq<real>): (d: Option<real>)
    ensures d.None? <==> departures == []
    ensures d.Some? ==> d.value == MinOf(departures)
  {
    if departures == [] then None else Some(MinOf(departures))
  }

  /** `list.index`: the first position holding `x`. */
  function IndexOf(s: seq<real>, x: real): (i: nat)
    requires x in s
    ensures i < |s| && s[i] == x
    ensures forall j :: 0 <= j < i ==> s[j] != x
  {
    if s[0] == x then 0 else 1 + IndexOf(s[1..], x)
  }

  /** `list.pop(i)`: the list without its i-th element. */
  function RemoveAt(s: seq<real>, i: nat): (r: seq<real>)
    requires i < |s|
    ensures |r| == |s| - 1
    ensures multiset(r) == multiset(s) - multiset{s[i]}
  {
    assert s == s[..i] + [s[i]] + s[i + 1..];
    s[..i] + s[i + 1..]
  }

  /** The tie-break rule: the arrival is processed when it is no later than the
      earliest departure, and always when no departure is pending. */
  predicate ArrivalNext(s: Sim): (b: bool)
    ensures b <==> s.departures == [] || s.nextArrival <= MinOf(s.departures)
  {
    match NextDeparture(s.departures)
    case None => true
    case Some(d) => s.nextArrival <= d
  }

  /** The samples the next event needs are available: an arrival draws the
      next interarrival time, and also a service time when a server is free;
      a departure draws a service time when a customer is waiting. */
  predicate CanStep(cfg: Config, s: Sim)
  {
    if ArrivalNext(s) then |s.interarrivals| > 0 && (s.busy < cfg.c ==> |s.services| > 0)
    else s.queue != [] ==> |s.services| > 0
  }

  /** The loop stops at the horizon, or when the samples run out. */
  predicate Done(cfg: Config, s: Sim)
  {
    s.clock >= cfg.simTime || !CanStep(cfg, s)
  }

  /** Process the next arrival: the clock moves to it and the following
      arrival is scheduled one interarrival sample later. The customer takes a
      free server, whose departure is one service sample away, or joins the
      back of the queue when every server is busy. No wait is recorded. */
  function Arrive(cfg: Config, s: Sim): (r: Sim)
    requires ArrivalNext(s) && CanStep(cfg, s)
    ensures r.clock == s.nextArrival && r.waits == s.waits
    ensures r.nextArrival == s.nextArrival + s.interarrivals[0] && r.interarrivals == s.interarrivals[1..]
    ensures s.busy < cfg.c ==>
              r.busy == s.busy + 1 && r.queue == s.queue && r.services == s.services[1..] &&
              r.departures == s.departures + [s.nextArrival + s.services[0]] && r.enqueued == s.enqueued
    ensures !(s.busy < cfg.c) ==>
              r.busy == s.busy && r.queue == s.queue + [s.nextArrival] &&
              r.services == s.services && r.departures == s.departures && r.enqueued == s.enqueued + 1
  {
    var clock := s.nextArrival;
    var s1 :=
      if s.busy < cfg.c then
        s.(clock := clock, busy := s.busy + 1,
           departures := s.departures + [clock + s.services[0]], services := s.services[1..])
      else
        s.(clock := clock, queue := s.queue + [clock], enqueued := s.enqueued + 1);
    s1.(nextArrival := clock + s.interarrivals[0], interarrivals := s.interarrivals[1..])
  }

  /** Process the earliest departure: the clock moves to it and one pending
      departure leaves. The freed server takes the head of the queue, whose
      wait is recorded and whose departure is one service sample away, or
      goes idle when nobody waits. The scheduled arrival stays. */
  function Depart(cfg: Config, s: Sim): (r: Sim)
    requires !ArrivalNext(s) && CanStep(cfg, s)
    ensures r.clock == MinOf(s.departures) < s.nextArrival
    ensures r.nextArrival == s.nextArrival && r.interarrivals == s.interarrivals && r.enqueued == s.enqueued
    ensures s.queue != [] ==>
              r.busy == s.busy && r.queue == s.queue[1..] && r.waits == s.waits + [r.clock - s.queue[0]] &&
              r.services == s.services[1..] && |r.departures| == |s.departures|
    ensures s.queue == [] ==>
              r.busy == s.busy - 1 && r.queue == [] && r.waits == s.waits &&
              r.services == s.services && |r.departures| == |s.departures| - 1
  {
    var clock := NextDeparture(s.departures).value;
    var rest := RemoveAt(s.departures, IndexOf(s.departures, clock));
    if s.queue != [] then
      s.(clock := clock, queue := s.queue[1..], waits := s.waits + [clock - s.queue[0]],
         departures := rest + [clock + s.services[0]], services := s.services[1..])
    else
      s.(clock := clock, busy := s.busy - 1, departures := rest)
  }

  /** One iteration of the loop. Every event either draws a sample or
      shortens the departure list, which bounds the number of events. */
  function Step(cfg: Config, s: Sim): (r: Sim)
    requires CanStep(cfg, s)
    ensures |r.interarrivals| + |r.services| < |s.interarrivals| + |s.services|
            || (|r.interarrivals| + |r.services| == |s.interarrivals| + |s.services|
                && |r.departures| < |s.departures|)
  {
    if ArrivalNext(s) then Arrive(cfg, s) else Depart(cfg, s)
  }

  /** The loop run to the end: the first state at the horizon or out of samples. */
  function RunFrom(cfg: Config, s: Sim): (r: Sim)
    ensures Done(cfg, r)
    decreases |s.interarrivals| + |s.services|, |s.departures|
  {
    if Done(cfg, s) then s else RunFrom(cfg, Step(cfg, s))
  }

  /** The state at the top of the loop: the object's clock, server count,
      queue and recorded waits, no pending departure, and the first arrival
      at the first interarrival sample. */
  function Launch(clock: real, busy: int, queue: seq<real>, waits: seq<real>,
                  interarrivals: seq<real>, services: seq<real>): (s: Sim)
    requires |interarrivals| > 0
    ensures s.departures == [] && s.nextArrival == interarrivals[0]
    ensures s.interarrivals == interarrivals[1..] && s.services == services
    ensures s.enqueued == |waits| + |queue|
  {
    Sim(clock, busy, queue, [], interarrivals[0], waits, interarrivals[1..], services, |waits| + |queue|)
  }

  // ---------------------------------------------------------------------------
  // Invariants of the run

  predicate NonNegative(s: seq<real>)
  {
    forall k :: 0 <= k < |s| ==> s[k] >= 0.0
  }

  predicate NonDecreasing(s: seq<real>)
  {
    forall i, j :: 0 <= i < j < |s| ==> s[i] <= s[j]
  }

  predicate AllAtMost(s: seq<real>, t: real)
  {
    forall k :: 0 <= k < |s| ==> s[k] <= t
  }

  predicate AllAtLeast(s: seq<real>, t: real)
  {
    forall k :: 0 <= k < |s| ==> s[k] >= t
  }

  /** What holds of every state of a run that starts from a fresh model with
      non-negative samples. */
  predicate Inv(cfg: Config, s: Sim)
  {
    && cfg.c >= 1
    && 0 <= s.busy <= cfg.c
    && |s.departures| == s.busy
    && (s.queue != [] ==> s.busy == cfg.c)
    && NonDecreasing(s.queue)
    && AllAtMost(s.queue, s.clock)
    && AllAtLeast(s.departures, s.clock)
    && s.nextArrival >= s.clock
    && NonNegative(s.waits)
    && NonNegative(s.interarrivals)
    && NonNegative(s.services)
    && |s.waits| + |s.queue| == s.enqueued
  }

  /** A fresh model with non-negative samples starts in a state of `Inv`. */
  lemma LaunchInv(cfg: Config, interarrivals: seq<real>, services: seq<real>)
    requires cfg.c >= 1
    requires |interarrivals| > 0 && NonNegative(interarrivals) && NonNegative(services)
    ensures Inv(cfg, Launch(0.0, 0, [], [], interarrivals, services))
  {
    assert interarrivals[0] >= 0.0;
  }

  lemma ArriveInv(cfg: Config, s: Sim)
    requires Inv(cfg, s) && ArrivalNext(s) && CanStep(cfg, s)
    ensures Inv(cfg, Arrive(cfg, s))
  {
    var r := Arrive(cfg, s);
    var t := s.nextArrival;
    assert AllAtLeast(s.departures, t) by {
      var d := NextDeparture(s.departures);
      if d.Some? {
        MinOfIsLeast(s.departures);
      }
    }
    assert r.interarrivals == s.interarrivals[1..];
    assert s.interarrivals[0] >= 0.0;
    if s.busy < cfg.c {
      assert s.services[0] >= 0.0;
      assert r.services == s.services[1..];
      assert r.departures == s.departures + [t + s.services[0]];
    } else {
      assert r.queue == s.queue + [t];
    }
  }

  lemma DepartInv(cfg: Config, s: Sim)
    requires Inv(cfg, s) && !ArrivalNext(s) && CanStep(cfg, s)
    ensures Inv(cfg, Depart(cfg, s))
  {
    var r := Depart(cfg, s);
    var t := NextDeparture(s.departures).value;
    var rest := RemoveAt(s.departures, IndexOf(s.departures, t));
    assert AllAtLeast(rest, t) by {
      MinOfIsLeast(s.departures);
      forall k | 0 <= k < |rest| ensures rest[k] >= t {
        assert rest[k] in s.departures;
      }
    }
    assert t in s.departures;
    if s.queue != [] {
      assert s.services[0] >= 0.0;
      assert r.services == s.services[1..];
      assert r.departures == rest + [t + s.services[0]];
      assert r.waits == s.waits + [t - s.queue[0]];
    }
  }

  /** Every event keeps the invariant, and the clock never goes back. */
  lemma StepInv(cfg: Config, s: Sim)
    requires Inv(cfg, s) && CanStep(cfg, s)
    ensures Inv(cfg, Step(cfg, s))
    ensures Step(cfg, s).clock >= s.clock
    ensures s.waits <= Step(cfg, s).waits
  {
    if ArrivalNext(s) { ArriveInv(cfg, s); } else { DepartInv(cfg, s); assert s.departures[0] in s.departures; }
  }

  /** The invariant holds at the end of the run; the clock has not gone back
      and the waits recorded before are still there, in order. */
  lemma {:induction false} RunFromInv(cfg: Config, s: Sim)
    requires Inv(cfg, s)
    ensures Inv(cfg, RunFrom(cfg, s))
    ensures RunFrom(cfg, s).clock >= s.clock
    ensures s.waits <= RunFrom(cfg, s).waits
    decreases |s.interarrivals| + |s.services|, |s.departures|
  {
    if !Done(cfg, s) {
      StepInv(cfg, s);
      RunFromInv(cfg, Step(cfg, s));
    }
  }

  /** Arrivals win ties: when the next arrival is no later than the earliest
      pending departure, or nothing is pending, the arrival is processed. */
  lemma ArrivalWinsTie(cfg: Config, s: Sim)
    requires CanStep(cfg, s)
    requires s.departures == [] || s.nextArrival <= MinOf(s.departures)
    ensures Step(cfg, s).clock == s.nextArrival
    ensures Step(cfg, s).interarrivals == s.interarrivals[1..]
    ensures Step(cfg, s).waits == s.waits
  {
  }

  /** Otherwise the earliest departure is processed: the clock moves to it, the
      scheduled arrival stays, and exactly one occurrence of that time leaves
      the pending list (a new one is added when a waiting customer starts). */
  lemma DepartureRemovesEarliest(cfg: Config, s: Sim)
    requires CanStep(cfg, s)
    requires s.departures != [] && s.nextArrival > MinOf(s.departures)
    ensures Step(cfg, s).clock == MinOf(s.departures) < s.nextArrival
    ensures Step(cfg, s).nextArrival == s.nextArrival
    ensures s.queue == [] ==>
              multiset(Step(cfg, s).departures) == multiset(s.departures) - multiset{MinOf(s.departures)}
    ensures s.queue != [] ==>
              multiset(Step(cfg, s).departures) ==
                multiset(s.departures) - multiset{MinOf(s.departures)} + multiset{MinOf(s.departures) + s.services[0]}
  {
    var m := MinOf(s.departures);
    assert NextDeparture(s.departures) == Some(m);
    DepartMultiset(cfg, s, m);
  }

  /** The departure event, stated on the earliest pending departure `m`. */
  lemma DepartMultiset(cfg: Config, s: Sim, m: real)
    requires !ArrivalNext(s) && CanStep(cfg, s) && m == NextDeparture(s.departures).value
    ensures Step(cfg, s).clock == m && Step(cfg, s).nextArrival == s.nextArrival
    ensures s.queue == [] ==> multiset(Step(cfg, s).departures) == multiset(s.departures) - multiset{m}
    ensures s.queue != [] ==>
              multiset(Step(cfg, s).departures) == multiset(s.departures) - multiset{m} + multiset{m + s.services[0]}
  {
    var next := Step(cfg, s);
    var rest := RemoveAt(s.departures, IndexOf(s.departures, m));
    DepartFields(cfg, s, next, m, rest);
    if s.queue != [] {
      RemoveThenAppend(s.departures, rest, m, m + s.services[0]);
    }
  }

  /** Removing one occurrence of `m` and appending `x`, as multisets. */
  lemma RemoveThenAppend(s: seq<real>, rest: seq<real>, m: real, x: real)
    requires multiset(rest) == multiset(s) - multiset{m}
    ensures multiset(rest + [x]) == multiset(s) - multiset{m} + multiset{x}
  {
  }

  /** FIFO service: a departure with customers waiting serves the oldest one
      and records its wait, which is never negative; a customer who finds a
      free server records nothing. */
  lemma FifoService(cfg: Config, s: Sim)
    requires Inv(cfg, s) && CanStep(cfg, s)
    ensures !ArrivalNext(s) && s.queue != [] ==>
              Step(cfg, s).queue == s.queue[1..] &&
              Step(cfg, s).waits == s.waits + [Step(cfg, s).clock - s.queue[0]] &&
              Step(cfg, s).clock - s.queue[0] >= 0.0
    ensures ArrivalNext(s) || s.queue == [] ==> Step(cfg, s).waits == s.waits
  {
    if !ArrivalNext(s) && s.queue != [] {
      StepInv(cfg, s);
    }
  }

  /** A customer joins the queue only when every server is busy, and a server
      goes idle only when nobody is waiting; the busy count stays in [0, c]. */
  lemma QueueOnlyWhenFull(cfg: Config, s: Sim)
    requires Inv(cfg, s) && CanStep(cfg, s)
    ensures |Step(cfg, s).queue| > |s.queue| ==> s.busy == cfg.c && Step(cfg, s).busy == cfg.c
    ensures Step(cfg, s).busy < s.busy ==> s.queue == [] && Step(cfg, s).queue == []
    ensures 0 <= Step(cfg, s).busy <= cfg.c && |Step(cfg, s).departures| == Step(cfg, s).busy
  {
    StepInv(cfg, s);
  }

  /** A run of a freshly built model with non-negative samples ends in a
      consistent state: a waiting customer means every server is busy, one
      pending departure per busy server, the queue in arrival order, every
      wait non-negative and at most one wait per customer that queued. */
  lemma FreshRunInvariants(cfg: Config, interarrivals: seq<real>, services: seq<real>)
    requires cfg.c >= 1
    requires |interarrivals| > 0 && NonNegative(interarrivals) && NonNegative(services)
    ensures var r := RunFrom(cfg, Launch(0.0, 0, [], [], interarrivals, services));
            && (r.queue != [] ==> r.busy == cfg.c)
            && 0 <= r.busy <= cfg.c && |r.departures| == r.busy
            && NonDecreasing(r.queue) && AllAtMost(r.queue, r.clock)
            && NonNegative(r.waits) && |r.waits| <= r.enqueued
            && r.clock >= 0.0
  {
    LaunchInv(cfg, interarrivals, services);
    RunFromInv(cfg, Launch(0.0, 0, [], [], interarrivals, services));
  }

  /** At most one wait is recorded per customer that queued. */
  lemma {:induction false} WaitsBoundedByQueued(cfg: Config, s: Sim)
    requires Inv(cfg, s)
    ensures |RunFrom(cfg, s).waits| <= RunFrom(cfg, s).enqueued
    ensures NonNegative(RunFrom(cfg, s).waits)
  {
    RunFromInv(cfg, s);
  }

  /** Fewer arrivals still to come than idle servers, and nobody has waited:
      the pending arrival and the `interarrivals` left can all be served on
      arrival. */
  predicate RoomForAll(cfg: Config, s: Sim)
  {
    s.queue == [] && s.waits == [] && s.busy + |s.interarrivals| < cfg.c
  }

  /** With room for every remaining arrival, no event makes anybody wait. */
  lemma RoomForAllStep(cfg: Config, s: Sim)
    requires RoomForAll(cfg, s) && CanStep(cfg, s)
    ensures RoomForAll(cfg, Step(cfg, s))
  {
  }

  /** With room for every remaining arrival, the run records no wait. */
  lemma {:induction false} RoomForAllRun(cfg: Config, s: Sim)
    requires RoomForAll(cfg, s)
    ensures RunFrom(cfg, s).waits == [] && RunFrom(cfg, s).queue == []
    decreases |s.interarrivals| + |s.services|, |s.departures|
  {
    if !Done(cfg, s) {
      RoomForAllStep(cfg, s);
      RoomForAllRun(cfg, Step(cfg, s));
    }
  }

  /** A fresh model with at least as many servers as arrivals never queues a
      customer, so the run reports no wait: mean, variance, maximum and count
      are all 0. */
  lemma ManyServersNoWait(cfg: Config, interarrivals: seq<real>, services: seq<real>)
    requires cfg.c >= |interarrivals| > 0
    ensures var r := RunFrom(cfg, Launch(0.0, 0, [], [], interarrivals, services));
            r.queue == [] && Summarize(r.waits) == RunResult(0.0, 0.0, 0.0, 0)
  {
    RoomForAllRun(cfg, Launch(0.0, 0, [], [], interarrivals, services));
  }

  /** The last event may lie past the horizon, and work in service at that
      point is discarded: one server, horizon 1, the only arrival at time 2. */
  lemma HorizonOvershoot()
    ensures var r := RunFrom(Config(1, 1.0), Launch(0.0, 0, [], [], [2.0, 1.0], [0.5]));
            r.clock == 2.0 && r.busy == 1 && r.departures == [2.5] && r.waits == []
  {
    var cfg := Config(1, 1.0);
    var s0 := Launch(0.0, 0, [], [], [2.0, 1.0], [0.5]);
    assert !Done(cfg, s0);
    var s1 := Step(cfg, s0);
    assert s1.clock == 2.0 && s1.departures == [2.5];
    assert Done(cfg, s1);
  }

  /** The fields of the state after a departure, one by one. */
  lemma DepartFields(cfg: Config, s: Sim, next: Sim, m: real, rest: seq<real>)
    requires !ArrivalNext(s) && CanStep(cfg, s) && next == Depart(cfg, s)
    requires m == NextDeparture(s.departures).value && rest == RemoveAt(s.departures, IndexOf(s.departures, m))
    ensures next.clock == m && next.nextArrival == s.nextArrival && next.interarrivals == s.interarrivals
    ensures s.queue != [] ==>
              next.busy == s.busy && next.queue == s.queue[1..] && next.waits == s.waits + [m - s.queue[0]] &&
              next.services == s.services[1..] && next.departures == rest + [m + s.services[0]]
    ensures s.queue == [] ==>
              next.busy == s.busy - 1 && next.queue == s.queue && next.waits == s.waits &&
              next.services == s.services && next.departures == rest
  {
  }

  /** `trace` is a sequence of consecutive loop states: each state but the last
      is still running and is followed by its `Step`. */
  ghost predicate IsTrace(cfg: Config, trace: seq<Sim>)
  {
    && |trace| > 0
    && forall k :: 0 <= k < |trace| - 1 ==> !Done(cfg, trace[k]) && trace[k + 1] == Step(cfg, trace[k])
  }

  /** A trace extended by an arrival processed before the horizon. */
  lemma ExtendByArrival(cfg: Config, trace: seq<Sim>, next: Sim)
    requires IsTrace(cfg, trace)
    requires var last := trace[|trace| - 1];
             last.clock < cfg.simTime && ArrivalNext(last) && CanStep(cfg, last) && next == Arrive(cfg, last)
    ensures IsTrace(cfg, trace + [next])
  {
    var last := trace[|trace| - 1];
    assert !Done(cfg, last) && Step(cfg, last) == next;
    ExtendTrace(cfg, trace, next);
  }

  /** A trace extended by a departure processed before the horizon. */
  lemma ExtendByDeparture(cfg: Config, trace: seq<Sim>, next: Sim)
    requires IsTrace(cfg, trace)
    requires var last := trace[|trace| - 1];
             last.clock < cfg.simTime && !ArrivalNext(last) && CanStep(cfg, last) && next == Depart(cfg, last)
    ensures IsTrace(cfg, trace + [next])
  {
    var last := trace[|trace| - 1];
    assert !Done(cfg, last) && Step(cfg, last) == next;
    ExtendTrace(cfg, trace, next);
  }

  /** A trace extended by the step of its last, still running state. */
  lemma ExtendTrace(cfg: Config, trace: seq<Sim>, next: Sim)
    requires IsTrace(cfg, trace)
    requires !Done(cfg, trace[|trace| - 1]) && next == Step(cfg, trace[|trace| - 1])
    ensures IsTrace(cfg, trace + [next])
  {
    var t := trace + [next];
    forall k | 0 <= k < |t| - 1
      ensures !Done(cfg, t[k]) && t[k + 1] == Step(cfg, t[k])
    {
      assert t[k] == trace[k];
      if k < |trace| - 1 {
        assert t[k + 1] == trace[k + 1];
      }
    }
  }

  /** Every state along a trace leads to the same end of the run. */
  lemma {:induction false} TraceRunFrom(cfg: Config, trace: seq<Sim>)
    requires IsTrace(cfg, trace)
    ensures RunFrom(cfg, trace[0]) == RunFrom(cfg, trace[|trace| - 1])
    decreases |trace|
  {
    if |trace| > 1 {
      assert IsTrace(cfg, trace[1..]) by {
        forall k | 0 <= k < |trace[1..]| - 1
          ensures !Done(cfg, trace[1..][k]) && trace[1..][k + 1] == Step(cfg, trace[1..][k])
        {
          assert trace[1..][k] == trace[k + 1] && trace[1..][k + 1] == trace[k + 2];
        }
      }
      TraceRunFrom(cfg, trace[1..]);
      assert !Done(cfg, trace[0]) && trace[1] == Step(cfg, trace[0]);
    }
  }

  // ---------------------------------------------------------------------------
  // The object

  /** `QueueSystem`: one replication of the M/M/c model. */
  class QueueSystem {
    const arrivalRate: real
    const serviceRate: real
    const c: nat
    const simTime: real
    var clock: real
    var busyServers: int
    var queue: seq<real>
    const stats: StatsCollector

    /** `__init__`: clamps the server count and starts at time 0 with every
        server idle, nobody waiting and no wait recorded. */
    constructor (arrivalRate: real, serviceRate: real, servers: int, simTime: real)
      ensures this.arrivalRate == arrivalRate && this.serviceRate == serviceRate
      ensures c == ServerCount(servers) && this.simTime == simTime
      ensures clock == 0.0 && busyServers == 0 && queue == []
      ensures fresh(stats) && stats.waits == []
    {
      this.arrivalRate := arrivalRate;
      this.serviceRate := serviceRate;
      this.c := ServerCount(servers);
      this.simTime := simTime;
      clock := 0.0;
      busyServers := 0;
      queue := [];
      stats := new StatsCollector();
    }

    function Cfg(): Config
    {
      Config(c, simTime)
    }

    /** The fields and the loop's locals are the loop state `cur`. */
    ghost predicate Holds(cur: Sim, nextArrival: real, departures: seq<real>,
                          arrivalsLeft: seq<real>, servicesLeft: seq<real>)
      reads this, stats
    {
      && cur.clock == clock && cur.busy == busyServers && cur.queue == queue
      && cur.departures == departures && cur.nextArrival == nextArrival
      && cur.waits == stats.waits
      && cur.interarrivals == arrivalsLeft && cur.services == servicesLeft
    }

    /** The arrival branch of the loop body. */
    method ArrivalEvent(ghost cur: Sim, nextArrival: real, departures: seq<real>,
                        arrivalsLeft: seq<real>, servicesLeft: seq<real>)
      returns (newArrival: real, newDepartures: seq<real>, newArrivals: seq<real>, newServices: seq<real>)
      requires Holds(cur, nextArrival, departures, arrivalsLeft, servicesLeft)
      requires ArrivalNext(cur) && CanStep(Cfg(), cur)
      modifies this
      ensures Holds(Arrive(Cfg(), cur), newArrival, newDepartures, newArrivals, newServices)
    {
      var t := nextArrival;
      clock := t;
      newDepartures, newServices := departures, servicesLeft;
      if busyServers < c {
        busyServers := busyServers + 1;
        newDepartures := departures + [t + servicesLeft[0]];
        newServices := servicesLeft[1..];
      } else {
        queue := queue + [t];
      }
      newArrival := t + arrivalsLeft[0];
      newArrivals := arrivalsLeft[1..];
    }

    /** The departure branch of the loop body: the departing server takes the
        head of the queue, whose wait is recorded, or becomes idle. */
    method DepartureEvent(ghost cur: Sim, nextArrival: real, departures: seq<real>,
                          arrivalsLeft: seq<real>, servicesLeft: seq<real>)
      returns (newDepartures: seq<real>, newServices: seq<real>)
      requires Holds(cur, nextArrival, departures, arrivalsLeft, servicesLeft)
      requires !ArrivalNext(cur) && CanStep(Cfg(), cur)
      modifies this, stats
      ensures Holds(Depart(Cfg(), cur), nextArrival, newDepartures, arrivalsLeft, newServices)
    {
      var t := NextDeparture(departures).value;
      var idx := IndexOf(departures, t);
      var rest := RemoveAt(departures, idx);
      DepartFields(Cfg(), cur, Depart(Cfg(), cur), t, rest);
      clock := t;
      newDepartures := rest;
      newServices := servicesLeft;
      if queue != [] {
        var tArrival := queue[0];
        queue := queue[1..];
        var waitTime := t - tArrival;
        stats.AddWait(waitTime);
        newDepartures := newDepartures + [t + servicesLeft[0]];
        newServices := servicesLeft[1..];
      } else {
        busyServers := busyServers - 1;
      }
    }

    /** `run`: the event loop. `interarrivals` and `services` are the samples
        the run draws, in order. With no interarrival sample nothing happens;
        otherwise the clock, busy count, queue and recorded waits end as
        `RunFrom` says. `reachedHorizon` is false only if the samples ran out
        first. */
    method Run(interarrivals: seq<real>, services: seq<real>) returns (r: RunResult, reachedHorizon: bool)
      modifies this, stats
      ensures |interarrivals| == 0 ==>
                clock == old(clock) && busyServers == old(busyServers) &&
                queue == old(queue) && stats.waits == old(stats.waits)
      ensures |interarrivals| > 0 ==>
                var fin := RunFrom(Cfg(), Launch(old(clock), old(busyServers), old(queue), old(stats.waits),
                                                 interarrivals, services));
                clock == fin.clock && busyServers == fin.busy && queue == fin.queue && stats.waits == fin.waits
      ensures r == Summarize(stats.waits)
      ensures reachedHorizon == (clock >= simTime)
    {
      if |interarrivals| == 0 {
        r := stats.Results();
        reachedHorizon := clock >= simTime;
        return;
      }
      var tNextArrival := interarrivals[0];
      var tNextDeparture: seq<real> := [];
      var arrivalsLeft, servicesLeft := interarrivals[1..], services;
      ghost var start := Launch(clock, busyServers, queue, stats.waits, interarrivals, services);
      ghost var cur := start;
      ghost var trace := [start];
      while clock < simTime
        invariant Holds(cur, tNextArrival, tNextDeparture, arrivalsLeft, servicesLeft)
        invariant IsTrace(Cfg(), trace) && trace[0] == start && trace[|trace| - 1] == cur
        decreases |arrivalsLeft| + |servicesLeft|, |tNextDeparture|
      {
        var nextDepart := NextDeparture(tNextDeparture);
        if nextDepart.None? || tNextArrival <= nextDepart.value {
          if arrivalsLeft == [] || (busyServers < c && servicesLeft == []) {
            assert Done(Cfg(), cur);
            break;
          }
          ghost var next := Arrive(Cfg(), cur);
          tNextArrival, tNextDeparture, arrivalsLeft, servicesLeft :=
            ArrivalEvent(cur, tNextArrival, tNextDeparture, arrivalsLeft, servicesLeft);
          ExtendByArrival(Cfg(), trace, next);
          trace, cur := trace + [next], next;
        } else {
          if queue != [] && servicesLeft == [] {
            assert Done(Cfg(), cur);
            break;
          }
          ghost var next := Depart(Cfg(), cur);
          tNextDeparture, servicesLeft := DepartureEvent(cur, tNextArrival, tNextDeparture, arrivalsLeft, servicesLeft);
          ExtendByDeparture(Cfg(), trace, next);
          trace, cur := trace + [next], next;
        }
      }
      TraceRunFrom(Cfg(), trace);
      r := stats.Results();
      reachedHorizon := clock >= simTime;
    }
  }
}
