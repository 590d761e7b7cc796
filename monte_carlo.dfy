/** The Monte Carlo driver: runs a fresh `QueueSystem` per replication,
    collects each run's mean wait in replication order and reports the
    replication index to an optional progress queue after each run. */
module MonteCarlo {
  import opened Stats
  import opened Queueing

  /** The keyword arguments passed to the model for every replication. */
  datatype Params = Params(arrivalRate: real, serviceRate: real, servers: int, simTime: real)

  /** The random samples one replication draws: interarrival times and
      service times, in the order the run uses them. */
  datatype Draws = Draws(interarrivals: seq<real>, services: seq<real>)

  /** The result of `QueueSystem(**params).run()` on the samples `d`. Its
      mean, variance and maximum wait are never negative when the samples are
      not, and a run without arrivals reports zeros. */
  function Replicate(p: Params, d: Draws): (r: RunResult)
    ensures NonNegative(d.interarrivals) && NonNegative(d.services) ==>
              r.meanWait >= 0.0 && r.varWait >= 0.0 && r.maxWait >= 0.0
    ensures |d.interarrivals| == 0 ==> r == RunResult(0.0, 0.0, 0.0, 0)
  {
    if |d.interarrivals| == 0 then Summarize([])
    else
      var cfg := Config(ServerCount(p.servers), p.simTime);
      var fin := RunFrom(cfg, Launch(0.0, 0, [], [], d.interarrivals, d.services));
      if NonNegative(d.interarrivals) && NonNegative(d.services) then
        FreshRunInvariants(cfg, d.interarrivals, d.services);
        NonNegativeSummary(fin.waits);
        Summarize(fin.waits)
      else Summarize(fin.waits)
  }

  /** The mean waits of replications 1..n, in order. */
  function MeanWaits(p: Params, draws: int -> Draws, n: int): seq<real>
    decreases n
  {
    if n < 1 then [] else MeanWaits(p, draws, n - 1) + [Replicate(p, draws(n)).meanWait]
  }

  /** The progress notifications 1, 2, ..., n. */
  function Progress(n: int): seq<int>
    decreases n
  {
    if n < 1 then [] else Progress(n - 1) + [n]
  }

  /** Exactly one mean per replication, none when n < 1, and entry k is the
      mean wait of replication k + 1. */
  lemma {:induction false} MeanWaitsInOrder(p: Params, draws: int -> Draws, n: int)
    ensures |MeanWaits(p, draws, n)| == (if n < 1 then 0 else n)
    ensures forall k :: 0 <= k < |MeanWaits(p, draws, n)| ==>
              MeanWaits(p, draws, n)[k] == Replicate(p, draws(k + 1)).meanWait
    decreases n
  {
    if n >= 1 {
      MeanWaitsInOrder(p, draws, n - 1);
      var prefix := MeanWaits(p, draws, n - 1);
      var last := Replicate(p, draws(n)).meanWait;
      assert MeanWaits(p, draws, n) == prefix + [last];
      forall k | 0 <= k < |prefix|
        ensures (prefix + [last])[k] == Replicate(p, draws(k + 1)).meanWait
      {
        assert (prefix + [last])[k] == prefix[k];
      }
    }
  }

  /** Progress reports exactly 1, 2, ..., n, strictly increasing, so each
      index appears once; nothing when n < 1. */
  lemma {:induction false} ProgressInOrder(n: int)
    ensures |Progress(n)| == (if n < 1 then 0 else n)
    ensures forall k :: 0 <= k < |Progress(n)| ==> Progress(n)[k] == k + 1
    ensures forall i, j :: 0 <= i < j < |Progress(n)| ==> Progress(n)[i] < Progress(n)[j]
    decreases n
  {
    if n >= 1 {
      ProgressInOrder(n - 1);
    }
  }

  /** With non-negative samples in every replication, every collected mean
      wait is non-negative. */
  lemma {:induction false} MeanWaitsNonNegative(p: Params, draws: int -> Draws, n: int)
    requires forall i :: 1 <= i <= n ==> NonNegative(draws(i).interarrivals) && NonNegative(draws(i).services)
    ensures NonNegative(MeanWaits(p, draws, n))
    decreases n
  {
    if n >= 1 {
      MeanWaitsNonNegative(p, draws, n - 1);
      assert Replicate(p, draws(n)).meanWait >= 0.0;
    }
  }

  /** The progress queue: the worker puts replication indices into it. */
  class ProgressQueue {
    var items: seq<int>

    constructor ()
      ensures items == []
    {
      items := [];
    }

    /** `put`: appends one notification. */
    method Put(i: int)
      modifies this
      ensures items == old(items) + [i]
    {
      items := items + [i];
    }
  }

  /** `MonteCarloRunner`: `runs` replications of `QueueSystem` with the same
      parameters; `draws(i)` supplies the samples of replication i. */
  class MonteCarloRunner {
    const runs: int
    const params: Params
    const draws: int -> Draws
    const progressQueue: ProgressQueue?
    var means: seq<real>

    constructor (runs: int, params: Params, draws: int -> Draws, progressQueue: ProgressQueue?)
      ensures this.runs == runs && this.params == params && this.draws == draws
      ensures this.progressQueue == progressQueue && means == []
    {
      this.runs := runs;
      this.params := params;
      this.draws := draws;
      this.progressQueue := progressQueue;
      means := [];
    }

    /** One replication: `model_cls(**params).run()` on the samples
        `draws(i)`, reduced to its mean wait. Only fresh objects change. */
    method Replication(i: int) returns (meanWait: real)
      ensures meanWait == Replicate(params, draws(i)).meanWait
    {
      var model := new QueueSystem(params.arrivalRate, params.serviceRate, params.servers, params.simTime);
      var d := draws(i);
      var res, _ := model.Run(d.interarrivals, d.services);
      assert res == Replicate(params, d);
      meanWait := res.meanWait;
    }

    /** `run_all`: clears earlier means, then for i = 1..runs runs replication
        i, appends its mean wait and puts i into the progress queue when there
        is one. */
    method RunAll() returns (result: seq<real>)
      modifies this, progressQueue
      ensures result == means == MeanWaits(params, draws, runs)
      ensures progressQueue != null ==> progressQueue.items == old(progressQueue.items) + Progress(runs)
    {
      means := [];
      var i := 1;
      while i < runs + 1
        invariant 1 <= i && (i == 1 || i <= runs + 1)
        invariant means == MeanWaits(params, draws, i - 1)
        invariant progressQueue != null ==> progressQueue.items == old(progressQueue.items) + Progress(i - 1)
      {
        var meanWait := Replication(i);
        assert MeanWaits(params, draws, i) == means + [meanWait];
        means := means + [meanWait];
        if progressQueue != null {
          progressQueue.Put(i);
        }
        i := i + 1;
      }
      result := means;
    }
  }
}
