# ConteMarlo: a verified model of the M/M/c queue engine

`ConteMarlo.py` estimates the mean waiting time of an M/M/c queue by Monte
Carlo simulation. Its core has three parts. This project models each of them
in Dafny and proves what the code promises about them.

- **`StatsCollector`** records the waits of customers who had to queue. It
  reports their mean, their Bessel-corrected sample variance, their maximum
  and their count. The mean and the maximum default to 0 when there are no
  waits; the variance is 0 with fewer than two.
  Module `Stats`, file `stats.dfy`.
- **`QueueSystem.run`** is a discrete-event loop. Its state is:
  - a clock;
  - a busy-server count;
  - a FIFO list of arrival times of waiting customers;
  - an unordered list of pending departure times, one per busy server.

  Each iteration processes either the next arrival or the earliest
  departure, and arrivals win ties.
  Module `Queueing`, file `queue_system.dfy`.
- **`MonteCarloRunner.run_all`** builds a fresh model per replication and
  collects each run's mean wait. After every replication it puts the
  replication index into an optional progress queue.
  Module `MonteCarlo`, file `monte_carlo.dfy`.

The exponential random draws become two supplied sample streams: interarrival
times and service times. The loop is specified as a state machine on values:
- `Sim` is one state;
- `Step` is one iteration;
- `RunFrom` runs the loop to its end.

Its invariants are lemmas about these functions. The class
`QueueSystem` keeps the program's fields (`clock`, `busyServers`, `queue`,
`stats`). Its `Run` method updates them in a `while` loop and is proved to end
in exactly the state `RunFrom` computes, through a ghost trace of the states
the loop has passed through. `StatsCollector`, `ProgressQueue` and
`MonteCarloRunner` are classes whose methods append to their sequence fields.
`RunAll` is proved to return the sequence of mean waits given by the function
`MeanWaits`; `Progress` gives the indices it puts into the progress queue.

Time is an exact `real`. The replication samples come from a function
`draws` from the replication index to that replication's samples.

## Model

| member | source | states |
|---|---|---|
| Stats.StatsCollector.constructor | ConteMarlo.py:24-25 | a new collector holds no waits |
| Stats.StatsCollector.AddWait | ConteMarlo.py:27-28 | exactly one wait is appended at the end and the earlier waits are kept, so the count grows by one per call |
| Stats.StatsCollector.Results | ConteMarlo.py:30-37 | reading the summary changes nothing; the count equals the number of recorded waits and the fields are the summary of those waits |
| Stats.Summarize | ConteMarlo.py:30-37 | no waits give mean, variance, maximum and count all 0; one wait gives variance 0; otherwise the mean is the sample mean, the variance divides by n - 1 and the maximum is the largest wait; count is the number of waits |
| Stats.MaxOf | ConteMarlo.py:35-35 | the maximum is one of the samples and no sample exceeds it |
| Stats.MinOf | ConteMarlo.py:58-58 | the minimum is one of the samples |
| Stats.MinOfIsLeast | ConteMarlo.py:58-58 | no sample is below the minimum |
| Stats.VarianceNonNegative | ConteMarlo.py:34-34 | the sample variance is never negative |
| Stats.MeanBetweenMinAndMax | ConteMarlo.py:33-35 | the mean of a non-empty sample lies between its minimum and its maximum |
| Stats.NonNegativeSummary | ConteMarlo.py:33-35 | non-negative waits give a non-negative mean, variance and maximum, also in the default cases |
| Stats.SingleSample | ConteMarlo.py:33-36 | a single wait `a` gives mean `a`, variance 0, maximum `a` and count 1 |
| Stats.ConstantWaits | ConteMarlo.py:33-36 | waits that are all equal to `a` give mean `a`, variance 0, maximum `a` and their number as count |
| Stats.TwoSampleVariance | ConteMarlo.py:33-34 | two waits `a`, `b` give variance `(a - b)^2 / 2` and mean `(a + b) / 2` |
| Queueing.ServerCount | ConteMarlo.py:46-46 | the server count is at least 1 and at least `servers`, and it is either 1 or `servers`; so it is exactly `max(1, servers)` |
| Queueing.NextDeparture | ConteMarlo.py:58-58 | there is no next departure exactly when none is pending; otherwise it is the minimum pending time |
| Queueing.IndexOf | ConteMarlo.py:69-69 | the index is the first position in the list that holds the searched time: that position holds it and no earlier one does |
| Queueing.ArrivalNext | ConteMarlo.py:58-59 | the arrival is next exactly when no departure is pending or the next arrival is no later than the earliest pending departure (arrivals win ties) |
| Queueing.CanStep | ConteMarlo.py:59-77 | definition without a contract of its own: the samples the next event draws are there (an interarrival sample for an arrival, plus a service sample when a server is free; a service sample for a departure that serves a waiting customer) |
| Queueing.Done | ConteMarlo.py:57-57 | definition without a contract of its own: the loop stops once the clock has reached the horizon, or when the next event has no sample to draw; `RunFrom` and `QueueSystem.Run` are proved to stop exactly there |
| Queueing.Arrive | ConteMarlo.py:60-66 | the clock moves to the arrival and the next arrival is one interarrival sample later; with a free server the busy count grows by one and a departure one service sample away is added; otherwise the customer joins the back of the queue; no wait is recorded |
| Queueing.Depart | ConteMarlo.py:67-77 | the clock moves to the earliest pending departure, which is before the next arrival; with someone waiting, the head of the queue leaves it, its wait `clock - t_arrival` is recorded and the number of pending departures stays; otherwise one server goes idle and one pending departure fewer remains; the scheduled arrival stays |
| Queueing.RemoveAt | ConteMarlo.py:70-70 | the list loses one element, and exactly one occurrence of the element at that index |
| Queueing.Step | ConteMarlo.py:58-77 | every event draws a sample or shortens the departure list, so the loop ends |
| Queueing.RunFrom | ConteMarlo.py:57-77 | the run ends at the horizon (`clock >= sim_time`) or when the next event has no sample left |
| Queueing.Launch | ConteMarlo.py:54-55 | the loop starts with no pending departure and the first arrival at the first interarrival sample; the rest of the samples are left to draw |
| Queueing.LaunchInv | ConteMarlo.py:43-55 | a freshly built model with non-negative samples starts in a state where all invariants hold |
| Queueing.ArriveInv | ConteMarlo.py:60-66 | an arrival keeps every invariant |
| Queueing.DepartInv | ConteMarlo.py:67-77 | a departure keeps every invariant |
| Queueing.StepInv | ConteMarlo.py:58-77 | every event keeps the invariants: the busy count stays in [0, c] and equals the number of pending departures; a non-empty queue means all servers are busy; the queue stays in non-decreasing order and at or before the clock; pending departures stay at or after the clock; waits stay non-negative. The clock never goes back and earlier waits are kept |
| Queueing.RunFromInv | ConteMarlo.py:57-77 | the invariants hold at the end of the run; the clock has not gone back and the waits recorded earlier are a prefix of the final ones |
| Queueing.FreshRunInvariants | ConteMarlo.py:42-77 | a run of a fresh model with non-negative samples ends with a full house whenever someone waits, one pending departure per busy server in [0, c], the queue in arrival order, non-negative waits, at most one wait per customer that queued, and a non-negative clock |
| Queueing.ArrivalWinsTie | ConteMarlo.py:58-66 | when the next arrival is no later than the earliest departure, or nothing is pending, the arrival is processed: the clock moves to it, one interarrival sample is drawn and no wait is recorded |
| Queueing.DepartureRemovesEarliest | ConteMarlo.py:67-75 | otherwise the clock moves to the earliest departure, which is earlier than the next arrival; the next arrival stays; exactly one occurrence of that time leaves the pending list, and a new departure is added only when a customer was waiting |
| Queueing.FifoService | ConteMarlo.py:61-74 | a departure with customers waiting serves the oldest one and records a wait `clock - t_arrival` that is never negative; every other event records nothing |
| Queueing.QueueOnlyWhenFull | ConteMarlo.py:61-77 | the queue grows only when every server is busy, a server goes idle only when nobody waits, and the busy count stays in [0, c] and equals the number of pending departures |
| Queueing.WaitsBoundedByQueued | ConteMarlo.py:61-74 | the number of recorded waits never exceeds the number of customers that joined the queue, and every recorded wait is non-negative |
| Queueing.RoomForAllRun | ConteMarlo.py:59-77 | when fewer arrivals remain than idle servers and nobody has waited, the run ends with an empty queue and no wait recorded |
| Queueing.ManyServersNoWait | ConteMarlo.py:42-78 | a fresh model with at least as many servers as arrivals never queues anybody, so its summary is mean, variance, maximum and count all 0 |
| Queueing.HorizonOvershoot | ConteMarlo.py:57-78 | the last event may lie past the horizon, and work in service at that point is discarded (one server, horizon 1, the only arrival at time 2) |
| Queueing.QueueSystem.constructor | ConteMarlo.py:43-51 | the rates and horizon are stored, the server count is `max(1, servers)`, the clock is 0, no server is busy, nobody waits and a new collector holds no waits |
| Queueing.QueueSystem.ArrivalEvent | ConteMarlo.py:60-66 | the fields and loop variables after the arrival branch are the state `Arrive` computes |
| Queueing.QueueSystem.DepartureEvent | ConteMarlo.py:67-77 | the fields and loop variables after the departure branch are the state `Depart` computes; the waiting customer's wait goes to the collector |
| Queueing.QueueSystem.Run | ConteMarlo.py:53-78 | clock, busy count, queue and recorded waits end as `RunFrom` from the object's state says; the result is the summary of the collector's waits; the horizon was reached unless samples ran out |
| MonteCarlo.Replicate | ConteMarlo.py:94-94 | one replication with non-negative samples reports a non-negative mean, variance and maximum wait; a replication without any interarrival sample reports zeros |
| MonteCarlo.MeanWaits | ConteMarlo.py:92-95 | definition without a contract of its own: the list `run_all` builds, the mean waits of replications 1..n appended in order; `MeanWaitsInOrder` states its length and entries |
| MonteCarlo.Progress | ConteMarlo.py:93-97 | definition without a contract of its own: the indices `run_all` puts, 1..n appended in order; `ProgressInOrder` states its length, entries and order |
| MonteCarlo.MeanWaitsInOrder | ConteMarlo.py:92-95 | there is one mean wait per replication 1..n and none when n < 1; entry k is the mean wait of replication k + 1 |
| MonteCarlo.ProgressInOrder | ConteMarlo.py:93-97 | the progress values are exactly 1, 2, ..., n, strictly increasing, so each appears once; nothing when n < 1 |
| MonteCarlo.MeanWaitsNonNegative | ConteMarlo.py:93-95 | with non-negative samples in every replication, every collected mean wait is non-negative |
| MonteCarlo.ProgressQueue.Put | ConteMarlo.py:97-97 | one notification is appended after the earlier ones |
| MonteCarlo.MonteCarloRunner.constructor | ConteMarlo.py:84-89 | the settings are stored and the list of means starts empty |
| MonteCarlo.MonteCarloRunner.Replication | ConteMarlo.py:94-95 | a freshly constructed `QueueSystem` run on replication i's samples yields the mean wait `Replicate` gives |
| MonteCarlo.MonteCarloRunner.RunAll | ConteMarlo.py:91-98 | earlier means are cleared; the stored and returned means are those of replications 1..runs in order, from a fresh model each; the progress queue, when present, receives 1..runs after what it already held |

## Left out

- The tkinter GUI: `AppController`, the form, the buttons, reset and `main`. It is presentation only.
- Threading and the polling of `queue.Queue` by `check_progress`. This is concurrency plumbing. The progress queue is a sequence that `Put` appends to.
- Matplotlib histogram rendering, for the same reason.
- The numpy random generator, its seeding and the exponential sampler. They are random and foreign code. The model takes the samples as two streams, interarrival times and service times. The program draws both kinds from one generator, interleaved in event order; the model does not capture that interleaving, and it does not say whether the samples follow an exponential distribution.
- `lambda_` and `mu` are stored but not used; the draws they scale are supplied. The division error of `1/self.lambda_` for a zero rate is not modelled.
- Floating point: NaN, infinity and rounding of the mean and variance are not modelled. Times are exact reals, and "no pending departure" (`float('inf')`) is an `Option`. The integer 0 defaults of `results` are the real 0.0.
- Queueing.QueueSystem.Run: when the next event needs a sample that is not supplied, the model stops early and reports `reachedHorizon == false`; the program never runs out of draws. With no interarrival sample at all, the fields stay as they were.
- Queueing.QueueSystem.Run: the first arrival is placed at the first interarrival sample as an absolute time, as the code does, not at the current clock plus a sample. This matters only when `run` is called on an object that has already run.
- MonteCarlo.Replicate: a replication without any interarrival sample reports zeros. This case is an artefact of the supplied samples; the program always draws a first arrival.
- MonteCarlo.MonteCarloRunner.RunAll: `model_cls` is fixed to `QueueSystem`. The returned list is a value equal to the stored means; that Python returns the very list object `self.means` (aliasing) is not modelled.
- The truth test of `progress_queue` is modelled as "is not null". A `queue.Queue` object defines no length or truth value, so it is always true and the two tests agree for it; other sink objects are not modelled.
- The statistical claim that the aggregate mean approaches the analytic waiting time is not modelled.
