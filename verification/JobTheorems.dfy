/** What holds in every run of the job protocol. */
module JobTheorems {

  import opened Prelude
  import opened RedisJobs
  import opened JobProtocol
  import opened JobInvariants
  import opened JobPreservation
  import opened JobLifeCycle

  // ----- one place, one processing -----

  /** A place where the protocol's own data can put a job. */
  datatype Spot = WithSubmitter(p: int) | QueueIndex(n: nat) | WithCoordinator(c: int) | Over

  ghost predicate IsAt(s: State, id: JobId, spot: Spot) {
    match spot
    case WithSubmitter(p) => Holds(s, p, id)
    case QueueIndex(n) => n < |s.redis.pending| && s.redis.pending[n] == id
    case WithCoordinator(c) => Works(s, c, id)
    case Over => id in s.history && s.history[id].place == Finished
  }

  /** Every created job is not yet enqueued, or in the queue once, or held by one coordinator, or finished. */
  lemma JobIsInOnePlace(cfg: Config, states: seq<State>, steps: seq<Step>, n: nat, id: JobId)
    requires IsRun(cfg, states, steps) && n < |states| && id in states[n].history
    ensures exists spot :: IsAt(states[n], id, spot)
    ensures forall a, b :: IsAt(states[n], id, a) && IsAt(states[n], id, b) ==> a == b
  {
    RunKeepsInvariant(cfg, states, steps, n);
    var s := states[n];
    assert Placed(s, id);
    match s.history[id].place {
      case AtSubmitter(p) => assert IsAt(s, id, WithSubmitter(p));
      case InQueue =>
        var k :| 0 <= k < |s.redis.pending| && s.redis.pending[k] == id;
        assert IsAt(s, id, QueueIndex(k));
      case AtCoordinator(c) => assert IsAt(s, id, WithCoordinator(c));
      case Finished => assert IsAt(s, id, Spot.Over);
    }
    forall a, b | IsAt(s, id, a) && IsAt(s, id, b) ensures a == b {
      assert a.QueueIndex? ==> id in s.redis.pending;
      assert b.QueueIndex? ==> id in s.redis.pending;
    }
  }

  /** A job is taken from the queue at most once, by whichever coordinator. */
  lemma JobIsDequeuedOnce(cfg: Config, states: seq<State>, steps: seq<Step>, n: nat, id: JobId)
    requires IsRun(cfg, states, steps) && n < |states| && id in states[n].history
    ensures states[n].history[id].dequeues <= 1
    ensures states[n].history[id].dequeues == 1
      <==> (exists c :: Works(states[n], c, id)) || IsAt(states[n], id, Spot.Over)
  {
    RunKeepsInvariant(cfg, states, steps, n);
    var s := states[n];
    assert JobOk(cfg, ViewOf(s, id)) && Placed(s, id);
    if s.history[id].place.AtCoordinator? {
      assert Works(s, s.history[id].place.coordinator, id);
    }
  }

  // ----- what completion means -----

  /**
   `results` is exactly what these tasks wrote: every write is there, and nothing else is. A query is
   answered if and only if its mode can be looked up; otherwise its task escaped.
   */
  ghost predicate HoldsResults(cfg: Config, queries: seq<Query>, ts: seq<Task>, results: map<string, Result>) {
    && |ts| == |queries|
    && (forall i :: 0 <= i < |ts| ==> (IsAnswered(cfg, queries[i], ts[i], results) <==> IsHashable(queries[i])))
    && (forall i :: 0 <= i < |ts| ==> (ts[i].Escaped? <==> !IsHashable(queries[i])))
    && (forall name :: name in results ==> Written(ts, name, results[name]))
  }

  /** The query ran to its end, was not skipped, and each of its results is stored under its name. */
  ghost predicate IsAnswered(cfg: Config, q: Query, t: Task, results: map<string, Result>) {
    && t.Done?
    && (t.verdict == NoStrategy <==> !IsSupported(cfg.supported, q))
    && t.outs == Outputs(q, t.verdict)
    && forall k :: 0 <= k < |t.outs| ==> t.outs[k].name in results
  }

  lemma SettledHoldsResults(cfg: Config, s: State, id: JobId)
    requires Inv(cfg, s) && id in s.history && id in s.tasks && AllEnded(s.tasks[id])
    ensures HoldsResults(cfg, s.history[id].queries, s.tasks[id], ResultsOf(s.redis, id))
  {
    assert JobOk(cfg, ViewOf(s, id));
    forall i | 0 <= i < |s.tasks[id]|
      ensures IsAnswered(cfg, s.history[id].queries[i], s.tasks[id][i], ResultsOf(s.redis, id))
        <==> IsHashable(s.history[id].queries[i])
      ensures s.tasks[id][i].Escaped? <==> !IsHashable(s.history[id].queries[i])
    {
      var t := s.tasks[id][i];
      assert TaskOk(cfg, s.history[id].queries[i], t, ResultsOf(s.redis, id));
      if t.Done? {
        assert OutsOf(t) == t.outs && StoredOf(t) == |t.outs|;
      }
    }
  }

  /** When 'completed' is written, no query was skipped, and Redis holds all they wrote and counted. */
  lemma CompletionIsFull(cfg: Config, states: seq<State>, steps: seq<Step>, n: nat)
    requires IsRun(cfg, states, steps) && n < |steps| && steps[n].MarkCompleted?
    ensures steps[n].c in states[n].coordinators && states[n].coordinators[steps[n].c].Completing?
    ensures
      var s, id := states[n], states[n].coordinators[steps[n].c].job;
      && id in s.history && id in s.tasks && id in s.redis.hashes && s.redis.hashes[id].JobHash?
      && HoldsResults(cfg, s.history[id].queries, s.tasks[id], ResultsOf(s.redis, id))
      && s.redis.hashes[id].completed + s.redis.hashes[id].failed == s.history[id].writes
      && StatusOf(states[n + 1].redis, id) == Some(Completed)
  {
    RunKeepsInvariant(cfg, states, steps, n);
    var s, c := states[n], steps[n].c;
    assert IsStep(cfg, s, steps[n], states[n + 1]);
    var id := s.coordinators[c].job;
    assert Works(s, c, id) && JobOk(cfg, ViewOf(s, id));
    SettledHoldsResults(cfg, s, id);
    ProgressIsExact(cfg, states, steps, n, id);
    NothingInFlight(s.tasks[id]);
  }

  lemma NothingInFlight(ts: seq<Task>)
    requires AllEnded(ts)
    ensures Total(InFlightOf, ts) == 0
  {
    TotalZero(InFlightOf, ts);
  }

  /** A query leaves no result only when its strategy returned an empty mapping. */
  lemma AnsweredHasResult(cfg: Config, q: Query, t: Task, results: map<string, Result>)
    requires IsAnswered(cfg, q, t, results)
    ensures (exists k :: 0 <= k < |t.outs| && t.outs[k].name in results)
       <==> !(t.verdict.Ran? && t.verdict.outcome.Returned? && t.verdict.outcome.values == [])
  {
    if t.outs != [] { assert t.outs[0].name in results; }
  }

  /** A name written once holds that very result. */
  lemma OnlyWriterWins(cfg: Config, queries: seq<Query>, ts: seq<Task>, results: map<string, Result>, i: nat, k: nat)
    requires HoldsResults(cfg, queries, ts, results) && i < |ts| && k < |OutsOf(ts[i])|
    requires forall j, m ::
               0 <= j < |ts| && 0 <= m < |OutsOf(ts[j])| && OutsOf(ts[j])[m].name == OutsOf(ts[i])[k].name
               ==> j == i && m == k
    ensures OutsOf(ts[i])[k].name in results && results[OutsOf(ts[i])[k].name] == OutsOf(ts[i])[k].result
  {
    assert IsHashable(queries[i]) && IsAnswered(cfg, queries[i], ts[i], results);
    var name := OutsOf(ts[i])[k].name;
    assert Written(ts, name, results[name]);
    var j, m :| WroteAt(ts, j, m, name, results[name]);
  }

  // ----- what a reader sees -----

  /** A reader that saw 'completed' gets everything: no later write and no late cancel takes it away. */
  lemma ReaderGetsEverything(cfg: Config, states: seq<State>, steps: seq<Step>, n: nat, r: int)
    requires IsRun(cfg, states, steps) && n < |states|
    requires r in states[n].readers && states[n].readers[r].GotResults?
    ensures
      var s, got := states[n], states[n].readers[r];
      && got.job in s.history && got.job in s.tasks
      && HoldsResults(cfg, s.history[got.job].queries, s.tasks[got.job], got.results)
  {
    RunKeepsInvariant(cfg, states, steps, n);
    SettledHoldsResults(cfg, states[n], states[n].readers[r].job);
  }

  // ----- progress counters -----

  function NamesOf(t: Task): set<string> {
    set k | 0 <= k < StoredOf(t) && k < |OutsOf(t)| :: OutsOf(t)[k].name
  }

  function StoredNames(ts: seq<Task>): set<string> {
    if ts == [] then {} else NamesOf(ts[0]) + StoredNames(ts[1..])
  }

  lemma {:induction false} PrefixNames(outs: seq<Write>, n: nat)
    requires n <= |outs|
    ensures |(set k | 0 <= k < n && k < |outs| :: outs[k].name)| <= n
  {
    if n > 0 {
      PrefixNames(outs, n - 1);
      assert (set k | 0 <= k < n && k < |outs| :: outs[k].name)
          == (set k | 0 <= k < n - 1 && k < |outs| :: outs[k].name) + {outs[n - 1].name};
    }
  }

  lemma {:induction false} NamesAtMostWrites(ts: seq<Task>)
    requires forall i :: 0 <= i < |ts| ==> StoredOf(ts[i]) <= |OutsOf(ts[i])|
    ensures |StoredNames(ts)| <= Total(StoredOf, ts)
  {
    if ts != [] {
      assert forall i :: 0 <= i < |ts[1..]| ==> ts[1..][i] == ts[i + 1];
      PrefixNames(OutsOf(ts[0]), StoredOf(ts[0]));
      NamesAtMostWrites(ts[1..]);
    }
  }

  lemma {:induction false} NameIsStored(ts: seq<Task>, i: nat, k: nat)
    requires i < |ts| && k < StoredOf(ts[i]) && k < |OutsOf(ts[i])|
    ensures OutsOf(ts[i])[k].name in StoredNames(ts)
  {
    if i > 0 { NameIsStored(ts[1..], i - 1, k); }
  }

  lemma ResultsAtMostWrites(ts: seq<Task>, results: map<string, Result>)
    requires forall i :: 0 <= i < |ts| ==> StoredOf(ts[i]) <= |OutsOf(ts[i])|
    requires forall name :: name in results ==> Written(ts, name, results[name])
    ensures |results| <= Total(StoredOf, ts)
  {
    forall name | name in results.Keys ensures name in StoredNames(ts) {
      var i, k :| WroteAt(ts, i, k, name, results[name]);
      NameIsStored(ts, i, k);
    }
    SubsetSize(results.Keys, StoredNames(ts));
    NamesAtMostWrites(ts);
  }

  /** The counters are exact at every moment, up to the results between a write and its count. */
  lemma ProgressIsExact(cfg: Config, states: seq<State>, steps: seq<Step>, n: nat, id: JobId)
    requires IsRun(cfg, states, steps) && n < |states| && id in states[n].history
    ensures id in states[n].redis.hashes && states[n].redis.hashes[id].JobHash?
    ensures
      var s, hash := states[n], states[n].redis.hashes[id];
      var ts := if id in s.tasks then s.tasks[id] else [];
      && hash.completed == Total(SucceededOf, ts)
      && hash.failed == Total(FailedOf, ts)
      && hash.completed + hash.failed + Total(InFlightOf, ts) == s.history[id].writes
      && |ResultsOf(s.redis, id)| <= s.history[id].writes
      && hash.total == |s.history[id].queries|
  {
    RunKeepsInvariant(cfg, states, steps, n);
    var s := states[n];
    assert JobOk(cfg, ViewOf(s, id));
    if id in s.tasks {
      var ts := s.tasks[id];
      forall i | 0 <= i < |ts|
        ensures SucceededOf(ts[i]) + FailedOf(ts[i]) == CountedOf(ts[i])
        ensures CountedOf(ts[i]) + InFlightOf(ts[i]) == StoredOf(ts[i]) <= |OutsOf(ts[i])|
      {
        assert TaskOk(cfg, s.history[id].queries[i], ts[i], ResultsOf(s.redis, id));
        SuccessesAndFailures(OutsOf(ts[i]), CountedOf(ts[i]));
      }
      TotalSum(SucceededOf, FailedOf, CountedOf, ts);
      TotalSum(CountedOf, InFlightOf, StoredOf, ts);
      ResultsAtMostWrites(ts, ResultsOf(s.redis, id));
    }
  }

  /**
   With strategies that return one value each, progress never passes the total. Once the tasks have ended
   it meets the total if and only if every query's mode can be looked up.
   */
  lemma SingleValueProgress(cfg: Config, states: seq<State>, steps: seq<Step>, n: nat, id: JobId)
    requires IsRun(cfg, states, steps) && n < |states| && id in states[n].tasks
    requires forall i :: 0 <= i < |states[n].tasks[id]| ==> WritesOne(states[n].tasks[id][i])
    ensures id in states[n].history && id in states[n].redis.hashes && states[n].redis.hashes[id].JobHash?
    ensures
      var hash := states[n].redis.hashes[id];
      && hash.completed + hash.failed <= hash.total
      && (AllEnded(states[n].tasks[id]) ==>
            (hash.completed + hash.failed == hash.total <==> AllHashable(states[n].history[id].queries)))
  {
    RunKeepsInvariant(cfg, states, steps, n);
    var s, ts := states[n], states[n].tasks[id];
    assert id in s.history;
    ProgressIsExact(cfg, states, steps, n, id);
    assert JobOk(cfg, ViewOf(s, id));
    forall i | 0 <= i < |ts|
      ensures SucceededOf(ts[i]) + FailedOf(ts[i]) == CountedOf(ts[i]) <= 1
      ensures AllEnded(ts) ==> (CountedOf(ts[i]) == 1 <==> IsHashable(s.history[id].queries[i]))
    {
      assert TaskOk(cfg, s.history[id].queries[i], ts[i], ResultsOf(s.redis, id));
      SuccessesAndFailures(OutsOf(ts[i]), CountedOf(ts[i]));
    }
    TotalSum(SucceededOf, FailedOf, CountedOf, ts);
    TotalAtMost(CountedOf, ts);
  }

  predicate AllHashable(queries: seq<Query>) {
    forall i :: 0 <= i < |queries| ==> IsHashable(queries[i])
  }

  /** A task that has got as far as its writes has exactly one. */
  predicate WritesOne(t: Task) {
    t.Writing? || t.Done? ==> |t.outs| == 1
  }

  // ----- after process_one returned -----

  predicate IsFinished(s: State, id: JobId) {
    id in s.history && s.history[id].place == Finished
  }

  /** From the moment process_one returns, the job is 'completed' or 'cancelled' for good. */
  lemma FinishedJobStaysTerminal(cfg: Config, s: State, states: seq<State>, steps: seq<Step>, n: nat, id: JobId)
    requires Inv(cfg, s) && IsFinished(s, id) && IsSegment(cfg, s, states, steps) && n < |states|
    ensures id in states[n].history && LifeOf(states[n], id).phase == AtFinished
    ensures StatusOf(states[n].redis, id) == Some(Completed) || StatusOf(states[n].redis, id) == Some(Cancelled)
  {
    assert JobOk(cfg, ViewOf(s, id));
    LifeInvariant(cfg, s, states, steps, n, id,
      (l: Life) => l.phase == AtFinished && (l.status == Some(Completed) || l.status == Some(Cancelled)));
  }

  // ----- cancellation -----

  predicate IsCancelled(s: State, id: JobId) {
    StatusOf(s.redis, id) == Some(Cancelled)
  }

  /** The two windows in which a coordinator acts on a status it read earlier. */
  predicate InWindow(s: State, id: JobId)
    requires id in s.history
  {
    LifeOf(s, id).phase == AtChecked || LifeOf(s, id).phase == AtCompleting
  }

  /** 'cancelled' is overwritten by a coordinator inside a window, and by nothing else. */
  lemma CancelOverwrittenInWindow(cfg: Config, s: State, step: Step, id: JobId)
    requires Inv(cfg, s) && Enabled(cfg, s, step) && id in s.history && IsCancelled(s, id)
    ensures !IsCancelled(Next(cfg, s, step), id) <==>
              (step.MarkRunning? || step.MarkCompleted?) && s.coordinators[step.c].job == id
    ensures !IsCancelled(Next(cfg, s, step), id) ==> InWindow(s, id)
  {
    StepFollowsLifeCycle(cfg, s, step, id);
    OnlyMarksOverwrite(cfg, s, step, id);
  }

  lemma OnlyMarksOverwrite(cfg: Config, s: State, step: Step, id: JobId)
    requires Enabled(cfg, s, step) && IsCancelled(s, id) && id in s.history
    ensures !IsCancelled(Next(cfg, s, step), id) <==>
              (step.MarkRunning? || step.MarkCompleted?) && s.coordinators[step.c].job == id
  {
    if IsTaskStep(step) {
      TaskStepKeepsLives(cfg, s, step);
    } else if IsCoordinatorStep(step) {
      OwnMarkOverwrites(cfg, s, step, id);
    }
  }

  lemma OwnMarkOverwrites(cfg: Config, s: State, step: Step, id: JobId)
    requires Enabled(cfg, s, step) && IsCoordinatorStep(step) && IsCancelled(s, id)
    ensures !IsCancelled(Next(cfg, s, step), id) <==>
              (step.MarkRunning? || step.MarkCompleted?) && s.coordinators[step.c].job == id
  {}

  /** Whatever happens next, the job stays cancelled. */
  ghost predicate CancelIsFinal(cfg: Config, s: State, id: JobId) {
    forall states, steps :: IsSegment(cfg, s, states, steps) ==> IsCancelled(states[|steps|], id)
  }

  /** A cancel lasts exactly when it lands outside the two windows. */
  lemma CancelIsFinalIffOutsideWindows(cfg: Config, s: State, id: JobId)
    requires Inv(cfg, s) && id in s.history && IsCancelled(s, id)
    ensures CancelIsFinal(cfg, s, id) <==> !InWindow(s, id)
  {
    if InWindow(s, id) {
      WindowLosesCancel(cfg, s, id);
    } else {
      forall states, steps | IsSegment(cfg, s, states, steps) ensures IsCancelled(states[|steps|], id) {
        LifeInvariant(cfg, s, states, steps, |steps|, id,
          (l: Life) => l.status == Some(Cancelled) && l.phase != AtChecked && l.phase != AtCompleting);
      }
    }
  }

  lemma WindowLosesCancel(cfg: Config, s: State, id: JobId)
    requires Inv(cfg, s) && id in s.history && IsCancelled(s, id) && InWindow(s, id)
    ensures !CancelIsFinal(cfg, s, id)
  {
    var c := s.history[id].place.coordinator;
    assert Placed(s, id);
    var step := if s.coordinators[c].Checked? then MarkRunning(c) else MarkCompleted(c);
    var s' := Next(cfg, s, step);
    assert IsSegment(cfg, s, [s, s'], [step]) by { assert IsStep(cfg, s, step, s'); }
    OnlyMarksOverwrite(cfg, s, step, id);
    assert [s, s'][|[step]|] == s';
  }

  lemma CancelSteps(cfg: Config, s: State, k: int, id: JobId)
    requires k in s.cancellers
    ensures s.cancellers[k].NotCancelling? ==> IsStep(cfg, s, CancelRead(k, id), ReadForCancel(s, k, id))
    ensures s.cancellers[k].CancelDue? ==> IsStep(cfg, s, CancelWrite(k), WroteCancel(s, k))
  {}

  lemma CheckSteps(cfg: Config, s: State, c: int, id: JobId)
    requires c in s.coordinators
    ensures s.coordinators[c] == Dequeued(id) ==> IsStep(cfg, s, CheckDequeued(c), CheckedDequeued(s, c, id))
    ensures s.coordinators[c] == Checked(id) ==> IsStep(cfg, s, MarkRunning(c), MarkedRunning(s, c, id))
  {}

  lemma LostCancelSteps(cfg: Config, s: State, c: int, k: int, id: JobId)
    returns (s1: State, s2: State, s3: State, s4: State)
    requires c in s.coordinators && s.coordinators[c] == Dequeued(id) && StatusOf(s.redis, id) == Some(Queued)
    requires k in s.cancellers && s.cancellers[k].NotCancelling?
    ensures IsStep(cfg, s, CancelRead(k, id), s1) && IsStep(cfg, s1, CheckDequeued(c), s2)
    ensures IsStep(cfg, s2, CancelWrite(k), s3) && IsStep(cfg, s3, MarkRunning(c), s4)
    ensures IsCancelled(s3, id) && StatusOf(s4.redis, id) == Some(Running)
  {
    s1 := ReadForCancel(s, k, id);
    s2 := CheckedDequeued(s1, c, id);
    s3 := WroteCancel(s2, k);
    s4 := MarkedRunning(s3, c, id);
    CancelSteps(cfg, s, k, id);
    CheckSteps(cfg, s1, c, id);
    CancelSteps(cfg, s2, k, id);
    CheckSteps(cfg, s3, c, id);
  }

  /** From every state with a freshly dequeued job, a cancel can report success and be lost. */
  lemma CancelCanBeLost(cfg: Config, s: State, c: int, k: int, id: JobId)
    requires c in s.coordinators && s.coordinators[c] == Dequeued(id) && StatusOf(s.redis, id) == Some(Queued)
    requires k in s.cancellers && s.cancellers[k].NotCancelling?
    ensures exists states: seq<State> ::
              IsSegment(cfg, s, states, [CancelRead(k, id), CheckDequeued(c), CancelWrite(k), MarkRunning(c)])
              && IsCancelled(states[3], id) && StatusOf(states[4].redis, id) == Some(Running)
  {
    var s1, s2, s3, s4 := LostCancelSteps(cfg, s, c, k, id);
    assert IsSegment(cfg, s, [s, s1, s2, s3, s4],
      [CancelRead(k, id), CheckDequeued(c), CancelWrite(k), MarkRunning(c)]);
  }

  /** A job cancelled before its dequeue check stays cancelled and no strategy ever runs for it. */
  lemma EarlyCancelNeverRuns(cfg: Config, s: State, states: seq<State>, steps: seq<Step>, n: nat, id: JobId)
    requires Inv(cfg, s) && id in s.history && IsCancelled(s, id) && BeforeCheck(ViewOf(s, id))
    requires IsSegment(cfg, s, states, steps) && n < |states|
    ensures IsCancelled(states[n], id) && id in states[n].history
    ensures states[n].history[id].executions == 0 && id !in states[n].tasks && ResultsOf(states[n].redis, id) == map[]
  {
    assert JobOk(cfg, ViewOf(s, id));
    LifeInvariant(cfg, s, states, steps, n, id,
      (l: Life) => l.status == Some(Cancelled) && !l.spawned
        && (l.phase == AtSubmitting || l.phase == AtWaiting || l.phase == AtDequeued || l.phase == AtFinished));
    assert JobOk(cfg, ViewOf(states[n], id));
  }

  // ----- queue depth -----

  /** Submitters that passed the depth check and have not enqueued yet. */
  function InFlightSubmitters(s: State): set<int> {
    set p | p in s.submitters && !s.submitters[p].Unsubmitted?
  }

  predicate DepthOk(cfg: Config, s: State, n: nat) {
    |s.submitters| == n && |s.redis.pending| + |InFlightSubmitters(s)| < cfg.maxDepth + n
  }

  lemma OthersDoNotEnqueue(cfg: Config, s: State, step: Step)
    requires Enabled(cfg, s, step) && !IsSubmitterStep(step)
    ensures Next(cfg, s, step).submitters == s.submitters
    ensures |Next(cfg, s, step).redis.pending| <= |s.redis.pending|
  {
    if IsTaskStep(step) {
      TaskStepKeepsLives(cfg, s, step);
    } else if IsCoordinatorStep(step) {
      CoordinatorsDoNotEnqueue(cfg, s, step);
    }
  }

  lemma CoordinatorsDoNotEnqueue(cfg: Config, s: State, step: Step)
    requires Enabled(cfg, s, step) && IsCoordinatorStep(step)
    ensures Next(cfg, s, step).submitters == s.submitters
    ensures |Next(cfg, s, step).redis.pending| <= |s.redis.pending|
  {
    if !step.Dequeue? {
      assert Next(cfg, s, step).redis.pending == s.redis.pending;
    }
  }

  lemma DepthStep(cfg: Config, s: State, step: Step, n: nat)
    requires Enabled(cfg, s, step) && DepthOk(cfg, s, n)
    ensures DepthOk(cfg, Next(cfg, s, step), n)
  {
    var s' := Next(cfg, s, step);
    if !IsSubmitterStep(step) {
      OthersDoNotEnqueue(cfg, s, step);
      return;
    }
    assert s'.submitters.Keys == s.submitters.Keys;
    assert |s'.submitters.Keys| == |s.submitters.Keys|;
    match step {
      case Admit(p, _) => SubsetSize(InFlightSubmitters(s'), s'.submitters.Keys);
      case EnqueueJob(p) => assert InFlightSubmitters(s') == InFlightSubmitters(s) - {p};
      case CreateJobHash(p, _) => assert InFlightSubmitters(s') == InFlightSubmitters(s);
      case StoreJobQueries(p) => assert InFlightSubmitters(s') == InFlightSubmitters(s);
    }
  }

  /** The depth check is not atomic with the enqueue: N submitters can overshoot the limit by N - 1. */
  lemma {:induction false} QueueDepthBound(cfg: Config, states: seq<State>, steps: seq<Step>, n: nat)
    requires IsRun(cfg, states, steps) && n < |states| && |states[0].submitters| > 0
    ensures DepthOk(cfg, states[n], |states[0].submitters|)
    decreases n
  {
    if n == 0 {
      assert forall p :: p in states[0].submitters ==> states[0].submitters[p].Unsubmitted?;
      assert InFlightSubmitters(states[0]) == {};
    } else {
      QueueDepthBound(cfg, states, steps, n - 1);
      assert IsStep(cfg, states[n - 1], steps[n - 1], states[n]);
      DepthStep(cfg, states[n - 1], steps[n - 1], |states[0].submitters|);
    }
  }
}
