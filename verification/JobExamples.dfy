/** Runs of the job protocol, from the empty Redis on, that reach what the theorems leave possible. */
module JobExamples {

  import opened Prelude
  import opened RedisJobs
  import opened JobProtocol
  import opened JobTheorems

  ghost predicate IsReachable(cfg: Config, s: State) {
    exists states, steps :: IsRun(cfg, states, steps) && states[|steps|] == s
  }

  lemma ReachNext(cfg: Config, s: State, step: Step, s': State)
    requires IsReachable(cfg, s) && IsStep(cfg, s, step, s')
    ensures IsReachable(cfg, s')
  {
    var states, steps :| IsRun(cfg, states, steps) && states[|steps|] == s;
    var states', steps' := states + [s'], steps + [step];
    forall n | 0 <= n < |steps'| ensures IsStep(cfg, states'[n], steps'[n], states'[n + 1]) {
      assert n < |steps| ==> IsStep(cfg, states[n], steps[n], states[n + 1]);
    }
    assert IsRun(cfg, states', steps') && states'[|steps'|] == s';
  }

  // ----- one submitter, one canceller, one coordinator, one reader, one job -----

  const JOB: JobId := 1

  function At(redis: Redis, p: Submitter, k: Canceller, c: Coordinator, r: Reader,
              tasks: map<JobId, seq<Task>>, history: map<JobId, History>): State {
    State(redis, map[0 := p], map[0 := k], map[0 := c], map[0 := r], tasks, history)
  }

  function Stored(status: Status, queries: seq<Query>, pending: seq<JobId>): Redis {
    Redis(map[JOB := JobHash(status, |queries|, 0, 0)], map[JOB := queries], map[], pending)
  }

  function Waits(queries: seq<Query>): State {
    At(Stored(Queued, queries, [JOB]), Unsubmitted, NotCancelling, Idle, Polling, map[],
       map[JOB := History(queries, InQueue, 0, 0, 0)])
  }

  /** Held by the coordinator. */
  function Held(status: Status, queries: seq<Query>, k: Canceller, c: Coordinator,
      tasks: map<JobId, seq<Task>>): State
  {
    At(Stored(status, queries, []), Unsubmitted, k, c, Polling, tasks,
       map[JOB := History(queries, AtCoordinator(0), 1, 0, 0)])
  }

  function Over(queries: seq<Query>, r: Reader, tasks: map<JobId, seq<Task>>): State {
    At(Stored(Completed, queries, []), Unsubmitted, NotCancelling, Idle, r, tasks,
       map[JOB := History(queries, Finished, 1, 0, 0)])
  }

  function Begun(p: Submitter): State {
    At(EMPTY_REDIS, p, NotCancelling, Idle, Polling, map[], map[])
  }

  lemma ReachAdmitted(cfg: Config, queries: seq<Query>)
    requires cfg.maxDepth > 0 && DistinctNames(queries)
    ensures IsReachable(cfg, Begun(Admitted(queries)))
  {
    var states, steps: seq<Step> := [Begun(Unsubmitted)], [];
    assert IsRun(cfg, states, steps) && states[|steps|] == Begun(Unsubmitted);
    assert Next(cfg, Begun(Unsubmitted), Admit(0, queries)) == Begun(Admitted(queries));
    ReachNext(cfg, Begun(Unsubmitted), Admit(0, queries), Begun(Admitted(queries)));
  }

  /** With its submitter, its hash created and perhaps its queries stored. */
  function Submitted(queries: seq<Query>, p: Submitter, stored: map<JobId, seq<Query>>): State {
    At(Redis(map[JOB := JobHash(Queued, |queries|, 0, 0)], stored, map[], []), p, NotCancelling, Idle, Polling, map[],
       map[JOB := History(queries, AtSubmitter(0), 0, 0, 0)])
  }

  lemma ReachCreated(cfg: Config, queries: seq<Query>)
    requires cfg.maxDepth > 0 && DistinctNames(queries)
    ensures IsReachable(cfg, Submitted(queries, HashCreated(JOB, queries), map[]))
  {
    ReachAdmitted(cfg, queries);
    var s, s' := Begun(Admitted(queries)), Submitted(queries, HashCreated(JOB, queries), map[]);
    assert Next(cfg, s, CreateJobHash(0, JOB)) == s';
    ReachNext(cfg, s, CreateJobHash(0, JOB), s');
  }

  lemma ReachStored(cfg: Config, queries: seq<Query>)
    requires cfg.maxDepth > 0 && DistinctNames(queries)
    ensures IsReachable(cfg, Submitted(queries, JobStored(JOB), map[JOB := queries]))
  {
    ReachCreated(cfg, queries);
    var s := Submitted(queries, HashCreated(JOB, queries), map[]);
    var s' := Submitted(queries, JobStored(JOB), map[JOB := queries]);
    assert Next(cfg, s, StoreJobQueries(0)) == s';
    ReachNext(cfg, s, StoreJobQueries(0), s');
  }

  lemma ReachWaiting(cfg: Config, queries: seq<Query>)
    requires cfg.maxDepth > 0 && DistinctNames(queries)
    ensures IsReachable(cfg, Waits(queries))
  {
    ReachStored(cfg, queries);
    var s := Submitted(queries, JobStored(JOB), map[JOB := queries]);
    assert Next(cfg, s, EnqueueJob(0)) == Waits(queries);
    ReachNext(cfg, s, EnqueueJob(0), Waits(queries));
  }

  lemma ReachDequeued(cfg: Config, queries: seq<Query>)
    requires cfg.maxDepth > 0 && DistinctNames(queries)
    ensures IsReachable(cfg, Held(Queued, queries, NotCancelling, Dequeued(JOB), map[]))
  {
    ReachWaiting(cfg, queries);
    var s, s' := Waits(queries), Held(Queued, queries, NotCancelling, Dequeued(JOB), map[]);
    assert Next(cfg, s, Dequeue(0)) == s';
    ReachNext(cfg, s, Dequeue(0), s');
  }

  lemma ReachChecked(cfg: Config, queries: seq<Query>)
    requires cfg.maxDepth > 0 && DistinctNames(queries)
    ensures IsReachable(cfg, Held(Queued, queries, NotCancelling, Checked(JOB), map[]))
  {
    ReachDequeued(cfg, queries);
    var s := Held(Queued, queries, NotCancelling, Dequeued(JOB), map[]);
    var s' := Held(Queued, queries, NotCancelling, Checked(JOB), map[]);
    assert Next(cfg, s, CheckDequeued(0)) == s';
    ReachNext(cfg, s, CheckDequeued(0), s');
  }

  lemma ReachStarted(cfg: Config, queries: seq<Query>)
    requires cfg.maxDepth > 0 && DistinctNames(queries)
    ensures IsReachable(cfg, Held(Running, queries, NotCancelling, Started(JOB), map[]))
  {
    ReachChecked(cfg, queries);
    var s := Held(Queued, queries, NotCancelling, Checked(JOB), map[]);
    var s' := Held(Running, queries, NotCancelling, Started(JOB), map[]);
    assert Next(cfg, s, MarkRunning(0)) == s';
    ReachNext(cfg, s, MarkRunning(0), s');
  }

  lemma ReachGathering(cfg: Config, queries: seq<Query>, tasks: seq<Task>)
    requires cfg.maxDepth > 0 && DistinctNames(queries) && tasks == seq(|queries|, _ => Ready)
    ensures IsReachable(cfg, Held(Running, queries, NotCancelling, Gathering(JOB), map[JOB := tasks]))
  {
    ReachStarted(cfg, queries);
    var s := Held(Running, queries, NotCancelling, Started(JOB), map[]);
    var s' := Held(Running, queries, NotCancelling, Gathering(JOB), map[JOB := tasks]);
    assert Next(cfg, s, SpawnTasks(0)) == s';
    ReachNext(cfg, s, SpawnTasks(0), s');
  }

  // ----- cancels that are lost -----

  /** In a reachable state the job is cancelled, and the next step is the coordinator's, which overwrites that. */
  ghost predicate LosesCancel(cfg: Config, s: State, step: Step, status: Status) {
    && IsReachable(cfg, s) && IsCancelled(s, JOB) && Enabled(cfg, s, step)
    && StatusOf(Next(cfg, s, step).redis, JOB) == Some(status)
  }

  /** The first window: a cancel that reported success, and the job runs. */
  lemma CancelIsLostBeforeRunning(cfg: Config)
    requires cfg.maxDepth > 0
    ensures exists s :: LosesCancel(cfg, s, MarkRunning(0), Running)
  {
    var s0 := Held(Queued, [], NotCancelling, Dequeued(JOB), map[]);
    ReachDequeued(cfg, []);
    var s1, s2, s3, s4 := LostCancelSteps(cfg, s0, 0, 0, JOB);
    ReachNext(cfg, s0, CancelRead(0, JOB), s1);
    ReachNext(cfg, s1, CheckDequeued(0), s2);
    ReachNext(cfg, s2, CancelWrite(0), s3);
    assert LosesCancel(cfg, s3, MarkRunning(0), Running);
  }

  /** The final check passes once every task has terminated, whatever a canceller is about to write. */
  lemma ReachCompleting(cfg: Config, queries: seq<Query>, k: Canceller, tasks: seq<Task>)
    requires IsReachable(cfg, Held(Running, queries, k, Gathering(JOB), map[JOB := tasks])) && AllTerminated(tasks)
    ensures IsReachable(cfg, Held(Running, queries, k, Completing(JOB), map[JOB := tasks]))
  {
    var s := Held(Running, queries, k, Gathering(JOB), map[JOB := tasks]);
    var s' := Held(Running, queries, k, Completing(JOB), map[JOB := tasks]);
    assert Next(cfg, s, FinalCheck(0)) == s';
    ReachNext(cfg, s, FinalCheck(0), s');
  }

  lemma ReachCancelDue(cfg: Config)
    requires cfg.maxDepth > 0
    ensures IsReachable(cfg, Held(Running, [], CancelDue(JOB), Gathering(JOB), map[JOB := []]))
  {
    ReachGathering(cfg, [], []);
    var s := Held(Running, [], NotCancelling, Gathering(JOB), map[JOB := []]);
    var s' := Held(Running, [], CancelDue(JOB), Gathering(JOB), map[JOB := []]);
    assert Next(cfg, s, CancelRead(0, JOB)) == s';
    ReachNext(cfg, s, CancelRead(0, JOB), s');
  }

  /** The second window: a cancel that reported success, and the job is completed. */
  lemma CancelIsLostBeforeCompleting(cfg: Config)
    requires cfg.maxDepth > 0
    ensures exists s :: LosesCancel(cfg, s, MarkCompleted(0), Completed)
  {
    ReachCancelled(cfg);
    assert LosesCancel(cfg, Held(Cancelled, [], NotCancelling, Completing(JOB), map[JOB := []]), MarkCompleted(0),
                       Completed);
  }

  lemma ReachCancelled(cfg: Config)
    requires cfg.maxDepth > 0
    ensures IsReachable(cfg, Held(Cancelled, [], NotCancelling, Completing(JOB), map[JOB := []]))
  {
    ReachCancelDue(cfg);
    ReachCompleting(cfg, [], CancelDue(JOB), []);
    var s := Held(Running, [], CancelDue(JOB), Completing(JOB), map[JOB := []]);
    var s' := Held(Cancelled, [], NotCancelling, Completing(JOB), map[JOB := []]);
    assert Next(cfg, s, CancelWrite(0)) == s';
    ReachNext(cfg, s, CancelWrite(0), s');
  }

  // ----- a query without an answer -----

  lemma ReachEscaped(cfg: Config, q: Query)
    requires cfg.maxDepth > 0 && !IsHashable(q)
    ensures IsReachable(cfg, Held(Running, [q], NotCancelling, Gathering(JOB), map[JOB := [Escaped]]))
  {
    var ready: seq<Task> := [Ready];
    ReachGathering(cfg, [q], ready);
    var s := Held(Running, [q], NotCancelling, Gathering(JOB), map[JOB := ready]);
    var s' := Held(Running, [q], NotCancelling, Gathering(JOB), map[JOB := [Escaped]]);
    assert ready[0 := Escaped] == [Escaped];
    assert Next(cfg, s, RaiseOnMode(JOB, 0)) == s';
    ReachNext(cfg, s, RaiseOnMode(JOB, 0), s');
  }

  lemma ReachOver(cfg: Config, queries: seq<Query>, tasks: seq<Task>)
    requires IsReachable(cfg, Held(Running, queries, NotCancelling, Completing(JOB), map[JOB := tasks]))
    ensures IsReachable(cfg, Over(queries, Polling, map[JOB := tasks]))
  {
    var s := Held(Running, queries, NotCancelling, Completing(JOB), map[JOB := tasks]);
    var s' := Over(queries, Polling, map[JOB := tasks]);
    assert Next(cfg, s, MarkCompleted(0)) == s';
    ReachNext(cfg, s, MarkCompleted(0), s');
  }

  lemma ReachPolled(cfg: Config, queries: seq<Query>, tasks: seq<Task>)
    requires IsReachable(cfg, Over(queries, Polling, map[JOB := tasks]))
    ensures IsReachable(cfg, Over(queries, SawCompleted(JOB), map[JOB := tasks]))
  {
    var s, s' := Over(queries, Polling, map[JOB := tasks]), Over(queries, SawCompleted(JOB), map[JOB := tasks]);
    assert Next(cfg, s, PollStatus(0, JOB)) == s';
    ReachNext(cfg, s, PollStatus(0, JOB), s');
  }

  lemma ReachRead(cfg: Config, queries: seq<Query>, tasks: seq<Task>)
    requires IsReachable(cfg, Over(queries, Polling, map[JOB := tasks]))
    ensures IsReachable(cfg, Over(queries, GotResults(JOB, map[]), map[JOB := tasks]))
  {
    ReachPolled(cfg, queries, tasks);
    var s := Over(queries, SawCompleted(JOB), map[JOB := tasks]);
    var s' := Over(queries, GotResults(JOB, map[]), map[JOB := tasks]);
    assert Next(cfg, s, ReadResults(0)) == s';
    ReachNext(cfg, s, ReadResults(0), s');
  }

  /** A mode that cannot be looked up: the job is completed, and its reader gets no result for the query. */
  lemma UnhashableModeHasNoAnswer(cfg: Config, q: Query)
    requires cfg.maxDepth > 0 && !IsHashable(q)
    ensures exists s :: IsReachable(cfg, s) && StatusOf(s.redis, JOB) == Some(Completed)
              && s.readers == map[0 := GotResults(JOB, map[])] && JOB in s.history && s.history[JOB].queries == [q]
  {
    var tasks: seq<Task> := [Escaped];
    ReachEscaped(cfg, q);
    ReachCompleting(cfg, [q], NotCancelling, tasks);
    ReachOver(cfg, [q], tasks);
    ReachRead(cfg, [q], tasks);
    var s := Over([q], GotResults(JOB, map[]), map[JOB := tasks]);
    assert StatusOf(s.redis, JOB) == Some(Completed);
  }
}
