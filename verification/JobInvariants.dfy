/**
 The invariant of the job protocol, and its preservation by every step.

 A job is looked at through its `View`: the parts of the state that concern that job alone. A step
 changes the view of at most one job, so preservation is checked one view at a time.
 */
module JobInvariants {

  import opened Prelude
  import opened RedisJobs
  import opened JobProtocol

  // ----- sums over a job's tasks -----

  function Total(f: Task -> nat, ts: seq<Task>): nat {
    if ts == [] then 0 else f(ts[0]) + Total(f, ts[1..])
  }

  lemma {:induction false} TotalUpdate(f: Task -> nat, ts: seq<Task>, i: nat, t: Task)
    requires i < |ts|
    ensures Total(f, ts[i := t]) + f(ts[i]) == Total(f, ts) + f(t)
  {
    if i == 0 {
      assert ts[i := t][1..] == ts[1..];
    } else {
      assert ts[i := t][1..] == ts[1..][i - 1 := t];
      TotalUpdate(f, ts[1..], i - 1, t);
    }
  }

  lemma {:induction false} TotalZero(f: Task -> nat, ts: seq<Task>)
    requires forall i :: 0 <= i < |ts| ==> f(ts[i]) == 0
    ensures Total(f, ts) == 0
  {
    if ts != [] {
      assert forall i :: 0 <= i < |ts[1..]| ==> ts[1..][i] == ts[i + 1];
      TotalZero(f, ts[1..]);
    }
  }

  lemma {:induction false} TotalSum(f: Task -> nat, g: Task -> nat, h: Task -> nat, ts: seq<Task>)
    requires forall i :: 0 <= i < |ts| ==> f(ts[i]) + g(ts[i]) == h(ts[i])
    ensures Total(f, ts) + Total(g, ts) == Total(h, ts)
  {
    if ts != [] {
      assert forall i :: 0 <= i < |ts[1..]| ==> ts[1..][i] == ts[i + 1];
      TotalSum(f, g, h, ts[1..]);
    }
  }

  lemma {:induction false} TotalAtMost(f: Task -> nat, ts: seq<Task>)
    requires forall i :: 0 <= i < |ts| ==> f(ts[i]) <= 1
    ensures Total(f, ts) <= |ts|
    ensures (forall i :: 0 <= i < |ts| ==> f(ts[i]) == 1) <==> Total(f, ts) == |ts|
  {
    if ts != [] {
      assert forall i :: 0 <= i < |ts[1..]| ==> ts[1..][i] == ts[i + 1];
      TotalAtMost(f, ts[1..]);
    }
  }

  // ----- what one task has done -----

  function OutsOf(t: Task): seq<Write> {
    if t.Writing? then t.outs else if t.Done? then t.outs else []
  }

  /** Results this task has put into the results hash. */
  function StoredOf(t: Task): nat {
    if t.Writing? then t.stored else if t.Done? then |t.outs| else 0
  }

  /** Results of this task that some counter already includes. */
  function CountedOf(t: Task): nat {
    if t.Writing? then t.counted else if t.Done? then |t.outs| else 0
  }

  function InFlightOf(t: Task): nat {
    if t.Writing? && t.counted < t.stored then t.stored - t.counted else 0
  }

  function Successes(outs: seq<Write>, n: nat): nat
    requires n <= |outs|
  {
    if n == 0 then 0 else Successes(outs, n - 1) + if outs[n - 1].result.success then 1 else 0
  }

  function Failures(outs: seq<Write>, n: nat): nat
    requires n <= |outs|
  {
    if n == 0 then 0 else Failures(outs, n - 1) + if outs[n - 1].result.success then 0 else 1
  }

  lemma SuccessesAndFailures(outs: seq<Write>, n: nat)
    requires n <= |outs|
    ensures Successes(outs, n) + Failures(outs, n) == n
  {}

  function SucceededOf(t: Task): nat {
    if CountedOf(t) <= |OutsOf(t)| then Successes(OutsOf(t), CountedOf(t)) else 0
  }

  function FailedOf(t: Task): nat {
    if CountedOf(t) <= |OutsOf(t)| then Failures(OutsOf(t), CountedOf(t)) else 0
  }

  /** The k-th write of task i is in Redis or was, and it is (name, result). */
  ghost predicate WroteAt(ts: seq<Task>, i: nat, k: nat, name: string, result: Result) {
    i < |ts| && k < StoredOf(ts[i]) && k < |OutsOf(ts[i])| && OutsOf(ts[i])[k] == Write(name, result)
  }

  ghost predicate Written(ts: seq<Task>, name: string, result: Result) {
    exists i, k :: WroteAt(ts, i, k, name, result)
  }

  ghost predicate TaskOk(cfg: Config, q: Query, t: Task, results: map<string, Result>) {
    && (t.Writing? ==> t.counted <= t.stored <= t.counted + 1 && t.stored <= |t.outs|)
    && (t.Writing? || t.Done? ==>
          && t.outs == Outputs(q, t.verdict)
          && IsHashable(q) && (t.verdict == NoStrategy <==> !IsSupported(cfg.supported, q)))
    && (t.Cleared? || t.Skipped? ==> IsSupported(cfg.supported, q))
    && (t.Escaped? ==> !IsHashable(q))
    && (forall k :: 0 <= k < StoredOf(t) ==> OutsOf(t)[k].name in results)
  }

  // ----- one job's part of the state -----

  datatype View = View(
    hash: Option<JobHash>,
    stored: Option<seq<Query>>,
    results: map<string, Result>,
    tasks: Option<seq<Task>>,
    history: History,
    stage: Stage)

  /** The program counter of the process that holds the job. */
  datatype Stage = Submitting(submitter: Submitter) | Waiting | Processing(coordinator: Coordinator) | Over

  function StageOf(s: State, h: History): Stage {
    match h.place
    case AtSubmitter(p) => Submitting(if p in s.submitters then s.submitters[p] else Unsubmitted)
    case InQueue => Waiting
    case AtCoordinator(c) => Processing(if c in s.coordinators then s.coordinators[c] else Idle)
    case Finished => Over
  }

  function ViewOf(s: State, id: JobId): View
    requires id in s.history
  {
    View(if id in s.redis.hashes then Some(s.redis.hashes[id]) else None,
         if id in s.redis.queries then Some(s.redis.queries[id]) else None,
         ResultsOf(s.redis, id),
         if id in s.tasks then Some(s.tasks[id]) else None,
         s.history[id],
         StageOf(s, s.history[id]))
  }

  /** Every task ran to its end or escaped; none was skipped. */
  ghost predicate AllEnded(ts: seq<Task>) {
    forall i :: 0 <= i < |ts| ==> ts[i].Done? || ts[i].Escaped?
  }

  ghost predicate NoneSkipped(ts: seq<Task>) {
    forall i :: 0 <= i < |ts| ==> !ts[i].Skipped?
  }

  /** No coordinator has looked at the job's status after popping it. */
  predicate BeforeCheck(v: View) {
    v.stage.Submitting? || v.stage.Waiting? || (v.stage.Processing? && v.stage.coordinator.Dequeued?)
  }

  predicate BeforeSpawn(v: View) {
    BeforeCheck(v) || (v.stage.Processing? && (v.stage.coordinator.Checked? || v.stage.coordinator.Started?))
  }

  ghost predicate StatusOk(v: View)
    requires v.hash.Some?
  {
    var status := v.hash.value.status;
    && (v.stage.Submitting? || v.stage.Waiting? ==> status in {Queued, Cancelled})
    && (v.stage.Processing? ==>
          match v.stage.coordinator
          case Idle => false
          case Dequeued(_) => status in {Queued, Cancelled}
          case Checked(_) => status in {Queued, Cancelled}
          case Started(_) => status in {Running, Cancelled}
          case Gathering(_) =>
            && status in {Running, Cancelled}
            && v.tasks.Some?
            && (!NoneSkipped(v.tasks.value) ==> status == Cancelled)
          case Completing(_) => status in {Running, Cancelled} && v.tasks.Some? && AllEnded(v.tasks.value))
    && (v.stage.Over? ==>
          && status in {Completed, Cancelled}
          && (v.tasks.None? ==> status == Cancelled)
          && (v.tasks.Some? ==> AllTerminated(v.tasks.value))
          && (status == Completed ==> v.tasks.Some? && AllEnded(v.tasks.value)))
  }

  ghost predicate SubmissionOk(v: View)
    requires v.hash.Some? && v.hash.value.JobHash?
  {
    && v.hash.value.total == |v.history.queries|
    && match v.stage
       case Submitting(HashCreated(_, queries)) => queries == v.history.queries
       case _ => v.stored == Some(v.history.queries)
  }

  ghost predicate UntouchedOk(v: View)
    requires v.hash.Some? && v.hash.value.JobHash?
  {
    && (BeforeSpawn(v) ==> v.tasks.None?)
    && (v.tasks.None? ==>
          && v.results == map[] && v.history.executions == 0 && v.history.writes == 0
          && v.hash.value.completed == 0 && v.hash.value.failed == 0)
    && v.history.dequeues == (if v.stage.Submitting? || v.stage.Waiting? then 0 else 1)
  }

  ghost predicate TasksOk(cfg: Config, queries: seq<Query>, tasks: Option<seq<Task>>, results: map<string, Result>) {
    tasks.Some? ==>
      && |tasks.value| == |queries|
      && (forall i :: 0 <= i < |queries| ==> TaskOk(cfg, queries[i], tasks.value[i], results))
      && (forall name :: name in results ==> Written(tasks.value, name, results[name]))
  }

  ghost predicate CountsOk(completed: nat, failed: nat, writes: nat, tasks: Option<seq<Task>>) {
    tasks.Some? ==>
      && completed == Total(SucceededOf, tasks.value)
      && failed == Total(FailedOf, tasks.value)
      && writes == Total(StoredOf, tasks.value)
  }

  ghost predicate JobOk(cfg: Config, v: View) {
    && v.hash.Some? && v.hash.value.JobHash?
    && StatusOk(v) && SubmissionOk(v) && UntouchedOk(v)
    && TasksOk(cfg, v.history.queries, v.tasks, v.results)
    && CountsOk(v.hash.value.completed, v.hash.value.failed, v.history.writes, v.tasks)
  }

  // ----- the whole state -----

  predicate Holds(s: State, p: int, id: JobId) {
    p in s.submitters && (s.submitters[p].HashCreated? || s.submitters[p].JobStored?) && s.submitters[p].job == id
  }

  predicate Works(s: State, c: int, id: JobId) {
    c in s.coordinators && !s.coordinators[c].Idle? && s.coordinators[c].job == id
  }

  ghost predicate HoldersOk(s: State) {
    forall p, id :: Holds(s, p, id) ==> id in s.history && s.history[id].place == AtSubmitter(p)
  }

  ghost predicate WorkersOk(s: State) {
    forall c, id :: Works(s, c, id) ==> id in s.history && s.history[id].place == AtCoordinator(c)
  }

  ghost predicate QueueOk(s: State) {
    && (forall id :: id in s.redis.pending ==> id in s.history && s.history[id].place == InQueue)
    && Distinct(s.redis.pending)
  }

  ghost predicate AllPlaced(s: State) {
    forall id :: id in s.history ==> Placed(s, id)
  }

  /** Ids that create_job never made have no tasks and no results, and at most a bare status. */
  ghost predicate KeysOk(s: State) {
    && s.tasks.Keys <= s.history.Keys
    && s.redis.results.Keys <= s.history.Keys
    && (forall id :: id in s.redis.hashes && id !in s.history ==> s.redis.hashes[id] == StatusOnly(Cancelled))
  }

  /** `history` agrees with the program counters and the queue about where each job is. */
  ghost predicate PlacesOk(s: State) {
    HoldersOk(s) && WorkersOk(s) && QueueOk(s) && AllPlaced(s) && KeysOk(s)
  }

  ghost predicate Placed(s: State, id: JobId)
    requires id in s.history
  {
    match s.history[id].place
    case AtSubmitter(p) => Holds(s, p, id)
    case InQueue => id in s.redis.pending
    case AtCoordinator(c) => Works(s, c, id)
    case Finished => true
  }

  /** Nothing will write to the job's results any more: every task has written all it will. */
  ghost predicate Settled(s: State, id: JobId) {
    && id in s.history && s.history[id].place == Finished
    && id in s.tasks && AllEnded(s.tasks[id])
  }

  ghost predicate ReaderOk(s: State, reader: Reader) {
    match reader
    case Polling => true
    case SawCompleted(id) => Settled(s, id)
    case GotResults(id, results) => Settled(s, id) && results == ResultsOf(s.redis, id)
  }

  ghost predicate ReadersOk(s: State) {
    forall r :: r in s.readers ==> ReaderOk(s, s.readers[r])
  }

  ghost predicate JobsOk(cfg: Config, s: State) {
    forall id :: id in s.history ==> JobOk(cfg, ViewOf(s, id))
  }

  ghost predicate Inv(cfg: Config, s: State) {
    PlacesOk(s) && JobsOk(cfg, s) && ReadersOk(s)
  }
}
