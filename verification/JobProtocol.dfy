/**
 The Prometheus adapter's job protocol as a state machine.

 Submitters, cancellers, coordinators, per-query tasks and polling readers share one Redis.
 Each has a program counter; one step is one Redis command (or one strategy execution), so the
 runs of this machine are the interleavings of the coroutines at their awaits. Several
 coordinators may share the Redis. A process that crashes is one that takes no further step.
 */
module JobProtocol {

  import opened Prelude
  import opened RedisJobs

  /** Modes with a registered strategy, and the queue depth limit. */
  datatype Config = Config(supported: set<string>, maxDepth: nat)

  // ----- what a query writes -----

  /** What a strategy did: it raised, or it returned values and errors. */
  datatype Outcome =
    | Raised(message: string)
    | Returned(values: seq<(string, Reading)>, errors: map<string, string>)

  datatype Verdict = NoStrategy | Ran(outcome: Outcome)

  datatype Write = Write(name: string, result: Result)

  function Shown(mode: Mode): string {
    match mode
    case Text(name) => name
    case Scalar(shown) => shown
    case Unhashable => ""
  }

  /** The write_result calls one query task makes, in order. */
  function Outputs(q: Query, v: Verdict): seq<Write> {
    match v
    case NoStrategy => [Write(q.name, Result(Missing, false, "unsupported mode: " + Shown(q.mode), ""))]
    case Ran(Raised(message)) => [Write(q.name, Result(Missing, false, message, q.text))]
    case Ran(Returned(values, errors)) =>
      seq(|values|, k requires 0 <= k < |values| =>
        var name := values[k].0;
        Write(name, Result(values[k].1, name !in errors, if name in errors then errors[name] else "", q.text)))
  }

  // ----- processes -----

  /**
   A query task. `stored` results are in Redis, `counted` of them have bumped a counter. `Escaped` raised
   an exception that nothing but gather catches.
   */
  datatype Task =
    | Ready
    | Cleared
    | Writing(verdict: Verdict, outs: seq<Write>, stored: nat, counted: nat)
    | Skipped
    | Escaped
    | Done(verdict: Verdict, outs: seq<Write>)

  datatype Submitter =
    | Unsubmitted
    | Admitted(queries: seq<Query>)
    | HashCreated(job: JobId, queries: seq<Query>)
    | JobStored(job: JobId)

  datatype Canceller = NotCancelling | CancelDue(job: JobId)

  datatype Coordinator =
    | Idle
    | Dequeued(job: JobId)
    | Checked(job: JobId)
    | Started(job: JobId)
    | Gathering(job: JobId)
    | Completing(job: JobId)

  datatype Reader =
    | Polling
    | SawCompleted(job: JobId)
    | GotResults(job: JobId, results: map<string, Result>)

  // ----- state -----

  /** Where a job is. Only `history` records it; JobTheorems proves what it says of the pcs. */
  datatype Place = AtSubmitter(submitter: int) | InQueue | AtCoordinator(coordinator: int) | Finished

  /** What was done to a job so far: read by no step. */
  datatype History = History(queries: seq<Query>, place: Place, dequeues: nat, executions: nat, writes: nat)

  datatype State = State(
    redis: Redis,
    submitters: map<int, Submitter>,
    cancellers: map<int, Canceller>,
    coordinators: map<int, Coordinator>,
    readers: map<int, Reader>,
    tasks: map<JobId, seq<Task>>,
    history: map<JobId, History>)

  ghost predicate Init(s: State) {
    && s.redis == EMPTY_REDIS
    && (forall p :: p in s.submitters ==> s.submitters[p].Unsubmitted?)
    && (forall k :: k in s.cancellers ==> s.cancellers[k].NotCancelling?)
    && (forall c :: c in s.coordinators ==> s.coordinators[c].Idle?)
    && (forall r :: r in s.readers ==> s.readers[r].Polling?)
    && s.tasks == map[] && s.history == map[]
  }

  // ----- steps -----

  datatype Step =
    // JobManager.submit
    | Admit(p: int, queries: seq<Query>)
    | CreateJobHash(p: int, id: JobId)
    | StoreJobQueries(p: int)
    | EnqueueJob(p: int)
    // JobRepository.cancel
    | CancelRead(k: int, id: JobId)
    | CancelWrite(k: int)
    // Coordinator.process_one
    | Dequeue(c: int)
    | CheckDequeued(c: int)
    | MarkRunning(c: int)
    | SpawnTasks(c: int)
    | FinalCheck(c: int)
    | MarkCompleted(c: int)
    // Coordinator._run_query, task i of a job
    | RejectMode(id: JobId, i: nat)
    | RaiseOnMode(id: JobId, i: nat)
    | CheckTask(id: JobId, i: nat)
    | Execute(id: JobId, i: nat, outcome: Outcome)
    | WriteOne(id: JobId, i: nat)
    | CountOne(id: JobId, i: nat)
    | FinishTask(id: JobId, i: nat)
    // JobManager.get_status, as sync_query polls it
    | PollStatus(r: int, id: JobId)
    | ReadResults(r: int)
    | Reply(r: int)

  predicate Terminated(t: Task) {
    t.Skipped? || t.Escaped? || t.Done?
  }

  predicate HasTask(s: State, id: JobId, i: nat) {
    id in s.tasks && i < |s.tasks[id]| && id in s.history && i < |s.history[id].queries|
  }

  /** The queries of a job are the entries of a mapping. */
  ghost predicate DistinctNames(queries: seq<Query>) {
    forall i, j :: 0 <= i < j < |queries| ==> queries[i].name != queries[j].name
  }

  /** gather returns once every task has. */
  ghost predicate AllTerminated(ts: seq<Task>) {
    forall i :: 0 <= i < |ts| ==> Terminated(ts[i])
  }

  ghost predicate Enabled(cfg: Config, s: State, step: Step) {
    match step
    case Admit(p, queries) =>
      p in s.submitters && s.submitters[p].Unsubmitted? && |s.redis.pending| < cfg.maxDepth
      && DistinctNames(queries)
    case CreateJobHash(p, id) =>
      // uuid4: nobody has used the id before
      p in s.submitters && s.submitters[p].Admitted? && id !in s.redis.hashes && id !in s.history
    case StoreJobQueries(p) => p in s.submitters && s.submitters[p].HashCreated?
    case EnqueueJob(p) => p in s.submitters && s.submitters[p].JobStored?
    case CancelRead(k, id) => k in s.cancellers && s.cancellers[k].NotCancelling?
    case CancelWrite(k) => k in s.cancellers && s.cancellers[k].CancelDue?
    case Dequeue(c) => c in s.coordinators && s.coordinators[c].Idle?
    case CheckDequeued(c) => c in s.coordinators && s.coordinators[c].Dequeued?
    case MarkRunning(c) => c in s.coordinators && s.coordinators[c].Checked?
    case SpawnTasks(c) => c in s.coordinators && s.coordinators[c].Started?
    case FinalCheck(c) =>
      && c in s.coordinators && s.coordinators[c].Gathering?
      && s.coordinators[c].job in s.tasks && AllTerminated(s.tasks[s.coordinators[c].job])
    case MarkCompleted(c) => c in s.coordinators && s.coordinators[c].Completing?
    case RejectMode(id, i) =>
      HasTask(s, id, i) && s.tasks[id][i].Ready?
      && IsHashable(s.history[id].queries[i]) && !IsSupported(cfg.supported, s.history[id].queries[i])
    case RaiseOnMode(id, i) =>
      HasTask(s, id, i) && s.tasks[id][i].Ready? && !IsHashable(s.history[id].queries[i])
    case CheckTask(id, i) =>
      HasTask(s, id, i) && s.tasks[id][i].Ready? && IsSupported(cfg.supported, s.history[id].queries[i])
    case Execute(id, i, outcome) => HasTask(s, id, i) && s.tasks[id][i].Cleared?
    case WriteOne(id, i) =>
      HasTask(s, id, i) && s.tasks[id][i].Writing?
      && s.tasks[id][i].stored == s.tasks[id][i].counted < |s.tasks[id][i].outs|
    case CountOne(id, i) =>
      HasTask(s, id, i) && s.tasks[id][i].Writing?
      && s.tasks[id][i].counted < s.tasks[id][i].stored <= |s.tasks[id][i].outs|
    case FinishTask(id, i) =>
      HasTask(s, id, i) && s.tasks[id][i].Writing? && s.tasks[id][i].counted == |s.tasks[id][i].outs|
    case PollStatus(r, id) => r in s.readers && s.readers[r].Polling?
    case ReadResults(r) => r in s.readers && s.readers[r].SawCompleted?
    case Reply(r) => r in s.readers && s.readers[r].GotResults?
  }

  function Move(s: State, id: JobId, place: Place): map<JobId, History> {
    if id in s.history then s.history[id := s.history[id].(place := place)] else s.history
  }

  function SetTask(s: State, id: JobId, i: nat, t: Task): map<JobId, seq<Task>>
    requires HasTask(s, id, i)
  {
    s.tasks[id := s.tasks[id][i := t]]
  }

  // ----- the effect of each step -----

  function CreatedJob(s: State, p: int, id: JobId): State
    requires p in s.submitters && s.submitters[p].Admitted?
  {
    var queries := s.submitters[p].queries;
    s.(redis := CreateHash(s.redis, id, |queries|),
       submitters := s.submitters[p := HashCreated(id, queries)],
       history := s.history[id := History(queries, AtSubmitter(p), 0, 0, 0)])
  }

  function StoredQueries(s: State, p: int): State
    requires p in s.submitters && s.submitters[p].HashCreated?
  {
    var HashCreated(id, queries) := s.submitters[p];
    s.(redis := StoreQueries(s.redis, id, queries), submitters := s.submitters[p := JobStored(id)])
  }

  function EnqueuedJob(s: State, p: int): State
    requires p in s.submitters && s.submitters[p].JobStored?
  {
    var id := s.submitters[p].job;
    s.(redis := Enqueue(s.redis, id), submitters := s.submitters[p := Unsubmitted], history := Move(s, id, InQueue))
  }

  /** The first half of a cancel: a job already in a terminal state is left alone. */
  function ReadForCancel(s: State, k: int, id: JobId): State {
    var status := StatusOf(s.redis, id);
    if status.Some? && IsTerminal(status.value) then s else s.(cancellers := s.cancellers[k := CancelDue(id)])
  }

  /** The second half writes without looking again. */
  function WroteCancel(s: State, k: int): State
    requires k in s.cancellers && s.cancellers[k].CancelDue?
  {
    s.(redis := SetStatus(s.redis, s.cancellers[k].job, Cancelled), cancellers := s.cancellers[k := NotCancelling])
  }

  /** LPOP: an empty queue leaves the coordinator idle. */
  function DequeuedNext(s: State, c: int): State {
    if s.redis.pending == [] then s else
    var id := s.redis.pending[0];
    var moved := Move(s, id, AtCoordinator(c));
    s.(redis := s.redis.(pending := s.redis.pending[1..]),
       coordinators := s.coordinators[c := Dequeued(id)],
       history := if id in moved then moved[id := moved[id].(dequeues := moved[id].dequeues + 1)] else moved)
  }

  /** process_one returns. */
  function Ended(s: State, c: int, id: JobId): State {
    s.(coordinators := s.coordinators[c := Idle], history := Move(s, id, Finished))
  }

  function CheckedDequeued(s: State, c: int, id: JobId): State {
    var status := StatusOf(s.redis, id);
    if status.None? || status.value == Cancelled then Ended(s, c, id)
    else s.(coordinators := s.coordinators[c := Checked(id)])
  }

  function MarkedRunning(s: State, c: int, id: JobId): State {
    s.(redis := SetStatus(s.redis, id, Running), coordinators := s.coordinators[c := Started(id)])
  }

  function Spawned(s: State, c: int, id: JobId): State {
    s.(coordinators := s.coordinators[c := Gathering(id)],
       tasks := s.tasks[id := seq(|QueriesOf(s.redis, id)|, _ => Ready)])
  }

  function CheckedFinally(s: State, c: int, id: JobId): State {
    var status := StatusOf(s.redis, id);
    if status.Some? && status.value != Cancelled then s.(coordinators := s.coordinators[c := Completing(id)])
    else Ended(s, c, id)
  }

  function MarkedCompleted(s: State, c: int, id: JobId): State {
    Ended(s.(redis := SetStatus(s.redis, id, Completed)), c, id)
  }

  function CheckedTask(s: State, id: JobId, i: nat): State
    requires HasTask(s, id, i)
  {
    s.(tasks := SetTask(s, id, i, if StatusOf(s.redis, id) == Some(Cancelled) then Skipped else Cleared))
  }

  /** The lookup of the mode raises, outside the task's own try block. */
  function EscapedTask(s: State, id: JobId, i: nat): State
    requires HasTask(s, id, i)
  {
    s.(tasks := SetTask(s, id, i, Escaped))
  }

  function BegunWriting(s: State, id: JobId, i: nat, verdict: Verdict): State
    requires HasTask(s, id, i)
  {
    var h := s.history[id];
    s.(tasks := SetTask(s, id, i, Writing(verdict, Outputs(h.queries[i], verdict), 0, 0)),
       history := s.history[id := if verdict.Ran? then h.(executions := h.executions + 1) else h])
  }

  function WroteOne(s: State, id: JobId, i: nat): State
    requires HasTask(s, id, i) && s.tasks[id][i].Writing? && s.tasks[id][i].stored < |s.tasks[id][i].outs|
  {
    var t := s.tasks[id][i];
    var w := t.outs[t.stored];
    var h := s.history[id];
    s.(redis := StoreResult(s.redis, id, w.name, w.result),
       tasks := SetTask(s, id, i, t.(stored := t.stored + 1)),
       history := s.history[id := h.(writes := h.writes + 1)])
  }

  function CountedOne(s: State, id: JobId, i: nat): State
    requires HasTask(s, id, i) && s.tasks[id][i].Writing? && s.tasks[id][i].counted < |s.tasks[id][i].outs|
  {
    var t := s.tasks[id][i];
    s.(redis := CountResult(s.redis, id, t.outs[t.counted].result.success),
       tasks := SetTask(s, id, i, t.(counted := t.counted + 1)))
  }

  function FinishedTask(s: State, id: JobId, i: nat): State
    requires HasTask(s, id, i) && s.tasks[id][i].Writing?
  {
    s.(tasks := SetTask(s, id, i, Done(s.tasks[id][i].verdict, s.tasks[id][i].outs)))
  }

  function Polled(s: State, r: int, id: JobId): State {
    if StatusOf(s.redis, id) == Some(Completed) then s.(readers := s.readers[r := SawCompleted(id)]) else s
  }

  function Read(s: State, r: int, id: JobId): State {
    s.(readers := s.readers[r := GotResults(id, ResultsOf(s.redis, id))])
  }

  ghost function Next(cfg: Config, s: State, step: Step): State
    requires Enabled(cfg, s, step)
  {
    match step
    case Admit(p, queries) => s.(submitters := s.submitters[p := Admitted(queries)])
    case CreateJobHash(p, id) => CreatedJob(s, p, id)
    case StoreJobQueries(p) => StoredQueries(s, p)
    case EnqueueJob(p) => EnqueuedJob(s, p)
    case CancelRead(k, id) => ReadForCancel(s, k, id)
    case CancelWrite(k) => WroteCancel(s, k)
    case Dequeue(c) => DequeuedNext(s, c)
    case CheckDequeued(c) => CheckedDequeued(s, c, s.coordinators[c].job)
    case MarkRunning(c) => MarkedRunning(s, c, s.coordinators[c].job)
    case SpawnTasks(c) => Spawned(s, c, s.coordinators[c].job)
    case FinalCheck(c) => CheckedFinally(s, c, s.coordinators[c].job)
    case MarkCompleted(c) => MarkedCompleted(s, c, s.coordinators[c].job)
    case RejectMode(id, i) => BegunWriting(s, id, i, NoStrategy)
    case RaiseOnMode(id, i) => EscapedTask(s, id, i)
    case CheckTask(id, i) => CheckedTask(s, id, i)
    case Execute(id, i, outcome) => BegunWriting(s, id, i, Ran(outcome))
    case WriteOne(id, i) => WroteOne(s, id, i)
    case CountOne(id, i) => CountedOne(s, id, i)
    case FinishTask(id, i) => FinishedTask(s, id, i)
    case PollStatus(r, id) => Polled(s, r, id)
    case ReadResults(r) => Read(s, r, s.readers[r].job)
    case Reply(r) => s.(readers := s.readers[r := Polling])
  }

  // ----- runs -----

  /** `states` are the states a run passes through, `steps` the steps between them. */
  ghost predicate IsRun(cfg: Config, states: seq<State>, steps: seq<Step>) {
    && |states| == |steps| + 1
    && Init(states[0])
    && forall n {:trigger steps[n]} :: 0 <= n < |steps| ==> IsStep(cfg, states[n], steps[n], states[n + 1])
  }

  ghost predicate IsStep(cfg: Config, s: State, step: Step, s': State) {
    Enabled(cfg, s, step) && s' == Next(cfg, s, step)
  }
}
