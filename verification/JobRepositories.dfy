/**
 The adapter's classes, each coroutine run on its own: JobRepository over the Redis keys,
 JobManager.submit, Coordinator.process_one, and sync_query's assembly of its answer.

 The methods compose the commands of module RedisJobs that module JobProtocol interleaves.
 */
module JobRepositories {

  import opened Prelude
  import opened RedisJobs
  import opened JobProtocol
  import opened JobInvariants
  import JobTheorems

  // ----- what a list of writes leaves behind -----

  /** write_result, for each write in turn. */
  function Applied(r: Redis, id: JobId, writes: seq<Write>): Redis {
    if writes == [] then r
    else
      var w := writes[|writes| - 1];
      CountResult(StoreResult(Applied(r, id, writes[..|writes| - 1]), id, w.name, w.result), id, w.result.success)
  }

  lemma {:induction false} AppliedAppend(r: Redis, id: JobId, a: seq<Write>, b: seq<Write>)
    ensures Applied(r, id, a + b) == Applied(Applied(r, id, a), id, b)
  {
    if b == [] {
      assert a + b == a;
    } else {
      assert (a + b)[..|a + b| - 1] == a + b[..|b| - 1];
      AppliedAppend(r, id, a, b[..|b| - 1]);
    }
  }

  /** Other jobs, the queue and this job's status are untouched. */
  lemma {:induction false} AppliedFrame(r: Redis, id: JobId, writes: seq<Write>)
    requires id in r.hashes && r.hashes[id].JobHash?
    ensures
      var r' := Applied(r, id, writes);
      && r'.pending == r.pending && r'.queries == r.queries && r'.hashes.Keys == r.hashes.Keys
      && r'.hashes[id].JobHash? && r'.hashes[id].status == r.hashes[id].status
      && r'.hashes[id].total == r.hashes[id].total
      && forall other :: other != id ==>
        StatusOf(r', other) == StatusOf(r, other) && ResultsOf(r', other) == ResultsOf(r, other)
  {
    if writes != [] {
      AppliedFrame(r, id, writes[..|writes| - 1]);
    }
  }

  /** Each write is counted once: a success among the completed, any other among the failed. */
  lemma {:induction false} AppliedCounts(r: Redis, id: JobId, writes: seq<Write>)
    requires id in r.hashes && r.hashes[id].JobHash?
    ensures
      var h := Applied(r, id, writes).hashes;
      && id in h && h[id].JobHash?
      && h[id].completed == r.hashes[id].completed + Successes(writes, |writes|)
      && h[id].failed == r.hashes[id].failed + Failures(writes, |writes|)
      && Successes(writes, |writes|) + Failures(writes, |writes|) == |writes|
  {
    if writes != [] {
      var n := |writes| - 1;
      AppliedCounts(r, id, writes[..n]);
      CountsOfPrefix(writes[..n], writes, n);
      SuccessesAndFailures(writes, |writes|);
    }
  }

  lemma {:induction false} CountsOfPrefix(a: seq<Write>, b: seq<Write>, n: nat)
    requires n <= |a| && n <= |b| && forall k :: 0 <= k < n ==> a[k] == b[k]
    ensures Successes(a, n) == Successes(b, n) && Failures(a, n) == Failures(b, n)
  {
    if n > 0 {
      CountsOfPrefix(a, b, n - 1);
    }
  }

  /** The last write of a name is the one that stays. */
  lemma {:induction false} LastWriteWins(r: Redis, id: JobId, writes: seq<Write>, k: nat)
    requires k < |writes| && forall m :: k < m < |writes| ==> writes[m].name != writes[k].name
    ensures
      var results := ResultsOf(Applied(r, id, writes), id);
      writes[k].name in results && results[writes[k].name] == writes[k].result
  {
    if k < |writes| - 1 {
      LastWriteWins(r, id, writes[..|writes| - 1], k);
    }
  }

  /** A name never written keeps what it had. */
  lemma {:induction false} UnwrittenStays(r: Redis, id: JobId, writes: seq<Write>, name: string)
    requires forall k :: 0 <= k < |writes| ==> writes[k].name != name
    ensures
      var before, after := ResultsOf(r, id), ResultsOf(Applied(r, id, writes), id);
      (name in after <==> name in before) && (name in before ==> after[name] == before[name])
  {
    if writes != [] {
      UnwrittenStays(r, id, writes[..|writes| - 1], name);
    }
  }

  /** The effect of write_result, told by its parts. */
  ghost predicate IsWritten(r: Redis, r': Redis, id: JobId, w: Write) {
    && r'.results == r.results[id := ResultsOf(r, id)[w.name := w.result]]
    && r'.queries == r.queries && r'.pending == r.pending && r'.hashes.Keys == r.hashes.Keys
    && (forall other :: other in r'.hashes && other != id ==> r'.hashes[other] == r.hashes[other])
    && (id in r'.hashes && r.hashes[id].JobHash? ==>
          && r'.hashes[id].JobHash? && r'.hashes[id].status == r.hashes[id].status
          && r'.hashes[id].total == r.hashes[id].total
          && r'.hashes[id].completed == r.hashes[id].completed + (if w.result.success then 1 else 0)
          && r'.hashes[id].failed == r.hashes[id].failed + (if w.result.success then 0 else 1))
    && (id in r'.hashes && r.hashes[id].StatusOnly? ==> r'.hashes[id] == r.hashes[id])
  }

  /** The parts are the whole. */
  lemma WriteIsApplied(r: Redis, r': Redis, id: JobId, w: Write)
    requires IsWritten(r, r', id, w)
    ensures r' == CountResult(StoreResult(r, id, w.name, w.result), id, w.result.success)
  {
    var stored := StoreResult(r, id, w.name, w.result);
    var counted := CountResult(stored, id, w.result.success);
    assert counted.hashes.Keys == r'.hashes.Keys;
    forall k | k in counted.hashes ensures counted.hashes[k] == r'.hashes[k] {
      if k == id && r.hashes[id].JobHash? {
        var h := r.hashes[id];
        assert counted.hashes[id]
          == if w.result.success then h.(completed := h.completed + 1) else h.(failed := h.failed + 1);
      }
    }
    assert counted.hashes == r'.hashes;
  }

  // ----- the repository -----

  class JobRepository {
    var redis: Redis

    constructor ()
      ensures redis == EMPTY_REDIS
    {
      redis := EMPTY_REDIS;
    }

    method CreateJob(id: JobId, queries: seq<Query>)
      modifies this
      ensures redis.hashes == old(redis).hashes[id := JobHash(Queued, |queries|, 0, 0)]
      ensures StatusOf(redis, id) == Some(Queued) && QueriesOf(redis, id) == queries
      ensures redis.queries == old(redis).queries[id := queries]
      ensures redis.results == old(redis).results && redis.pending == old(redis).pending
    {
      redis := CreateHash(redis, id, |queries|);
      redis := StoreQueries(redis, id, queries);
    }

    method MarkRunning(id: JobId)
      modifies this
      ensures redis == SetStatus(old(redis), id, Running)
    {
      redis := SetStatus(redis, id, Running);
    }

    method MarkCompleted(id: JobId)
      modifies this
      ensures redis == SetStatus(old(redis), id, Completed)
    {
      redis := SetStatus(redis, id, Completed);
    }

    method WriteResult(id: JobId, write: Write)
      modifies this
      ensures IsWritten(old(redis), redis, id, write)
    {
      redis := StoreResult(redis, id, write.name, write.result);
      redis := CountResult(redis, id, write.result.success);
    }

    /** Returns false, and changes nothing, exactly when the job is in a terminal state. */
    method Cancel(id: JobId) returns (cancelled: bool)
      modifies this
      ensures cancelled <==> !(id in old(redis).hashes && IsTerminal(old(redis).hashes[id].status))
      ensures redis == if cancelled then SetStatus(old(redis), id, Cancelled) else old(redis)
      ensures cancelled ==> StatusOf(redis, id) == Some(Cancelled)
    {
      var status := StatusOf(redis, id);
      if status.Some? && IsTerminal(status.value) {
        return false;
      }
      redis := SetStatus(redis, id, Cancelled);
      return true;
    }

    method Enqueue(id: JobId)
      modifies this
      ensures redis == old(redis).(pending := old(redis).pending + [id])
    {
      redis := RedisJobs.Enqueue(redis, id);
    }

    method Dequeue() returns (id: Option<JobId>)
      modifies this
      ensures old(redis).pending == [] ==> id == None && redis == old(redis)
      ensures old(redis).pending != [] ==>
                && id.Some? && old(redis).pending == [id.value] + redis.pending
                && redis == old(redis).(pending := redis.pending)
    {
      if redis.pending == [] {
        return None;
      }
      id := Some(redis.pending[0]);
      redis := redis.(pending := redis.pending[1..]);
    }
  }

  class JobManager {
    const repo: JobRepository
    const maxDepth: nat

    constructor (repo: JobRepository, maxDepth: nat)
      ensures this.repo == repo && this.maxDepth == maxDepth
    {
      this.repo := repo;
      this.maxDepth := maxDepth;
    }

    /** None is QueueFullError. `id` is the uuid that create_job draws. */
    method Submit(id: JobId, queries: seq<Query>) returns (job: Option<JobId>)
      requires id !in repo.redis.hashes
      modifies repo
      ensures job == if |old(repo.redis).pending| >= maxDepth then None else Some(id)
      ensures job.None? ==> repo.redis == old(repo.redis)
      ensures job.Some? ==>
                && repo.redis.pending == old(repo.redis).pending + [id]
                && repo.redis.hashes == old(repo.redis).hashes[id := JobHash(Queued, |queries|, 0, 0)]
                && repo.redis.queries == old(repo.redis).queries[id := queries]
                && repo.redis.results == old(repo.redis).results
    {
      if |repo.redis.pending| >= maxDepth {
        return None;
      }
      repo.CreateJob(id, queries);
      repo.Enqueue(id);
      return Some(id);
    }
  }

  // ----- the coordinator -----

  /** What one query writes when its job is not cancelled: nothing if its mode cannot be looked up. */
  function QueryWrites(supported: set<string>, query: Query, outcome: Outcome): seq<Write> {
    if !IsHashable(query) then []
    else Outputs(query, if IsSupported(supported, query) then Ran(outcome) else NoStrategy)
  }

  /** What each query of a job writes, one query after the other. */
  function AllOutputs(supported: set<string>, queries: seq<Query>, outcomes: seq<Outcome>): seq<Write>
    requires |outcomes| == |queries|
  {
    if queries == [] then []
    else
      var n := |queries| - 1;
      AllOutputs(supported, queries[..n], outcomes[..n]) + QueryWrites(supported, queries[n], outcomes[n])
  }

  class JobCoordinator {
    const repo: JobRepository
    const supported: set<string>

    constructor (repo: JobRepository, supported: set<string>)
      ensures this.repo == repo && this.supported == supported
    {
      this.repo := repo;
      this.supported := supported;
    }

    /** One query task; `outcome` is what its strategy would do, `escaped` an exception that leaves the task. */
    method RunQuery(id: JobId, query: Query, outcome: Outcome) returns (escaped: bool)
      modifies repo
      ensures escaped <==> !IsHashable(query)
      ensures repo.redis ==
                if IsSupported(supported, query) && StatusOf(old(repo.redis), id) == Some(Cancelled)
                  then old(repo.redis)
                else Applied(old(repo.redis), id, QueryWrites(supported, query, outcome))
    {
      if query.mode.Unhashable? {
        return true;
      }
      var verdict := NoStrategy;
      if IsSupported(supported, query) {
        if StatusOf(repo.redis, id) == Some(Cancelled) {
          return false;
        }
        verdict := Ran(outcome);
      }
      var outs := Outputs(query, verdict);
      ghost var before := repo.redis;
      for k := 0 to |outs|
        invariant repo.redis == Applied(before, id, outs[..k])
      {
        assert outs[..k + 1][..k] == outs[..k];
        ghost var r := repo.redis;
        repo.WriteResult(id, outs[k]);
        WriteIsApplied(r, repo.redis, id, outs[k]);
      }
      assert outs[..|outs|] == outs;
      return false;
    }

    /** The gathered tasks, run in the order of the mapping. */
    method RunQueries(id: JobId, queries: seq<Query>, outs: seq<Outcome>)
      requires |outs| == |queries| && id in repo.redis.hashes && repo.redis.hashes[id].JobHash?
        && repo.redis.hashes[id].status == Running
      modifies repo
      ensures repo.redis == Applied(old(repo.redis), id, AllOutputs(supported, queries, outs))
    {
      ghost var running := repo.redis;
      for n := 0 to |queries|
        invariant repo.redis == Applied(running, id, AllOutputs(supported, queries[..n], outs[..n]))
      {
        ghost var done := AllOutputs(supported, queries[..n], outs[..n]);
        AppliedFrame(running, id, done);
        AppliedAppend(running, id, done, QueryWrites(supported, queries[n], outs[n]));
        assert queries[..n + 1][..n] == queries[..n] && outs[..n + 1][..n] == outs[..n];
        var _ := RunQuery(id, queries[n], outs[n]);
      }
      assert queries[..|queries|] == queries && outs[..|queries|] == outs;
    }

    /** process_one with nothing else running. */
    method ProcessOne(outcomes: map<string, Outcome>) returns (processed: bool)
      requires forall k :: 0 <= k < |repo.redis.pending| ==> IsRunnable(repo.redis, repo.redis.pending[k], outcomes)
      modifies repo
      ensures processed <==> old(repo.redis).pending != []
      ensures !processed ==> repo.redis == old(repo.redis)
      ensures processed ==>
                var id, popped := old(repo.redis).pending[0], old(repo.redis).(pending := old(repo.redis).pending[1..]);
                var queries := QueriesOf(popped, id);
                && IsRunnable(old(repo.redis), id, outcomes)
                && repo.redis ==
                  if id !in popped.hashes || popped.hashes[id].status == Cancelled then popped
                  else Processed(popped, id, AllOutputs(supported, queries, OutcomesFor(queries, outcomes)))
    {
      var popped := repo.Dequeue();
      if popped.None? {
        return false;
      }
      var id := popped.value;
      assert old(repo.redis).pending[0] == id && old(repo.redis).pending[1..] == repo.redis.pending;
      assert IsRunnable(old(repo.redis), id, outcomes);
      var status := StatusOf(repo.redis, id);
      if status.None? || status.value == Cancelled {
        return true;
      }
      repo.MarkRunning(id);
      var queries := QueriesOf(repo.redis, id);
      var outs := OutcomesFor(queries, outcomes);
      AppliedFrame(repo.redis, id, AllOutputs(supported, queries, outs));
      RunQueries(id, queries, outs);
      if StatusOf(repo.redis, id) != Some(Cancelled) {
        repo.MarkCompleted(id);
      }
      return true;
    }
  }

  /** A job made by create_job, and an outcome for each of its strategies. */
  predicate IsRunnable(r: Redis, id: JobId, outcomes: map<string, Outcome>) {
    && (id in r.hashes ==> r.hashes[id].JobHash?)
    && (forall q :: q in QueriesOf(r, id) ==> q.name in outcomes)
  }

  function OutcomesFor(queries: seq<Query>, outcomes: map<string, Outcome>): seq<Outcome>
    requires forall q :: q in queries ==> q.name in outcomes
  {
    seq(|queries|, i requires 0 <= i < |queries| => assert queries[i] in queries; outcomes[queries[i].name])
  }

  /** Marked running, written to, marked completed. */
  function Processed(r: Redis, id: JobId, writes: seq<Write>): Redis {
    SetStatus(Applied(SetStatus(r, id, Running), id, writes), id, Completed)
  }

  lemma {:induction false} OutputIsAmongAll(supported: set<string>, queries: seq<Query>, outcomes: seq<Outcome>,
      i: nat, w: Write)
    requires |outcomes| == |queries| && i < |queries|
    requires w in QueryWrites(supported, queries[i], outcomes[i])
    ensures w in AllOutputs(supported, queries, outcomes)
  {
    if i < |queries| - 1 {
      OutputIsAmongAll(supported, queries[..|queries| - 1], outcomes[..|queries| - 1], i, w);
    }
  }

  lemma {:induction false} WrittenNameIsStored(r: Redis, id: JobId, writes: seq<Write>, w: Write)
    requires w in writes
    ensures w.name in ResultsOf(Applied(r, id, writes), id)
  {
    var n := |writes| - 1;
    if w != writes[n] {
      assert w in writes[..n];
      WrittenNameIsStored(r, id, writes[..n], w);
    }
  }

  /** A job processed without interruption ends completed and fully counted; others are untouched. */
  lemma ProcessedJobIsComplete(r: Redis, id: JobId, writes: seq<Write>)
    requires id in r.hashes && r.hashes[id].JobHash?
    ensures
      var r' := Processed(r, id, writes);
      && id in r'.hashes && r'.hashes[id].JobHash? && r'.hashes[id].status == Completed
      && r'.hashes[id].completed + r'.hashes[id].failed == r.hashes[id].completed + r.hashes[id].failed + |writes|
      && r'.pending == r.pending
      && (forall other :: other != id ==>
        StatusOf(r', other) == StatusOf(r, other) && ResultsOf(r', other) == ResultsOf(r, other))
  {
    AppliedFrame(SetStatus(r, id, Running), id, writes);
    AppliedCounts(SetStatus(r, id, Running), id, writes);
    var running := SetStatus(r, id, Running);
    forall other | other != id
      ensures StatusOf(Processed(r, id, writes), other) == StatusOf(r, other)
      ensures ResultsOf(Processed(r, id, writes), other) == ResultsOf(r, other)
    {
      assert StatusOf(running, other) == StatusOf(r, other) && ResultsOf(running, other) == ResultsOf(r, other);
    }
  }

  /** ... and has a result under the name of every output of every query. */
  lemma ProcessedJobHasResults(r: Redis, id: JobId, supported: set<string>, queries: seq<Query>,
      outcomes: seq<Outcome>, i: nat, w: Write)
    requires |outcomes| == |queries| && i < |queries|
    requires w in QueryWrites(supported, queries[i], outcomes[i])
    ensures w.name in ResultsOf(Processed(r, id, AllOutputs(supported, queries, outcomes)), id)
  {
    OutputIsAmongAll(supported, queries, outcomes, i, w);
    WrittenNameIsStored(SetStatus(r, id, Running), id, AllOutputs(supported, queries, outcomes), w);
  }

  // ----- sync_query's answer -----

  /** Every listed result is a key of `values`; the failed ones have null there, and their message in `errors`. */
  ghost predicate IsAnswer(listed: seq<(string, Result)>, values: map<string, Reading>, errors: map<string, string>) {
    && (forall name :: name in values <==> exists i :: 0 <= i < |listed| && listed[i].0 == name)
    && errors.Keys <= values.Keys
    && forall i :: 0 <= i < |listed| ==>
         var (name, result) := listed[i];
         && name in values
         && (name in errors <==> !result.success)
         && values[name] == (if result.success then result.value else Missing)
         && (name in errors ==> errors[name] == result.message)
  }

  /** The order in which Redis happens to list the result hash. */
  ghost predicate IsListing(listed: seq<(string, Result)>, results: map<string, Result>) {
    && (forall i :: 0 <= i < |listed| ==> listed[i].0 in results && results[listed[i].0] == listed[i].1)
    && (forall name :: name in results ==> exists i :: 0 <= i < |listed| && listed[i].0 == name)
  }

  /** The answer holds every stored result, and names the failed ones as errors. */
  lemma AnswerHoldsResults(listed: seq<(string, Result)>, results: map<string, Result>, values: map<string, Reading>,
      errors: map<string, string>)
    requires IsListing(listed, results) && IsAnswer(listed, values, errors)
    ensures values.Keys == results.Keys
    ensures forall name :: name in results ==>
              && values[name] == (if results[name].success then results[name].value else Missing)
              && (name in errors <==> !results[name].success)
              && (name in errors ==> errors[name] == results[name].message)
  {
    forall name | name in results
      ensures name in values && (name in errors <==> !results[name].success)
      ensures values[name] == (if results[name].success then results[name].value else Missing)
      ensures name in errors ==> errors[name] == results[name].message
    {
      var i :| 0 <= i < |listed| && listed[i].0 == name;
    }
    forall name | name in values ensures name in results {
      var i :| 0 <= i < |listed| && listed[i].0 == name;
    }
  }

  /**
   What a reader that saw 'completed' replies: each output of each query whose mode can be looked up is a
   key of `values`, every key was written by some query, and `errors` names exactly the failures.
   */
  lemma ReaderIsAnswered(cfg: Config, states: seq<State>, steps: seq<Step>, n: nat, r: int,
      listed: seq<(string, Result)>, values: map<string, Reading>, errors: map<string, string>)
    requires IsRun(cfg, states, steps) && n < |states|
    requires r in states[n].readers && states[n].readers[r].GotResults?
    requires IsListing(listed, states[n].readers[r].results) && IsAnswer(listed, values, errors)
    ensures
      var s, got := states[n], states[n].readers[r];
      && got.job in s.history && got.job in s.tasks
      && AnswersQueries(cfg, s.history[got.job].queries, s.tasks[got.job], values, errors)
  {
    JobTheorems.ReaderGetsEverything(cfg, states, steps, n, r);
    AnswerHoldsResults(listed, states[n].readers[r].results, values, errors);
    var s, got := states[n], states[n].readers[r];
    ResultsAnswerQueries(cfg, s.history[got.job].queries, s.tasks[got.job], got.results, values, errors);
  }

  ghost predicate AnswersQueries(cfg: Config, queries: seq<Query>, ts: seq<Task>, values: map<string, Reading>,
                                 errors: map<string, string>) {
    && |ts| == |queries|
    && (forall i :: 0 <= i < |queries| && IsHashable(queries[i]) ==> AnswersQuery(cfg, queries[i], ts[i], values))
    && (forall name :: name in values ==> exists result: Result :: IsReply(ts, name, result, values, errors))
    && errors.Keys <= values.Keys
  }

  /** The query ran to its end, with its strategy if its mode has one, and each of its outputs has a value. */
  ghost predicate AnswersQuery(cfg: Config, q: Query, t: Task, values: map<string, Reading>) {
    && t.Done? && t.outs == Outputs(q, t.verdict)
    && (t.verdict == NoStrategy <==> !IsSupported(cfg.supported, q))
    && forall k :: 0 <= k < |t.outs| ==> t.outs[k].name in values
  }

  /** A query wrote this result under this name, and the reply shows it: its value, or null and its message. */
  ghost predicate IsReply(ts: seq<Task>, name: string, result: Result, values: map<string, Reading>,
                          errors: map<string, string>) {
    && Written(ts, name, result) && name in values
    && values[name] == (if result.success then result.value else Missing)
    && (name in errors <==> !result.success)
    && (name in errors ==> errors[name] == result.message)
  }

  lemma ResultsAnswerQueries(cfg: Config, queries: seq<Query>, ts: seq<Task>, results: map<string, Result>,
      values: map<string, Reading>, errors: map<string, string>)
    requires JobTheorems.HoldsResults(cfg, queries, ts, results) && values.Keys == results.Keys
    requires errors.Keys <= values.Keys
    requires forall name :: name in results ==>
               && values[name] == (if results[name].success then results[name].value else Missing)
               && (name in errors <==> !results[name].success)
               && (name in errors ==> errors[name] == results[name].message)
    ensures AnswersQueries(cfg, queries, ts, values, errors)
  {
    forall i | 0 <= i < |queries| && IsHashable(queries[i]) ensures AnswersQuery(cfg, queries[i], ts[i], values) {
      assert JobTheorems.IsAnswered(cfg, queries[i], ts[i], results);
    }
    forall name | name in values ensures exists result: Result :: IsReply(ts, name, result, values, errors) {
      assert IsReply(ts, name, results[name], values, errors);
    }
  }

  /** The values and errors of a finished job, from the result hash in the order Redis lists it. */
  method AssembleAnswer(listed: seq<(string, Result)>)
    returns (values: map<string, Reading>, errors: map<string, string>)
    requires forall i, j :: 0 <= i < j < |listed| ==> listed[i].0 != listed[j].0
    ensures IsAnswer(listed, values, errors)
  {
    values, errors := map[], map[];
    for n := 0 to |listed|
      invariant forall name :: name in values <==> exists i :: 0 <= i < n && listed[i].0 == name
      invariant errors.Keys <= values.Keys
      invariant forall i :: 0 <= i < n ==>
                  && listed[i].0 in values
                  && (listed[i].0 in errors <==> !listed[i].1.success)
                  && values[listed[i].0] == (if listed[i].1.success then listed[i].1.value else Missing)
                  && (listed[i].0 in errors ==> errors[listed[i].0] == listed[i].1.message)
    {
      var (name, result) := listed[n];
      if result.success {
        values := values[name := result.value];
      } else {
        values := values[name := Missing];
        errors := errors[name := result.message];
      }
    }
  }
}
