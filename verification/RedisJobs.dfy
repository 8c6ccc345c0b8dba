/**
 The Redis keys behind the Prometheus adapter's job queue, and the repository over them.

 Every function in the first half is ONE Redis command: the unit that the interleavings of
 module JobProtocol cannot split. A repository method that awaits several commands is their
 composition when nothing else runs in between.
 */
module RedisJobs {

  import opened Prelude

  type JobId = int

  datatype Status = Queued | Running | Completed | TimedOut | Cancelled

  /** A query result's value: a float, or the JSON null of a failed query. */
  datatype Reading = Missing | Value(number: real)

  datatype Result = Result(value: Reading, success: bool, message: string, query: string)

  /**
   A query specification's mode: any JSON value is accepted. A text can be looked up among the strategies,
   another scalar can be looked up in vain, and a list or an object cannot be looked up: it has no hash.
   */
  datatype Mode = Text(name: string) | Scalar(shown: string) | Unhashable

  /** One entry of a job's query mapping: its SLI name, its mode and its PromQL text. */
  datatype Query = Query(name: string, mode: Mode, text: string)

  predicate IsHashable(q: Query) {
    !q.mode.Unhashable?
  }

  predicate IsSupported(supported: set<string>, q: Query) {
    q.mode.Text? && q.mode.name in supported
  }

  /** The job hash. `cancel` on an id nobody created leaves a hash that holds a status alone. */
  datatype JobHash =
    | JobHash(status: Status, total: nat, completed: nat, failed: nat)
    | StatusOnly(status: Status)

  datatype Redis = Redis(
    hashes: map<JobId, JobHash>,
    queries: map<JobId, seq<Query>>,
    results: map<JobId, map<string, Result>>,
    pending: seq<JobId>)

  const EMPTY_REDIS := Redis(map[], map[], map[], [])

  // ----- one function per Redis command -----

  function CreateHash(r: Redis, id: JobId, total: nat): Redis {
    r.(hashes := r.hashes[id := JobHash(Queued, total, 0, 0)])
  }

  function StoreQueries(r: Redis, id: JobId, queries: seq<Query>): Redis {
    r.(queries := r.queries[id := queries])
  }

  function StatusOf(r: Redis, id: JobId): Option<Status> {
    if id in r.hashes then Some(r.hashes[id].status) else None
  }

  /** HSET of the status field alone: creates the hash when it is absent. */
  function SetStatus(r: Redis, id: JobId, status: Status): Redis {
    r.(hashes := r.hashes[id := if id in r.hashes then r.hashes[id].(status := status) else StatusOnly(status)])
  }

  function QueriesOf(r: Redis, id: JobId): seq<Query> {
    if id in r.queries then r.queries[id] else []
  }

  function ResultsOf(r: Redis, id: JobId): map<string, Result> {
    if id in r.results then r.results[id] else map[]
  }

  function StoreResult(r: Redis, id: JobId, name: string, result: Result): Redis {
    r.(results := r.results[id := ResultsOf(r, id)[name := result]])
  }

  /** HINCRBY of one counter. Tasks exist for created jobs only, whose hash is complete. */
  function CountResult(r: Redis, id: JobId, success: bool): Redis {
    if id in r.hashes && r.hashes[id].JobHash? then
      var h := r.hashes[id];
      r.(hashes := r.hashes[id := if success then h.(completed := h.completed + 1) else h.(failed := h.failed + 1)])
    else r
  }

  function Enqueue(r: Redis, id: JobId): Redis {
    r.(pending := r.pending + [id])
  }

  predicate IsTerminal(status: Status) {
    status == Completed || status == TimedOut || status == Cancelled
  }
}
