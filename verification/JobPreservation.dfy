/** Every step of the job protocol keeps the invariant. */
module JobPreservation {

  import opened Prelude
  import opened RedisJobs
  import opened JobProtocol
  import opened JobInvariants

  lemma InitEstablishes(cfg: Config, s: State)
    requires Init(s)
    ensures Inv(cfg, s)
  {}

  // ----- framing -----

  /** A step that changes no view but `id`'s need only re-establish that one. */
  lemma JobsFrame(cfg: Config, s: State, s': State, id: JobId)
    requires JobsOk(cfg, s)
    requires forall j :: j in s'.history && j != id ==> j in s.history && ViewOf(s', j) == ViewOf(s, j)
    requires id in s'.history ==> JobOk(cfg, ViewOf(s', id))
    ensures JobsOk(cfg, s')
  {
    forall j | j in s'.history ensures JobOk(cfg, ViewOf(s', j)) {
      if j != id { assert JobOk(cfg, ViewOf(s, j)); }
    }
  }

  ghost predicate SameJobs(s: State, s': State) {
    && s'.history == s.history && s'.tasks == s.tasks && s'.submitters == s.submitters
    && s'.coordinators == s.coordinators && s'.redis == s.redis
  }

  lemma SameJobsKeep(cfg: Config, s: State, s': State)
    requires PlacesOk(s) && JobsOk(cfg, s) && SameJobs(s, s')
    ensures PlacesOk(s') && JobsOk(cfg, s')
  {
    assert forall p, id :: Holds(s', p, id) <==> Holds(s, p, id);
    assert forall c, id :: Works(s', c, id) <==> Works(s, c, id);
    forall id | id in s'.history ensures Placed(s', id) { assert Placed(s, id); }
    forall j | j in s'.history ensures ViewOf(s', j) == ViewOf(s, j) {}
    JobsFrame(cfg, s, s', 0) by {
      if 0 in s'.history { assert JobOk(cfg, ViewOf(s, 0)); }
    }
  }

  /** What a reader has seen stays true of a settled job that the step leaves as it is. */
  lemma ReadersFrame(s: State, s': State)
    requires ReadersOk(s) && s'.readers == s.readers
    requires forall j :: Settled(s, j) ==> Settled(s', j) && ResultsOf(s'.redis, j) == ResultsOf(s.redis, j)
    ensures ReadersOk(s')
  {
    forall r | r in s'.readers ensures ReaderOk(s', s'.readers[r]) { assert ReaderOk(s, s.readers[r]); }
  }

  /** A cancel is consistent with every phase a job can be in. */
  lemma CancelledViewOk(cfg: Config, v: View)
    requires JobOk(cfg, v)
    ensures JobOk(cfg, v.(hash := Some(v.hash.value.(status := Cancelled))))
  {}

  // ----- submitters -----

  lemma AdmitKeeps(cfg: Config, s: State, step: Step)
    requires Inv(cfg, s) && Enabled(cfg, s, step) && step.Admit?
    ensures Inv(cfg, Next(cfg, s, step))
  {
    var s' := Next(cfg, s, step);
    var p := step.p;
    assert forall q, id :: Holds(s', q, id) <==> Holds(s, q, id);
    assert forall c, id :: Works(s', c, id) <==> Works(s, c, id);
    forall id | id in s'.history ensures Placed(s', id) && ViewOf(s', id) == ViewOf(s, id) { assert Placed(s, id); }
    JobsFrame(cfg, s, s', p) by {
      if p in s'.history { assert JobOk(cfg, ViewOf(s, p)); }
    }
  }

  lemma CreatePlaces(s: State, p: int, id: JobId)
    requires PlacesOk(s) && p in s.submitters && s.submitters[p].Admitted? && id !in s.redis.hashes && id !in s.history
    ensures PlacesOk(CreatedJob(s, p, id))
  {
    var s' := CreatedJob(s, p, id);
    assert forall q, j :: Holds(s', q, j) ==> (q == p && j == id) || (q != p && Holds(s, q, j));
    assert forall c, j :: Works(s', c, j) <==> Works(s, c, j);
    assert Holds(s', p, id);
    forall j | j in s'.history && j != id ensures Placed(s', j) { assert Placed(s, j); }
  }

  lemma CreateJobs(cfg: Config, s: State, p: int, id: JobId)
    requires PlacesOk(s) && JobsOk(cfg, s) && p in s.submitters && s.submitters[p].Admitted?
    requires id !in s.redis.hashes && id !in s.history
    ensures JobsOk(cfg, CreatedJob(s, p, id))
  {
    var s' := CreatedJob(s, p, id);
    forall j | j in s'.history && j != id ensures ViewOf(s', j) == ViewOf(s, j) { assert Placed(s, j); }
    assert id !in s.tasks && id !in s.redis.results;
    JobsFrame(cfg, s, s', id);
  }

  lemma CreateKeeps(cfg: Config, s: State, p: int, id: JobId)
    requires Inv(cfg, s) && p in s.submitters && s.submitters[p].Admitted? && id !in s.redis.hashes && id !in s.history
    ensures Inv(cfg, CreatedJob(s, p, id))
  {
    CreatePlaces(s, p, id);
    CreateJobs(cfg, s, p, id);
    ReadersFrame(s, CreatedJob(s, p, id));
  }

  lemma StoreQueriesKeeps(cfg: Config, s: State, p: int)
    requires Inv(cfg, s) && p in s.submitters && s.submitters[p].HashCreated?
    ensures Inv(cfg, StoredQueries(s, p))
  {
    var s' := StoredQueries(s, p);
    var id := s.submitters[p].job;
    assert Holds(s, p, id);
    assert forall q, j :: Holds(s', q, j) <==> Holds(s, q, j);
    assert forall c, j :: Works(s', c, j) <==> Works(s, c, j);
    forall j | j in s'.history
      ensures Placed(s', j) && (j != id ==> ViewOf(s', j) == ViewOf(s, j))
    {
      assert Placed(s, j);
    }
    JobsFrame(cfg, s, s', id) by { assert JobOk(cfg, ViewOf(s, id)); }
  }

  lemma EnqueuePlaces(s: State, p: int)
    requires PlacesOk(s) && p in s.submitters && s.submitters[p].JobStored?
    ensures PlacesOk(EnqueuedJob(s, p))
  {
    var s' := EnqueuedJob(s, p);
    var id := s.submitters[p].job;
    assert Holds(s, p, id);
    assert forall q, j :: Holds(s', q, j) ==> q != p && Holds(s, q, j);
    assert forall c, j :: Works(s', c, j) <==> Works(s, c, j);
    assert s'.redis.pending[|s.redis.pending|] == id;
    assert id !in s.redis.pending;
    forall j | j in s'.history ensures Placed(s', j) { assert Placed(s, j); }
  }

  lemma EnqueueJobs(cfg: Config, s: State, p: int)
    requires PlacesOk(s) && JobsOk(cfg, s) && p in s.submitters && s.submitters[p].JobStored?
    ensures JobsOk(cfg, EnqueuedJob(s, p))
  {
    var s' := EnqueuedJob(s, p);
    var id := s.submitters[p].job;
    assert Holds(s, p, id) && JobOk(cfg, ViewOf(s, id));
    forall j | j in s'.history && j != id ensures ViewOf(s', j) == ViewOf(s, j) { assert Placed(s, j); }
    JobsFrame(cfg, s, s', id);
  }

  lemma EnqueueKeeps(cfg: Config, s: State, p: int)
    requires Inv(cfg, s) && p in s.submitters && s.submitters[p].JobStored?
    ensures Inv(cfg, EnqueuedJob(s, p))
  {
    var s' := EnqueuedJob(s, p);
    EnqueuePlaces(s, p);
    EnqueueJobs(cfg, s, p);
    ReadersFrame(s, s');
  }

  // ----- cancellers and readers -----

  lemma CancelReadKeeps(cfg: Config, s: State, k: int, id: JobId)
    requires Inv(cfg, s)
    ensures Inv(cfg, ReadForCancel(s, k, id))
  {
    SameJobsKeep(cfg, s, ReadForCancel(s, k, id));
    ReadersFrame(s, ReadForCancel(s, k, id));
  }

  lemma CancelWriteKeeps(cfg: Config, s: State, k: int)
    requires Inv(cfg, s) && k in s.cancellers && s.cancellers[k].CancelDue?
    ensures Inv(cfg, WroteCancel(s, k))
  {
    CancelWritePlaces(cfg, s, k);
    CancelWriteJobs(cfg, s, k);
    ReadersFrame(s, WroteCancel(s, k));
  }

  lemma CancelWritePlaces(cfg: Config, s: State, k: int)
    requires Inv(cfg, s) && k in s.cancellers && s.cancellers[k].CancelDue?
    ensures PlacesOk(WroteCancel(s, k))
  {
    var s' := WroteCancel(s, k);
    assert forall q, j :: Holds(s', q, j) <==> Holds(s, q, j);
    assert forall c, j :: Works(s', c, j) <==> Works(s, c, j);
    forall j | j in s'.history ensures Placed(s', j) { assert Placed(s, j); }
  }

  lemma CancelWriteJobs(cfg: Config, s: State, k: int)
    requires Inv(cfg, s) && k in s.cancellers && s.cancellers[k].CancelDue?
    ensures JobsOk(cfg, WroteCancel(s, k))
  {
    var s' := WroteCancel(s, k);
    var id := s.cancellers[k].job;
    CancelViews(s, k);
    if id in s.history {
      assert JobOk(cfg, ViewOf(s, id));
      CancelledViewOk(cfg, ViewOf(s, id));
    }
    JobsFrame(cfg, s, s', id);
  }

  lemma CancelViews(s: State, k: int)
    requires k in s.cancellers && s.cancellers[k].CancelDue?
    ensures
      var s', id := WroteCancel(s, k), s.cancellers[k].job;
      && s'.history == s.history
      && (forall j :: j in s.history && j != id ==> ViewOf(s', j) == ViewOf(s, j))
      && (id in s.history && id in s.redis.hashes ==>
            var v := ViewOf(s, id);
            ViewOf(s', id) == v.(hash := Some(v.hash.value.(status := Cancelled))))
  {}

  function WithReader(s: State, r: int, reader: Reader): State {
    s.(readers := s.readers[r := reader])
  }

  /** A reader may move on to whatever is true. */
  lemma ReaderFrame(cfg: Config, s: State, r: int, reader: Reader)
    requires Inv(cfg, s) && ReaderOk(s, reader)
    ensures Inv(cfg, WithReader(s, r, reader))
  {
    var s' := WithReader(s, r, reader);
    SameJobsKeep(cfg, s, s');
    forall q | q in s'.readers ensures ReaderOk(s', s'.readers[q]) {
      assert q != r ==> ReaderOk(s, s.readers[q]);
    }
  }

  lemma CompletedIsSettled(cfg: Config, s: State, id: JobId)
    requires Inv(cfg, s) && StatusOf(s.redis, id) == Some(Completed)
    ensures Settled(s, id)
  {
    assert id in s.history;
    assert JobOk(cfg, ViewOf(s, id)) && Placed(s, id);
  }

  lemma PollStatusKeeps(cfg: Config, s: State, r: int, id: JobId)
    requires Inv(cfg, s)
    ensures Inv(cfg, Polled(s, r, id))
  {
    if StatusOf(s.redis, id) == Some(Completed) {
      CompletedIsSettled(cfg, s, id);
      ReaderFrame(cfg, s, r, SawCompleted(id));
    }
  }

  lemma ReadResultsKeeps(cfg: Config, s: State, r: int)
    requires Inv(cfg, s) && r in s.readers && s.readers[r].SawCompleted?
    ensures Inv(cfg, Read(s, r, s.readers[r].job))
  {
    var id := s.readers[r].job;
    assert ReaderOk(s, s.readers[r]);
    ReaderFrame(cfg, s, r, GotResults(id, ResultsOf(s.redis, id)));
  }

  // ----- coordinators -----

  lemma DequeuePlaces(s: State, c: int)
    requires PlacesOk(s) && c in s.coordinators && s.coordinators[c].Idle?
    ensures PlacesOk(DequeuedNext(s, c))
  {
    var s' := DequeuedNext(s, c);
    if s.redis.pending == [] { return; }
    var id := s.redis.pending[0];
    assert id in s.redis.pending;
    assert forall q, j :: Holds(s', q, j) <==> Holds(s, q, j);
    assert forall d, j :: Works(s', d, j) ==> (d == c && j == id) || (d != c && Works(s, d, j));
    assert forall j :: j in s'.redis.pending <==> j in s.redis.pending && j != id;
    forall j | j in s'.history ensures Placed(s', j) { assert Placed(s, j); }
  }

  lemma DequeueJobs(cfg: Config, s: State, c: int)
    requires PlacesOk(s) && JobsOk(cfg, s) && c in s.coordinators && s.coordinators[c].Idle?
    ensures JobsOk(cfg, DequeuedNext(s, c))
  {
    var s' := DequeuedNext(s, c);
    if s.redis.pending == [] { return; }
    var id := s.redis.pending[0];
    assert id in s.redis.pending;
    assert JobOk(cfg, ViewOf(s, id));
    forall j | j in s'.history && j != id ensures ViewOf(s', j) == ViewOf(s, j) { assert Placed(s, j); }
    JobsFrame(cfg, s, s', id);
  }

  lemma DequeueKeeps(cfg: Config, s: State, c: int)
    requires Inv(cfg, s) && c in s.coordinators && s.coordinators[c].Idle?
    ensures Inv(cfg, DequeuedNext(s, c))
  {
    hide JobOk, JobsOk;
    var s' := DequeuedNext(s, c);
    DequeuePlaces(s, c);
    DequeueJobs(cfg, s, c);
    ReadersFrame(s, s');
  }

  /** A coordinator moves on with its job, changing that job's status at most. */
  ghost predicate CoordinatorMoves(s: State, s': State, c: int, id: JobId) {
    && id in s.history && Works(s, c, id)
    && s'.submitters == s.submitters && s'.readers == s.readers
    && s'.redis.pending == s.redis.pending && s'.redis.queries == s.redis.queries && s'.redis.results == s.redis.results
    && c in s'.coordinators && s'.coordinators == s.coordinators[c := s'.coordinators[c]]
    && s'.redis.hashes.Keys == s.redis.hashes.Keys
    && (forall j :: j in s.redis.hashes && j != id ==> s'.redis.hashes[j] == s.redis.hashes[j])
    && (|| (!s'.coordinators[c].Idle? && s'.coordinators[c].job == id && s'.history == s.history)
        || (s'.coordinators[c].Idle? && s'.history == Move(s, id, Finished)))
    && s.tasks.Keys <= s'.tasks.Keys <= s.tasks.Keys + {id}
    && (forall j :: j in s.tasks ==> s'.tasks[j] == s.tasks[j])
  }

  lemma CoordinatorPlaces(s: State, s': State, c: int, id: JobId)
    requires PlacesOk(s) && CoordinatorMoves(s, s', c, id)
    ensures PlacesOk(s')
  {
    assert forall q, j :: Holds(s', q, j) <==> Holds(s, q, j);
    assert forall d, j :: Works(s', d, j) ==> Works(s, d, j);
    forall j | j in s'.history ensures Placed(s', j) { assert Placed(s, j); }
  }

  lemma CoordinatorJobs(cfg: Config, s: State, s': State, c: int, id: JobId)
    requires PlacesOk(s) && JobsOk(cfg, s) && CoordinatorMoves(s, s', c, id)
    requires JobOk(cfg, ViewOf(s', id))
    ensures JobsOk(cfg, s')
  {
    hide JobOk, JobsOk;
    forall j | j in s'.history && j != id ensures ViewOf(s', j) == ViewOf(s, j) { assert Placed(s, j); }
    JobsFrame(cfg, s, s', id);
  }

  lemma CoordinatorFrame(cfg: Config, s: State, s': State, c: int, id: JobId)
    requires Inv(cfg, s) && CoordinatorMoves(s, s', c, id)
    requires JobOk(cfg, ViewOf(s', id))
    ensures Inv(cfg, s')
  {
    CoordinatorPlaces(s, s', c, id);
    CoordinatorJobs(cfg, s, s', c, id);
    ReadersFrame(s, s');
  }

  /** The coordinator's program counter moves on, and nothing else. */
  lemma CounterMoves(s: State, c: int, id: JobId, pc: Coordinator)
    requires Works(s, c, id) && id in s.history && !pc.Idle? && pc.job == id
    ensures CoordinatorMoves(s, s.(coordinators := s.coordinators[c := pc]), c, id)
  {}

  lemma EndedMoves(s: State, c: int, id: JobId)
    requires Works(s, c, id) && id in s.history
    ensures CoordinatorMoves(s, Ended(s, c, id), c, id)
  {}

  lemma CounterView(s: State, c: int, id: JobId, pc: Coordinator)
    requires id in s.history && s.history[id].place == AtCoordinator(c)
    ensures ViewOf(s.(coordinators := s.coordinators[c := pc]), id) == ViewOf(s, id).(stage := Processing(pc))
  {}

  lemma EndedView(s: State, c: int, id: JobId)
    requires id in s.history
    ensures id in Ended(s, c, id).history
    ensures
      var v := ViewOf(s, id);
      ViewOf(Ended(s, c, id), id) == v.(stage := Over, history := v.history.(place := Finished))
  {}

  lemma CheckMoves(s: State, c: int, id: JobId)
    requires Works(s, c, id) && id in s.history
    ensures CoordinatorMoves(s, CheckedDequeued(s, c, id), c, id)
  {
    EndedMoves(s, c, id);
    CounterMoves(s, c, id, Checked(id));
  }

  lemma MarkRunningMoves(s: State, c: int, id: JobId)
    requires Works(s, c, id) && id in s.history && id in s.redis.hashes
    ensures CoordinatorMoves(s, MarkedRunning(s, c, id), c, id)
  {}

  lemma SpawnMoves(s: State, c: int, id: JobId)
    requires Works(s, c, id) && id in s.history && id !in s.tasks
    ensures CoordinatorMoves(s, Spawned(s, c, id), c, id)
  {}

  lemma FinalCheckMoves(s: State, c: int, id: JobId)
    requires Works(s, c, id) && id in s.history
    ensures CoordinatorMoves(s, CheckedFinally(s, c, id), c, id)
  {
    EndedMoves(s, c, id);
    CounterMoves(s, c, id, Completing(id));
  }

  lemma MarkCompletedMoves(s: State, c: int, id: JobId)
    requires Works(s, c, id) && id in s.history && id in s.redis.hashes
    ensures CoordinatorMoves(s, MarkedCompleted(s, c, id), c, id)
  {}

  lemma CheckedViewOk(cfg: Config, v: View)
    requires JobOk(cfg, v) && v.stage.Processing? && v.stage.coordinator.Dequeued?
    ensures v.hash.value.status != Cancelled ==> JobOk(cfg, v.(stage := Processing(Checked(v.stage.coordinator.job))))
    ensures v.hash.value.status == Cancelled ==>
              JobOk(cfg, v.(stage := Over, history := v.history.(place := Finished)))
  {}

  lemma CheckedJobOk(cfg: Config, s: State, c: int, id: JobId)
    requires Inv(cfg, s) && c in s.coordinators && s.coordinators[c] == Dequeued(id)
    ensures Works(s, c, id) && id in s.history && id in CheckedDequeued(s, c, id).history
    ensures JobOk(cfg, ViewOf(CheckedDequeued(s, c, id), id))
  {
    assert Works(s, c, id) && JobOk(cfg, ViewOf(s, id));
    CheckedViewOk(cfg, ViewOf(s, id));
    EndedView(s, c, id);
    CounterView(s, c, id, Checked(id));
  }

  lemma CheckDequeuedKeeps(cfg: Config, s: State, c: int)
    requires Inv(cfg, s) && c in s.coordinators && s.coordinators[c].Dequeued?
    ensures Inv(cfg, CheckedDequeued(s, c, s.coordinators[c].job))
  {
    var id := s.coordinators[c].job;
    CheckedJobOk(cfg, s, c, id);
    CheckMoves(s, c, id);
    CoordinatorFrame(cfg, s, CheckedDequeued(s, c, id), c, id);
  }

  lemma RunningViewOk(cfg: Config, v: View)
    requires JobOk(cfg, v) && v.stage.Processing? && v.stage.coordinator.Checked?
    ensures JobOk(cfg,
      v.(hash := Some(v.hash.value.(status := Running)), stage := Processing(Started(v.stage.coordinator.job))))
  {}

  lemma MarkRunningKeeps(cfg: Config, s: State, c: int)
    requires Inv(cfg, s) && c in s.coordinators && s.coordinators[c].Checked?
    ensures Inv(cfg, MarkedRunning(s, c, s.coordinators[c].job))
  {
    var id := s.coordinators[c].job;
    assert Works(s, c, id) && JobOk(cfg, ViewOf(s, id));
    RunningViewOk(cfg, ViewOf(s, id));
    MarkRunningMoves(s, c, id);
    CoordinatorFrame(cfg, s, MarkedRunning(s, c, id), c, id);
  }

  lemma SpawnedViewOk(cfg: Config, v: View)
    requires JobOk(cfg, v) && v.stage.Processing? && v.stage.coordinator.Started?
    ensures v.stored.Some?
    ensures JobOk(cfg,
      v.(tasks := Some(seq(|v.stored.value|, _ => Ready)), stage := Processing(Gathering(v.stage.coordinator.job))))
  {
    var ts := seq(|v.stored.value|, _ => Ready);
    TotalZero(SucceededOf, ts);
    TotalZero(FailedOf, ts);
    TotalZero(StoredOf, ts);
  }

  lemma SpawnTasksKeeps(cfg: Config, s: State, c: int)
    requires Inv(cfg, s) && c in s.coordinators && s.coordinators[c].Started?
    ensures Inv(cfg, Spawned(s, c, s.coordinators[c].job))
  {
    var id := s.coordinators[c].job;
    assert Works(s, c, id) && JobOk(cfg, ViewOf(s, id));
    var v := ViewOf(s, id);
    SpawnedViewOk(cfg, v);
    var s' := Spawned(s, c, id);
    assert s'.tasks[id] == seq(|v.stored.value|, _ => Ready);
    SpawnMoves(s, c, id);
    CoordinatorFrame(cfg, s, s', c, id);
  }

  lemma FinalViewOk(cfg: Config, v: View)
    requires JobOk(cfg, v) && v.stage.Processing? && v.stage.coordinator.Gathering? && AllTerminated(v.tasks.value)
    ensures v.hash.value.status != Cancelled ==>
      JobOk(cfg, v.(stage := Processing(Completing(v.stage.coordinator.job))))
    ensures v.hash.value.status == Cancelled ==>
              JobOk(cfg, v.(stage := Over, history := v.history.(place := Finished)))
  {}

  lemma FinalJobOk(cfg: Config, s: State, c: int, id: JobId)
    requires Inv(cfg, s) && c in s.coordinators && s.coordinators[c] == Gathering(id)
    requires id in s.tasks && AllTerminated(s.tasks[id])
    ensures Works(s, c, id) && id in s.history && id in CheckedFinally(s, c, id).history
    ensures JobOk(cfg, ViewOf(CheckedFinally(s, c, id), id))
  {
    assert Works(s, c, id) && JobOk(cfg, ViewOf(s, id));
    FinalViewOk(cfg, ViewOf(s, id));
    EndedView(s, c, id);
    CounterView(s, c, id, Completing(id));
  }

  lemma FinalCheckKeeps(cfg: Config, s: State, c: int)
    requires Inv(cfg, s) && c in s.coordinators && s.coordinators[c].Gathering?
    requires s.coordinators[c].job in s.tasks && AllTerminated(s.tasks[s.coordinators[c].job])
    ensures Inv(cfg, CheckedFinally(s, c, s.coordinators[c].job))
  {
    var id := s.coordinators[c].job;
    FinalJobOk(cfg, s, c, id);
    FinalCheckMoves(s, c, id);
    CoordinatorFrame(cfg, s, CheckedFinally(s, c, id), c, id);
  }

  lemma CompletedViewOk(cfg: Config, v: View)
    requires JobOk(cfg, v) && v.stage.Processing? && v.stage.coordinator.Completing?
    ensures JobOk(cfg,
      v.(hash := Some(v.hash.value.(status := Completed)), stage := Over, history := v.history.(place := Finished)))
  {}

  lemma MarkCompletedKeeps(cfg: Config, s: State, c: int)
    requires Inv(cfg, s) && c in s.coordinators && s.coordinators[c].Completing?
    ensures Inv(cfg, MarkedCompleted(s, c, s.coordinators[c].job))
  {
    var id := s.coordinators[c].job;
    assert Works(s, c, id) && JobOk(cfg, ViewOf(s, id));
    CompletedViewOk(cfg, ViewOf(s, id));
    MarkCompletedMoves(s, c, id);
    CoordinatorFrame(cfg, s, MarkedCompleted(s, c, id), c, id);
  }

  // ----- query tasks -----

  /** Task i of the job becomes `t`, and with it perhaps the counters, the results and the history. */
  ghost predicate TaskMoves(v: View, v': View, i: nat, t: Task) {
    && v.tasks.Some? && i < |v.tasks.value| && i < |v.history.queries| && !Terminated(v.tasks.value[i])
    && v.hash.Some? && v.hash.value.JobHash? && v'.hash.Some? && v'.hash.value.JobHash?
    && v' == v.(tasks := Some(v.tasks.value[i := t]), hash := v'.hash, results := v'.results, history := v'.history)
    && v'.hash.value.status == v.hash.value.status && v'.hash.value.total == v.hash.value.total
    && v'.history == v.history.(executions := v'.history.executions, writes := v'.history.writes)
  }

  lemma CountsMoved(v: View, v': View, i: nat, t: Task)
    requires TaskMoves(v, v', i, t)
    requires CountsOk(v.hash.value.completed, v.hash.value.failed, v.history.writes, v.tasks)
    requires v'.hash.value.completed + SucceededOf(v.tasks.value[i]) == v.hash.value.completed + SucceededOf(t)
    requires v'.hash.value.failed + FailedOf(v.tasks.value[i]) == v.hash.value.failed + FailedOf(t)
    requires v'.history.writes + StoredOf(v.tasks.value[i]) == v.history.writes + StoredOf(t)
    ensures CountsOk(v'.hash.value.completed, v'.hash.value.failed, v'.history.writes, v'.tasks)
  {
    TotalUpdate(SucceededOf, v.tasks.value, i, t);
    TotalUpdate(FailedOf, v.tasks.value, i, t);
    TotalUpdate(StoredOf, v.tasks.value, i, t);
  }

  /** Task i moving on without taking a write back leaves every write where it was. */
  lemma WrittenStays(ts: seq<Task>, i: nat, t: Task, name: string, result: Result)
    requires i < |ts| && Written(ts, name, result)
    requires StoredOf(t) >= StoredOf(ts[i]) && (StoredOf(ts[i]) > 0 ==> OutsOf(t) == OutsOf(ts[i]))
    ensures Written(ts[i := t], name, result)
  {
    var j, k :| WroteAt(ts, j, k, name, result);
    assert WroteAt(ts[i := t], j, k, name, result);
  }

  /** A step that stores nothing. */
  lemma WritesKept(cfg: Config, queries: seq<Query>, ts: seq<Task>, results: map<string, Result>, i: nat, t: Task)
    requires TasksOk(cfg, queries, Some(ts), results) && i < |ts|
    requires StoredOf(t) == StoredOf(ts[i]) && (StoredOf(t) > 0 ==> OutsOf(t) == OutsOf(ts[i]))
    requires TaskOk(cfg, queries[i], t, results)
    ensures TasksOk(cfg, queries, Some(ts[i := t]), results)
  {
    forall name | name in results ensures Written(ts[i := t], name, results[name]) {
      WrittenStays(ts, i, t, name, results[name]);
    }
  }

  /** A step that stores the next result of task i, over an older one of that name perhaps. */
  lemma WriteAdded(cfg: Config, queries: seq<Query>, ts: seq<Task>, results: map<string, Result>, i: nat, t: Task,
      w: Write)
    requires TasksOk(cfg, queries, Some(ts), results) && i < |ts|
    requires StoredOf(t) == StoredOf(ts[i]) + 1 <= |OutsOf(t)|
    requires OutsOf(t) == OutsOf(ts[i]) && OutsOf(t)[StoredOf(t) - 1] == w
    requires TaskOk(cfg, queries[i], t, results[w.name := w.result])
    ensures TasksOk(cfg, queries, Some(ts[i := t]), results[w.name := w.result])
  {
    var ts', results' := ts[i := t], results[w.name := w.result];
    forall name | name in results' ensures Written(ts', name, results'[name]) {
      if name == w.name {
        assert WroteAt(ts', i, StoredOf(t) - 1, name, w.result);
      } else {
        WrittenStays(ts, i, t, name, results[name]);
      }
    }
    forall j | 0 <= j < |queries| ensures TaskOk(cfg, queries[j], ts'[j], results') {
      assert j != i ==> TaskOk(cfg, queries[j], ts[j], results);
    }
  }

  lemma StatusKept(v: View, v': View, i: nat, t: Task)
    requires TaskMoves(v, v', i, t) && StatusOk(v) && SubmissionOk(v) && UntouchedOk(v)
    requires t.Skipped? ==> v.hash.value.status == Cancelled
    ensures StatusOk(v') && SubmissionOk(v') && UntouchedOk(v')
  {
    var ts, ts' := v.tasks.value, v'.tasks.value;
    assert v.stage.Processing? && v.stage.coordinator.Gathering?;
    if !NoneSkipped(ts') {
      var j :| 0 <= j < |ts'| && ts'[j].Skipped?;
      assert j == i || ts[j].Skipped?;
    }
  }

  lemma BegunViewOk(cfg: Config, v: View, v': View, i: nat, verdict: Verdict)
    requires JobOk(cfg, v) && v.tasks.Some? && i < |v.tasks.value| && i < |v.history.queries|
    requires TaskMoves(v, v', i, Writing(verdict, Outputs(v.history.queries[i], verdict), 0, 0))
    requires v.tasks.value[i].Ready? || v.tasks.value[i].Cleared?
    requires IsHashable(v.history.queries[i])
      && (verdict == NoStrategy <==> !IsSupported(cfg.supported, v.history.queries[i]))
    requires v'.hash == v.hash && v'.results == v.results && v'.history.writes == v.history.writes
    ensures JobOk(cfg, v')
  {
    var t := Writing(verdict, Outputs(v.history.queries[i], verdict), 0, 0);
    StatusKept(v, v', i, t);
    WritesKept(cfg, v.history.queries, v.tasks.value, v.results, i, t);
    CountsMoved(v, v', i, t);
  }

  lemma CheckedTaskViewOk(cfg: Config, v: View, v': View, i: nat, t: Task)
    requires JobOk(cfg, v) && TaskMoves(v, v', i, t)
    requires v.tasks.value[i].Ready? && IsSupported(cfg.supported, v.history.queries[i])
    requires t == if v.hash.value.status == Cancelled then Skipped else Cleared
    requires v'.hash == v.hash && v'.results == v.results && v'.history == v.history
    ensures JobOk(cfg, v')
  {
    StatusKept(v, v', i, t);
    WritesKept(cfg, v.history.queries, v.tasks.value, v.results, i, t);
    CountsMoved(v, v', i, t);
  }

  lemma EscapedViewOk(cfg: Config, v: View, v': View, i: nat)
    requires JobOk(cfg, v) && TaskMoves(v, v', i, Escaped)
    requires v.tasks.value[i].Ready? && !IsHashable(v.history.queries[i])
    requires v'.hash == v.hash && v'.results == v.results && v'.history == v.history
    ensures JobOk(cfg, v')
  {
    StatusKept(v, v', i, Escaped);
    WritesKept(cfg, v.history.queries, v.tasks.value, v.results, i, Escaped);
    CountsMoved(v, v', i, Escaped);
  }

  lemma FinishedViewOk(cfg: Config, v: View, v': View, i: nat, t: Task)
    requires JobOk(cfg, v) && TaskMoves(v, v', i, t)
    requires v.tasks.value[i].Writing? && v.tasks.value[i].counted == |v.tasks.value[i].outs|
    requires t == Done(v.tasks.value[i].verdict, v.tasks.value[i].outs)
    requires v'.hash == v.hash && v'.results == v.results && v'.history == v.history
    ensures JobOk(cfg, v')
  {
    assert TaskOk(cfg, v.history.queries[i], v.tasks.value[i], v.results);
    StatusKept(v, v', i, t);
    WritesKept(cfg, v.history.queries, v.tasks.value, v.results, i, t);
    CountsMoved(v, v', i, t);
  }

  lemma CountBumped(t: Task)
    requires t.Writing? && t.counted < t.stored <= |t.outs|
    ensures
      var t', success := t.(counted := t.counted + 1), t.outs[t.counted].result.success;
      && SucceededOf(t') == SucceededOf(t) + (if success then 1 else 0)
      && FailedOf(t') == FailedOf(t) + (if success then 0 else 1)
      && StoredOf(t') == StoredOf(t)
  {}

  lemma CountedViewOk(cfg: Config, v: View, v': View, i: nat, t: Task, success: bool)
    requires JobOk(cfg, v) && TaskMoves(v, v', i, t)
    requires v.tasks.value[i].Writing? && v.tasks.value[i].counted < v.tasks.value[i].stored <= |v.tasks.value[i].outs|
    requires t == v.tasks.value[i].(counted := v.tasks.value[i].counted + 1)
    requires success == v.tasks.value[i].outs[v.tasks.value[i].counted].result.success
    requires v'.results == v.results && v'.history == v.history
    requires v'.hash.value.completed == v.hash.value.completed + (if success then 1 else 0)
    requires v'.hash.value.failed == v.hash.value.failed + (if success then 0 else 1)
    ensures JobOk(cfg, v')
  {
    StatusKept(v, v', i, t);
    CountedTasksOk(cfg, v.history.queries, v.tasks.value, v.results, i, t);
    CountedCountsOk(v, v', i, t, success);
  }

  lemma CountedTasksOk(cfg: Config, queries: seq<Query>, ts: seq<Task>, results: map<string, Result>, i: nat, t: Task)
    requires TasksOk(cfg, queries, Some(ts), results) && i < |ts| && ts[i].Writing?
    requires ts[i].counted < ts[i].stored && t == ts[i].(counted := ts[i].counted + 1)
    ensures TasksOk(cfg, queries, Some(ts[i := t]), results)
  {
    assert TaskOk(cfg, queries[i], ts[i], results);
    WritesKept(cfg, queries, ts, results, i, t);
  }

  lemma CountedCountsOk(v: View, v': View, i: nat, t: Task, success: bool)
    requires TaskMoves(v, v', i, t)
    requires CountsOk(v.hash.value.completed, v.hash.value.failed, v.history.writes, v.tasks)
    requires v.tasks.value[i].Writing? && v.tasks.value[i].counted < v.tasks.value[i].stored <= |v.tasks.value[i].outs|
    requires t == v.tasks.value[i].(counted := v.tasks.value[i].counted + 1)
    requires success == v.tasks.value[i].outs[v.tasks.value[i].counted].result.success
    requires v'.history == v.history
    requires v'.hash.value.completed == v.hash.value.completed + (if success then 1 else 0)
    requires v'.hash.value.failed == v.hash.value.failed + (if success then 0 else 1)
    ensures CountsOk(v'.hash.value.completed, v'.hash.value.failed, v'.history.writes, v'.tasks)
  {
    CountBumped(v.tasks.value[i]);
    CountsMoved(v, v', i, t);
  }

  lemma TaskWroteOk(cfg: Config, q: Query, t: Task, results: map<string, Result>)
    requires TaskOk(cfg, q, t, results) && t.Writing? && t.stored == t.counted < |t.outs|
    ensures TaskOk(cfg, q, t.(stored := t.stored + 1), results[t.outs[t.stored].name := t.outs[t.stored].result])
  {
    var t', results' := t.(stored := t.stored + 1), results[t.outs[t.stored].name := t.outs[t.stored].result];
    forall k | 0 <= k < StoredOf(t') ensures OutsOf(t')[k].name in results' {
      assert k < t.stored ==> OutsOf(t)[k].name in results;
    }
  }

  lemma WroteViewOk(cfg: Config, v: View, v': View, i: nat, t: Task, w: Write)
    requires JobOk(cfg, v) && TaskMoves(v, v', i, t)
    requires v.tasks.value[i].Writing? && v.tasks.value[i].stored == v.tasks.value[i].counted < |v.tasks.value[i].outs|
    requires t == v.tasks.value[i].(stored := v.tasks.value[i].stored + 1)
    requires w == v.tasks.value[i].outs[v.tasks.value[i].stored]
    requires v'.hash == v.hash && v'.results == v.results[w.name := w.result]
    requires v'.history == v.history.(writes := v.history.writes + 1)
    ensures JobOk(cfg, v')
  {
    StatusKept(v, v', i, t);
    WroteTasksOk(cfg, v.history.queries, v.tasks.value, v.results, i, t, w);
    CountsMoved(v, v', i, t);
  }

  lemma WroteTasksOk(cfg: Config, queries: seq<Query>, ts: seq<Task>, results: map<string, Result>, i: nat, t: Task,
      w: Write)
    requires TasksOk(cfg, queries, Some(ts), results) && i < |ts| && ts[i].Writing?
    requires ts[i].stored == ts[i].counted < |ts[i].outs| && w == ts[i].outs[ts[i].stored]
    requires t == ts[i].(stored := ts[i].stored + 1)
    ensures TasksOk(cfg, queries, Some(ts[i := t]), results[w.name := w.result])
  {
    TaskWroteOk(cfg, queries[i], ts[i], results);
    WriteAdded(cfg, queries, ts, results, i, t, w);
  }

  /** Only job `id` is touched: its tasks, its counters, its results and its history. */
  ghost predicate OnlyTouches(s: State, s': State, id: JobId) {
    && id in s.history && id in s'.history && s'.history[id].place == s.history[id].place
    && s'.submitters == s.submitters && s'.coordinators == s.coordinators && s'.readers == s.readers
    && s'.redis.pending == s.redis.pending && s'.redis.queries == s.redis.queries
    && s'.tasks.Keys == s.tasks.Keys && (forall j :: j in s.tasks && j != id ==> s'.tasks[j] == s.tasks[j])
    && s'.history.Keys == s.history.Keys && (forall j :: j in s.history && j != id ==> s'.history[j] == s.history[j])
    && s'.redis.hashes.Keys == s.redis.hashes.Keys
    && (forall j :: j in s.redis.hashes && j != id ==> s'.redis.hashes[j] == s.redis.hashes[j])
    && s'.redis.results.Keys <= s.redis.results.Keys + {id}
    && (forall j :: j != id ==> ResultsOf(s'.redis, j) == ResultsOf(s.redis, j))
  }

  lemma TaskPlaces(s: State, s': State, id: JobId)
    requires PlacesOk(s) && OnlyTouches(s, s', id)
    ensures PlacesOk(s')
  {
    assert forall q, j :: Holds(s', q, j) <==> Holds(s, q, j);
    assert forall c, j :: Works(s', c, j) <==> Works(s, c, j);
    forall j | j in s'.history ensures Placed(s', j) { assert Placed(s, j); }
  }

  lemma TaskFrame(cfg: Config, s: State, s': State, id: JobId, i: nat)
    requires Inv(cfg, s) && HasTask(s, id, i) && !Terminated(s.tasks[id][i])
    requires OnlyTouches(s, s', id) && JobOk(cfg, ViewOf(s', id))
    ensures Inv(cfg, s')
  {
    hide JobOk, JobsOk;
    TaskPlaces(s, s', id);
    assert JobsOk(cfg, s') by {
      forall j | j in s'.history && j != id ensures ViewOf(s', j) == ViewOf(s, j) {}
      JobsFrame(cfg, s, s', id);
    }
    assert !Settled(s, id);
    ReadersFrame(s, s');
  }

  lemma SetTaskTouches(s: State, id: JobId, i: nat, t: Task)
    requires HasTask(s, id, i)
    ensures OnlyTouches(s, s.(tasks := SetTask(s, id, i, t)), id)
  {}

  lemma BegunTouches(s: State, id: JobId, i: nat, verdict: Verdict)
    requires HasTask(s, id, i)
    ensures OnlyTouches(s, BegunWriting(s, id, i, verdict), id)
  {}

  lemma BegunJobOk(cfg: Config, s: State, id: JobId, i: nat, verdict: Verdict)
    requires JobsOk(cfg, s) && HasTask(s, id, i) && (s.tasks[id][i].Ready? || s.tasks[id][i].Cleared?)
    requires IsHashable(s.history[id].queries[i])
      && (verdict == NoStrategy <==> !IsSupported(cfg.supported, s.history[id].queries[i]))
    ensures JobOk(cfg, ViewOf(BegunWriting(s, id, i, verdict), id))
  {
    assert JobOk(cfg, ViewOf(s, id));
    BegunViewOk(cfg, ViewOf(s, id), ViewOf(BegunWriting(s, id, i, verdict), id), i, verdict);
  }

  lemma BeginWritingKeeps(cfg: Config, s: State, id: JobId, i: nat, verdict: Verdict)
    requires Inv(cfg, s) && HasTask(s, id, i) && (s.tasks[id][i].Ready? || s.tasks[id][i].Cleared?)
    requires IsHashable(s.history[id].queries[i])
      && (verdict == NoStrategy <==> !IsSupported(cfg.supported, s.history[id].queries[i]))
    ensures Inv(cfg, BegunWriting(s, id, i, verdict))
  {
    BegunJobOk(cfg, s, id, i, verdict);
    BegunTouches(s, id, i, verdict);
    TaskFrame(cfg, s, BegunWriting(s, id, i, verdict), id, i);
  }

  /** A task past the cancellation check belongs to a query whose mode has a strategy. */
  lemma ClearedIsSupported(cfg: Config, s: State, id: JobId, i: nat)
    requires Inv(cfg, s) && HasTask(s, id, i) && s.tasks[id][i].Cleared?
    ensures IsSupported(cfg.supported, s.history[id].queries[i])
  {
    assert JobOk(cfg, ViewOf(s, id));
    assert TaskOk(cfg, s.history[id].queries[i], s.tasks[id][i], ResultsOf(s.redis, id));
  }

  lemma EscapedJobOk(cfg: Config, s: State, id: JobId, i: nat)
    requires JobsOk(cfg, s) && HasTask(s, id, i) && s.tasks[id][i].Ready? && !IsHashable(s.history[id].queries[i])
    ensures JobOk(cfg, ViewOf(EscapedTask(s, id, i), id))
  {
    assert JobOk(cfg, ViewOf(s, id));
    EscapedViewOk(cfg, ViewOf(s, id), ViewOf(EscapedTask(s, id, i), id), i);
  }

  lemma RaiseOnModeKeeps(cfg: Config, s: State, id: JobId, i: nat)
    requires Inv(cfg, s) && HasTask(s, id, i) && s.tasks[id][i].Ready? && !IsHashable(s.history[id].queries[i])
    ensures Inv(cfg, EscapedTask(s, id, i))
  {
    EscapedJobOk(cfg, s, id, i);
    SetTaskTouches(s, id, i, Escaped);
    TaskFrame(cfg, s, EscapedTask(s, id, i), id, i);
  }

  lemma CheckedTaskJobOk(cfg: Config, s: State, id: JobId, i: nat)
    requires JobsOk(cfg, s) && HasTask(s, id, i) && s.tasks[id][i].Ready?
    requires IsSupported(cfg.supported, s.history[id].queries[i])
    ensures JobOk(cfg, ViewOf(CheckedTask(s, id, i), id))
  {
    var s' := CheckedTask(s, id, i);
    assert JobOk(cfg, ViewOf(s, id));
    CheckedTaskViewOk(cfg, ViewOf(s, id), ViewOf(s', id), i, s'.tasks[id][i]);
  }

  lemma CheckTaskKeeps(cfg: Config, s: State, id: JobId, i: nat)
    requires Inv(cfg, s) && HasTask(s, id, i) && s.tasks[id][i].Ready?
    requires IsSupported(cfg.supported, s.history[id].queries[i])
    ensures Inv(cfg, CheckedTask(s, id, i))
  {
    CheckedTaskJobOk(cfg, s, id, i);
    SetTaskTouches(s, id, i, CheckedTask(s, id, i).tasks[id][i]);
    TaskFrame(cfg, s, CheckedTask(s, id, i), id, i);
  }

  lemma WriteOneTouches(s: State, id: JobId, i: nat)
    requires HasTask(s, id, i) && s.tasks[id][i].Writing? && s.tasks[id][i].stored < |s.tasks[id][i].outs|
    ensures OnlyTouches(s, WroteOne(s, id, i), id)
  {}

  lemma WroteJobOk(cfg: Config, s: State, id: JobId, i: nat)
    requires JobsOk(cfg, s) && HasTask(s, id, i) && s.tasks[id][i].Writing?
    requires s.tasks[id][i].stored == s.tasks[id][i].counted < |s.tasks[id][i].outs|
    ensures JobOk(cfg, ViewOf(WroteOne(s, id, i), id))
  {
    var s' := WroteOne(s, id, i);
    assert JobOk(cfg, ViewOf(s, id));
    WroteViewOk(cfg, ViewOf(s, id), ViewOf(s', id), i, s'.tasks[id][i], s.tasks[id][i].outs[s.tasks[id][i].stored]);
  }

  lemma WriteOneKeeps(cfg: Config, s: State, id: JobId, i: nat)
    requires Inv(cfg, s) && HasTask(s, id, i) && s.tasks[id][i].Writing?
    requires s.tasks[id][i].stored == s.tasks[id][i].counted < |s.tasks[id][i].outs|
    ensures Inv(cfg, WroteOne(s, id, i))
  {
    WriteOneTouches(s, id, i);
    WroteJobOk(cfg, s, id, i);
    TaskFrame(cfg, s, WroteOne(s, id, i), id, i);
  }

  lemma CountOneTouches(s: State, id: JobId, i: nat)
    requires HasTask(s, id, i) && s.tasks[id][i].Writing? && s.tasks[id][i].counted < |s.tasks[id][i].outs|
    ensures OnlyTouches(s, CountedOne(s, id, i), id)
  {}

  lemma CountedJobOk(cfg: Config, s: State, id: JobId, i: nat)
    requires JobsOk(cfg, s) && HasTask(s, id, i) && s.tasks[id][i].Writing?
    requires s.tasks[id][i].counted < s.tasks[id][i].stored <= |s.tasks[id][i].outs|
    ensures JobOk(cfg, ViewOf(CountedOne(s, id, i), id))
  {
    var s' := CountedOne(s, id, i);
    assert JobOk(cfg, ViewOf(s, id));
    CountedViewOk(cfg, ViewOf(s, id), ViewOf(s', id), i, s'.tasks[id][i],
      s.tasks[id][i].outs[s.tasks[id][i].counted].result.success);
  }

  lemma CountOneKeeps(cfg: Config, s: State, id: JobId, i: nat)
    requires Inv(cfg, s) && HasTask(s, id, i) && s.tasks[id][i].Writing?
    requires s.tasks[id][i].counted < s.tasks[id][i].stored <= |s.tasks[id][i].outs|
    ensures Inv(cfg, CountedOne(s, id, i))
  {
    CountOneTouches(s, id, i);
    CountedJobOk(cfg, s, id, i);
    TaskFrame(cfg, s, CountedOne(s, id, i), id, i);
  }

  lemma FinishedJobOk(cfg: Config, s: State, id: JobId, i: nat)
    requires JobsOk(cfg, s) && HasTask(s, id, i) && s.tasks[id][i].Writing?
    requires s.tasks[id][i].counted == |s.tasks[id][i].outs|
    ensures JobOk(cfg, ViewOf(FinishedTask(s, id, i), id))
  {
    var s' := FinishedTask(s, id, i);
    assert JobOk(cfg, ViewOf(s, id));
    FinishedViewOk(cfg, ViewOf(s, id), ViewOf(s', id), i, s'.tasks[id][i]);
  }

  lemma FinishTaskKeeps(cfg: Config, s: State, id: JobId, i: nat)
    requires Inv(cfg, s) && HasTask(s, id, i) && s.tasks[id][i].Writing?
    requires s.tasks[id][i].counted == |s.tasks[id][i].outs|
    ensures Inv(cfg, FinishedTask(s, id, i))
  {
    FinishedJobOk(cfg, s, id, i);
    SetTaskTouches(s, id, i, FinishedTask(s, id, i).tasks[id][i]);
    TaskFrame(cfg, s, FinishedTask(s, id, i), id, i);
  }

  // ----- every step, every run -----

  predicate IsSubmitterStep(step: Step) {
    step.Admit? || step.CreateJobHash? || step.StoreJobQueries? || step.EnqueueJob?
  }

  predicate IsCoordinatorStep(step: Step) {
    step.Dequeue? || step.CheckDequeued? || step.MarkRunning? || step.SpawnTasks? || step.FinalCheck?
      || step.MarkCompleted?
  }

  predicate IsTaskStep(step: Step) {
    step.RejectMode? || step.RaiseOnMode? || step.CheckTask? || step.Execute? || step.WriteOne? || step.CountOne?
      || step.FinishTask?
  }

  lemma TaskStepKeeps(cfg: Config, s: State, step: Step)
    requires Inv(cfg, s) && Enabled(cfg, s, step) && IsTaskStep(step)
    ensures Inv(cfg, Next(cfg, s, step))
  {
    match step {
      case RejectMode(id, i) => BeginWritingKeeps(cfg, s, id, i, NoStrategy);
      case RaiseOnMode(id, i) => RaiseOnModeKeeps(cfg, s, id, i);
      case Execute(id, i, outcome) =>
        ClearedIsSupported(cfg, s, id, i);
        BeginWritingKeeps(cfg, s, id, i, Ran(outcome));
      case CheckTask(id, i) => CheckTaskKeeps(cfg, s, id, i);
      case WriteOne(id, i) => WriteOneKeeps(cfg, s, id, i);
      case CountOne(id, i) => CountOneKeeps(cfg, s, id, i);
      case FinishTask(id, i) => FinishTaskKeeps(cfg, s, id, i);
    }
  }

  lemma StepKeepsInvariant(cfg: Config, s: State, step: Step)
    requires Inv(cfg, s) && Enabled(cfg, s, step)
    ensures Inv(cfg, Next(cfg, s, step))
  {
    if IsTaskStep(step) {
      TaskStepKeeps(cfg, s, step);
    } else if IsCoordinatorStep(step) {
      CoordinatorStepKeeps(cfg, s, step);
    } else if IsSubmitterStep(step) {
      SubmitterStepKeeps(cfg, s, step);
    } else {
      ClientStepKeeps(cfg, s, step);
    }
  }

  lemma CoordinatorStepKeeps(cfg: Config, s: State, step: Step)
    requires Inv(cfg, s) && Enabled(cfg, s, step) && IsCoordinatorStep(step)
    ensures Inv(cfg, Next(cfg, s, step))
  {
    hide Inv;
    match step
    case Dequeue(c) => DequeueKeeps(cfg, s, c);
    case CheckDequeued(c) => CheckDequeuedKeeps(cfg, s, c);
    case MarkRunning(c) => MarkRunningKeeps(cfg, s, c);
    case SpawnTasks(c) => SpawnTasksKeeps(cfg, s, c);
    case FinalCheck(c) => FinalCheckKeeps(cfg, s, c);
    case MarkCompleted(c) => MarkCompletedKeeps(cfg, s, c);
  }

  lemma SubmitterStepKeeps(cfg: Config, s: State, step: Step)
    requires Inv(cfg, s) && Enabled(cfg, s, step) && IsSubmitterStep(step)
    ensures Inv(cfg, Next(cfg, s, step))
  {
    hide Inv;
    match step
    case Admit(_, _) => AdmitKeeps(cfg, s, step);
    case CreateJobHash(p, id) => CreateKeeps(cfg, s, p, id);
    case StoreJobQueries(p) => StoreQueriesKeeps(cfg, s, p);
    case EnqueueJob(p) => EnqueueKeeps(cfg, s, p);
  }

  /** Cancellers and readers. */
  lemma ClientStepKeeps(cfg: Config, s: State, step: Step)
    requires Inv(cfg, s) && Enabled(cfg, s, step)
    requires !IsTaskStep(step) && !IsCoordinatorStep(step) && !IsSubmitterStep(step)
    ensures Inv(cfg, Next(cfg, s, step))
  {
    hide Inv;
    match step
    case CancelRead(k, id) => CancelReadKeeps(cfg, s, k, id);
    case CancelWrite(k) => CancelWriteKeeps(cfg, s, k);
    case PollStatus(r, id) => PollStatusKeeps(cfg, s, r, id);
    case ReadResults(r) => ReadResultsKeeps(cfg, s, r);
    case Reply(r) => ReaderFrame(cfg, s, r, Polling);
  }

  /** The invariant holds in every state of every run. */
  lemma {:induction false} RunKeepsInvariant(cfg: Config, states: seq<State>, steps: seq<Step>, n: nat)
    requires IsRun(cfg, states, steps) && n < |states|
    ensures Inv(cfg, states[n])
    decreases n
  {
    if n == 0 {
      InitEstablishes(cfg, states[0]);
    } else {
      RunKeepsInvariant(cfg, states, steps, n - 1);
      assert IsStep(cfg, states[n - 1], steps[n - 1], states[n]);
      StepKeepsInvariant(cfg, states[n - 1], steps[n - 1]);
    }
  }
}
