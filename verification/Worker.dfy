/** DocumentIngestionWorker.run_once on top of the sequential service (reliable_worker.py):
    when a queue message is acknowledged, and what is then true of the job it names. */
module Worker {
  import opened Chunking
  import opened Entities
  import opened Heartbeats
  import opened InMemoryStores
  import opened SequentialIngest
  import opened SequentialWorlds
  import Leases = InMemoryLeases
  import Protocol
  import ReusedResults

  /** How run_once ends: its two answers, or an exception that it lets through. */
  datatype Exit =
    | Idle                 // no message
    | Handled              // True
    | Postponed            // False: somebody else is at work
    | HeartbeatLost
    | Retry                // the failure may go away: the message comes back
    | SaveRejected         // the job repository refused to record the outcome
    | UnexpectedError

  predicate Retryable(code: Option<string>) { code == Some("INGESTION_FAILED") }

  predicate JobsFiled(jobs: map<JobKey, Job>) {
    forall k :: k in jobs ==> jobs[k].Key() == k
  }

  predicate Finished(job: Job) { job.status == JobStatus.Succeeded || job.status == JobStatus.Failed }

  /** There is nothing left to do for the message. */
  predicate Settled(jobs: map<JobKey, Job>, task: Task) {
    var key := JobKey(task.tenant, task.job);
    key in jobs ==> jobs[key].document != task.document || Finished(jobs[key])
  }

  function FailedWith(job: Job, code: string, at: int): Job {
    job.(status := JobStatus.Failed, errorCode := Some(code), completedAt := Some(at))
  }

  /** In memory, too, the result of another job can be recorded for this one exactly when
      this one was never claimed. */
  lemma ReuseIsStaleIffClaimed(repository: InMemoryIngestionJobRepository, job: Job, result: Job, at: int)
    requires result.fingerprint.Some? && result.tenant == job.tenant && result.id != job.id
    requires repository.Owner(MarkerKey(result.tenant, result.fingerprint.value)) == Some(result)
    ensures repository.Stale(ReusedResults.Reusing(job, result, at)) <==> job.fencingToken.Some?
  {
    var reusing := ReusedResults.Reusing(job, result, at);
    assert reusing.fingerprint == result.fingerprint && reusing.fencingToken == job.fencingToken;
    if job.fencingToken.Some? {
      assert reusing.MarkerOf() == MarkerKey(result.tenant, result.fingerprint.value);
    }
  }

  /** The job repository is no part of what makes the stores known. */
  lemma KnownWithoutJobs(w: World, now: World)
    requires Known(w) && now == w.(jobs := now.jobs, fingerprints := now.fingerprints)
    ensures Known(now)
  {
    forall k ensures DocumentKnown(now, k) {
      assert DocumentKnown(w, k);
    }
    forall k ensures ChunkKnown(now, k) {
      assert ChunkKnown(w, k);
    }
    forall k ensures VectorKnown(now, k) {
      assert VectorKnown(w, k);
    }
  }

  // ---------------------------------------------------------------- the stored jobs

  /** At most the attempt's own job is another one now. */
  ghost predicate JobsFrom(w: World, now: World, a: Protocol.Attempt) {
    now.jobs == w.jobs
    || exists job: Job :: job.Key() == Protocol.RunningJob(a).Key() && now.jobs == w.jobs[job.Key() := job]
  }

  lemma JobsAfterUndoing(w: World, now: World, leases: Leases.Store, a: Protocol.Attempt, f: Failure, clock: Clock,
                         trouble: Trouble)
    requires UndoneFrom(w, now, leases, a, f, clock, trouble)
    ensures JobsFrom(w, now, a)
  {
    var running, failed := Protocol.RunningJob(a), Protocol.FailedJob(a, FailureCode(f), clock.failedAt);
    assert now.jobs == w.jobs[running.Key() := running] || now.jobs == w.jobs[failed.Key() := failed];
  }

  lemma JobsAfterPublishing(w: World, now: World, leases: Leases.Store, a: Protocol.Attempt, clock: Clock, s: Settings,
                            extraction: Extraction, trouble: Trouble, batch: seq<Chunking.DocumentChunk>,
                            answers: seq<(string, seq<Float>)>, records: seq<VectorRecord>)
    requires s.chunking.Valid()
    requires PublishedAs(w, now, leases, a, clock, s, extraction, trouble, batch, answers, records)
    ensures JobsFrom(w, now, a)
    ensures Protocol.RunningJob(a).Key() in now.jobs
    ensures now.jobs[Protocol.RunningJob(a).Key()] == Protocol.SucceededJob(a, |batch|, clock.completedAt)
  {
    var succeeded := Protocol.SucceededJob(a, |batch|, clock.completedAt);
    assert now.jobs == w.jobs[succeeded.Key() := succeeded];
  }

  lemma JobsAfterPreparing(w: World, now: World, leases: Leases.Store, a: Protocol.Attempt)
    requires PartlyPrepared(w, now, leases, a)
    ensures JobsFrom(w, now, a)
  {
    var running := Protocol.RunningJob(a);
    assert now.jobs == w.jobs || now.jobs == w.jobs[running.Key() := running];
  }

  lemma JobsAfterCancellation(w: World, now: World, leases: Leases.Store, a: Protocol.Attempt,
                              clock: Clock, s: Settings, extraction: Extraction,
                              batch: seq<Chunking.DocumentChunk>,
                              answers: seq<(string, seq<Float>)>, records: seq<VectorRecord>)
    requires s.chunking.Valid()
    requires CutShort(w, now, leases, a, clock, s, extraction, batch, answers, records)
    ensures JobsFrom(w, now, a)
  {
    if PartlyPrepared(w, now, leases, a) {
      JobsAfterPreparing(w, now, leases, a);
    } else if exists f, trouble :: UndoneFrom(w, now, leases, a, f, clock, trouble) {
      var f, trouble :| UndoneFrom(w, now, leases, a, f, clock, trouble);
      JobsAfterUndoing(w, now, leases, a, f, clock, trouble);
    } else {
      var trouble :| PublishedAs(w, now, leases, a, clock, s, extraction, trouble, batch, answers, records);
      JobsAfterPublishing(w, now, leases, a, clock, s, extraction, trouble, batch, answers, records);
    }
  }

  /** However an attempt ends, it changes no job but its own. */
  lemma JobsAfterAttempt(w: World, now: World, leases: Leases.Store, a: Protocol.Attempt, clock: Clock, s: Settings,
                         extraction: Extraction, trouble: Trouble, ending: Ending, batch: seq<Chunking.DocumentChunk>,
                         answers: seq<(string, seq<Float>)>, records: seq<VectorRecord>)
    requires s.chunking.Valid()
    requires Ended(w, now, leases, a, clock, s, extraction, trouble, ending, batch, answers, records)
    ensures JobsFrom(w, now, a)
  {
    match ending {
      case Failed(_, failure) => JobsAfterUndoing(w, now, leases, a, failure, clock, trouble);
      case Unrecorded(_) =>
        var f :| UndoneFrom(w, now, leases, a, f, clock, trouble);
        JobsAfterUndoing(w, now, leases, a, f, clock, trouble);
      case Succeeded(_, _) =>
        JobsAfterPublishing(w, now, leases, a, clock, s, extraction, trouble, batch, answers, records);
      case Cancelled => JobsAfterCancellation(w, now, leases, a, clock, s, extraction, batch, answers, records);
      case Escaped => JobsAfterPreparing(w, now, leases, a);
      case _ =>
    }
  }

  /** A success is stored, and an early end changes no job. */
  lemma SuccessIsStored(w: World, now: World, leases: Leases.Store, a: Protocol.Attempt, clock: Clock, s: Settings,
                        extraction: Extraction, trouble: Trouble, ending: Ending, batch: seq<Chunking.DocumentChunk>,
                        answers: seq<(string, seq<Float>)>, records: seq<VectorRecord>)
    requires s.chunking.Valid() && (ending.Succeeded? || Early(ending))
    requires Ended(w, now, leases, a, clock, s, extraction, trouble, ending, batch, answers, records)
    ensures Early(ending) ==> now.jobs == w.jobs
    ensures ending.Succeeded? ==>
              && ending.job.status == JobStatus.Succeeded && ending.job.id == a.command.job
              && JobKey(a.document.tenant, a.command.job) in now.jobs
              && now.jobs[JobKey(a.document.tenant, a.command.job)] == ending.job
  {
    if ending.Succeeded? {
      JobsAfterPublishing(w, now, leases, a, clock, s, extraction, trouble, batch, answers, records);
    }
  }

  lemma FiledFrom(w: World, now: World, a: Protocol.Attempt)
    requires JobsFiled(w.jobs) && JobsFrom(w, now, a)
    ensures JobsFiled(now.jobs)
  {
  }

  /** What the end of ingest says of the stored jobs. */
  predicate JobsMatch(w: World, now: World, command: IngestDocumentCommand, outage: Outage, ending: Ending) {
    var key := JobKey(command.ids.tenant, command.ids.job);
    && JobsFiled(now.jobs)
    && (Early(ending) || (outage.AtLookUp? && ending == Escaped) ==> now.jobs == w.jobs)
    && (ending.Succeeded? ==>
          && ending.job.status == JobStatus.Succeeded && ending.job.id == command.ids.job
          && key in now.jobs && now.jobs[key] == ending.job)
  }

  lemma JobsOfAttempt(w: World, now: World, renewed: LeaseKey, command: IngestDocumentCommand, a: Protocol.Attempt,
                      extraction: Extraction, clock: Clock, s: Settings, trouble: Trouble, outage: Outage,
                      inner: Ending, ending: Ending, batch: seq<Chunking.DocumentChunk>,
                      answers: seq<(string, seq<Float>)>, records: seq<VectorRecord>)
    requires s.chunking.Valid() && JobsFiled(w.jobs) && IsAttempt(w, command, clock, a)
    requires AttemptEnded(w, now, a, renewed, extraction, clock, s, trouble, outage, inner, ending,
                          batch, answers, records)
    ensures JobsMatch(w, now, command, outage, ending)
  {
    JobsAfterAttempt(w, now, now.leases, a, clock, s, extraction, trouble, inner, batch, answers, records);
    FiledFrom(w, now, a);
    if ending.Succeeded? || Early(ending) {
      SuccessIsStored(w, now, now.leases, a, clock, s, extraction, trouble, inner, batch, answers, records);
    }
  }

  /** Whatever way ingest ended. */
  lemma JobsAfterIngest(w: World, now: World, renewed: LeaseKey, command: IngestDocumentCommand,
                        extraction: Extraction, clock: Clock, s: Settings, trouble: Trouble, outage: Outage,
                        ending: Ending, batch: seq<Chunking.DocumentChunk>, answers: seq<(string, seq<Float>)>,
                        records: seq<VectorRecord>)
    requires s.chunking.Valid() && JobsFiled(w.jobs)
    requires RunEnded(w, now, renewed, command, extraction, clock, s, trouble, outage, ending,
                      batch, answers, records)
    ensures JobsMatch(w, now, command, outage, ending)
  {
    if !(EndsBeforeItsLease(ending, outage) && OnlyRenewed(w, now, renewed)) {
      var a, inner :| IsAttempt(w, command, clock, a)
                      && AttemptEnded(w, now, a, renewed, extraction, clock, s, trouble, outage, inner, ending,
                                      batch, answers, records);
      JobsOfAttempt(w, now, renewed, command, a, extraction, clock, s, trouble, outage, inner, ending,
                    batch, answers, records);
    }
  }

  // ---------------------------------------------------------------- the worker

  predicate TimingValid(leaseTtl: int, heartbeatInterval: int, visibilityTimeout: int) {
    && 30 <= leaseTtl <= 3600
    && 1 <= heartbeatInterval < leaseTtl
    && leaseTtl <= visibilityTimeout
  }

  class DocumentIngestionWorker {
    const queue: IngestionTaskQueue
    const ingestion: DocumentIngestionService
    var leaseTtlSeconds: int
    var heartbeatIntervalSeconds: int
    var visibilityTimeoutSeconds: int

    predicate Valid()
      reads this
    {
      ingestion.Wired() && TimingValid(leaseTtlSeconds, heartbeatIntervalSeconds, visibilityTimeoutSeconds)
    }

    constructor (queue: IngestionTaskQueue, ingestion: DocumentIngestionService)
      requires ingestion.Wired()
      ensures Valid() && this.queue == queue && this.ingestion == ingestion
    {
      this.queue, this.ingestion := queue, ingestion;
      leaseTtlSeconds, heartbeatIntervalSeconds, visibilityTimeoutSeconds := 900, 60, 900;
    }

    /** Accepted together or not at all: a heartbeat always comes before lease and visibility
        run out, and a message stays hidden at least as long as the lease of its worker. */
    method ConfigureTiming(leaseTtl: int, heartbeatInterval: int, visibilityTimeout: int) returns (ok: bool)
      modifies this`leaseTtlSeconds, this`heartbeatIntervalSeconds, this`visibilityTimeoutSeconds
      ensures ok <==> TimingValid(leaseTtl, heartbeatInterval, visibilityTimeout)
      ensures ok ==> && leaseTtlSeconds == leaseTtl && heartbeatIntervalSeconds == heartbeatInterval
                     && visibilityTimeoutSeconds == visibilityTimeout
                     && heartbeatIntervalSeconds < visibilityTimeoutSeconds
      ensures !ok ==> && leaseTtlSeconds == old(leaseTtlSeconds)
                      && heartbeatIntervalSeconds == old(heartbeatIntervalSeconds)
                      && visibilityTimeoutSeconds == old(visibilityTimeoutSeconds)
    {
      if leaseTtl < 30 || leaseTtl > 3600 {
        return false;
      }
      if heartbeatInterval < 1 || heartbeatInterval >= leaseTtl {
        return false;
      }
      if visibilityTimeout < leaseTtl || heartbeatInterval >= visibilityTimeout {
        return false;
      }
      leaseTtlSeconds, heartbeatIntervalSeconds, visibilityTimeoutSeconds :=
        leaseTtl, heartbeatInterval, visibilityTimeout;
      ok := true;
    }

    method FailJob(job: Job, code: string, at: int) returns (ok: bool)
      modifies ingestion.jobs
      ensures ok <==> !old(ingestion.jobs.Stale(FailedWith(job, code, at)))
      ensures ok ==> ingestion.jobs.jobs == old(ingestion.jobs.jobs)[job.Key() := FailedWith(job, code, at)]
      ensures !ok ==> ingestion.jobs.jobs == old(ingestion.jobs.jobs)
    {
      ok := ingestion.jobs.Save(FailedWith(job, code, at));
    }

    method SaveReusedResult(job: Job, result: Job, at: int) returns (ok: bool)
      modifies ingestion.jobs
      ensures ok <==> !old(ingestion.jobs.Stale(ReusedResults.Reusing(job, result, at)))
      ensures ok ==>
                ingestion.jobs.jobs == old(ingestion.jobs.jobs)[job.Key() := ReusedResults.Reusing(job, result, at)]
      ensures !ok ==> ingestion.jobs.jobs == old(ingestion.jobs.jobs)
      ensures !ok ==> ingestion.jobs.fingerprints == old(ingestion.jobs.fingerprints)
    {
      ok := ingestion.jobs.Save(ReusedResults.Reusing(job, result, at));
    }

    /** The job the message names is worth an attempt. */
    predicate Open(jobs: map<JobKey, Job>, task: Task) {
      var key := JobKey(task.tenant, task.job);
      && key in jobs
      && jobs[key].document == task.document
      && jobs[key].status != JobStatus.Succeeded
      && (jobs[key].status == JobStatus.Failed ==> Retryable(jobs[key].errorCode))
    }

    predicate Complete(job: Job) { job.modelAlias.Some? && job.pipelineVersion.Some? }

    function CommandFor(job: Job, pipeline: string, execution: string): IngestDocumentCommand
      requires Complete(job)
      reads this
    {
      IngestDocumentCommand(
        Protocol.Command(job.tenant, job.document, job.id, pipeline, job.modelAlias.value, job.pipelineVersion.value,
                         execution),
        32, if leaseTtlSeconds >= 0 then leaseTtlSeconds else 0)
    }

    /** The fingerprint that the job's message stands for now has been published by the given
        other job. */
    predicate PublishedByAnother(job: Job, result: Job, pipeline: string, execution: string)
      requires Complete(job)
      reads this, ingestion.documents, ingestion.jobs
    {
      var key := DocumentKey(job.tenant, job.document);
      && key in ingestion.documents.documents
      && Protocol.Ingestable(ingestion.documents.documents[key])
      && var document := ingestion.documents.documents[key];
      && document.Key() == key
      && var command := CommandFor(job, pipeline, execution);
      && ingestion.Previous(command, document) == Some(result)
      && result.fingerprint == Some(Protocol.FingerprintOf(document, command.ids))
      && result.id != job.id
    }

    /** What is done with the ways ingest can end; the message is acknowledged by the caller,
        and only on Handled. */
    method Conclude(task: Task, job: Job, ending: Ending, at: int) returns (exit: Exit)
      requires Valid() && JobsFiled(ingestion.jobs.jobs) && job.Key() == JobKey(task.tenant, task.job)
      requires ending.Succeeded? ==>
                 && job.Key() in ingestion.jobs.jobs && ingestion.jobs.jobs[job.Key()].status == JobStatus.Succeeded
                 && ending.job.id == job.id && ending.job.status == JobStatus.Succeeded
      requires ending.AlreadyDone? ==>
                 && ending.job.status == JobStatus.Succeeded
                 && (ending.job.id == job.id ==>
                       job.Key() in ingestion.jobs.jobs && ingestion.jobs.jobs[job.Key()].status == JobStatus.Succeeded)
      modifies ingestion.jobs
      ensures exit != Idle && JobsFiled(ingestion.jobs.jobs)
      ensures exit == Handled ==> Settled(ingestion.jobs.jobs, task)
      ensures exit == Postponed <==> ending == InProgress
      ensures exit == HeartbeatLost <==> ending == Cancelled
      ensures exit == UnexpectedError <==> ending == Conflict || ending == Escaped || ending.Unrecorded?
      ensures exit == UnexpectedError ==> ingestion.jobs.jobs == old(ingestion.jobs.jobs)
      ensures exit == Retry ==> job.Key() in ingestion.jobs.jobs
                                && ingestion.jobs.jobs[job.Key()].status == JobStatus.Failed
                                && Retryable(ingestion.jobs.jobs[job.Key()].errorCode)
      ensures ending.AlreadyDone? && ending.job.id != job.id ==>
                ReuseOutcome(exit, job, ending.job, at,
                             old(ingestion.jobs.Stale(ReusedResults.Reusing(job, ending.job, at))),
                             old(ingestion.jobs.jobs), ingestion.jobs.jobs)
    {
      match ending {
        case InProgress => exit := Postponed;
        case Conflict => exit := UnexpectedError;
        case Escaped => exit := UnexpectedError;
        case Unrecorded(_) => exit := UnexpectedError;
        case Cancelled => exit := HeartbeatLost;
        case NotFound =>
          var ok := FailJob(job, "DOCUMENT_NOT_INGESTABLE", at);
          exit := if ok then Handled else SaveRejected;
        case NotReady =>
          var ok := FailJob(job, "DOCUMENT_NOT_INGESTABLE", at);
          exit := if ok then Handled else SaveRejected;
        case AlreadyDone(result) => exit := Reuse(job, result, at);
        case Succeeded(_, result) => exit := Reuse(job, result, at);
        case Failed(_, failure) =>
          exit := AfterFailure(job, failure == RepositoryConflict || failure == Unexpected, at);
      }
    }

    /** The result of another job is recorded and the message done with, or the save is
        refused and nothing changes. */
    predicate ReuseOutcome(exit: Exit, job: Job, result: Job, at: int, stale: bool, before: map<JobKey, Job>,
                           after: map<JobKey, Job>) {
      if stale then exit == SaveRejected && after == before
      else exit == Handled && after == before[job.Key() := ReusedResults.Reusing(job, result, at)]
    }

    method Reuse(job: Job, result: Job, at: int) returns (exit: Exit)
      requires JobsFiled(ingestion.jobs.jobs) && result.status == JobStatus.Succeeded
      requires result.id == job.id ==>
                 job.Key() in ingestion.jobs.jobs && ingestion.jobs.jobs[job.Key()].status == JobStatus.Succeeded
      modifies ingestion.jobs
      ensures JobsFiled(ingestion.jobs.jobs)
      ensures exit == Handled || exit == SaveRejected
      ensures exit == Handled ==>
                job.Key() in ingestion.jobs.jobs && ingestion.jobs.jobs[job.Key()].status == JobStatus.Succeeded
      ensures result.id != job.id ==>
                ReuseOutcome(exit, job, result, at, old(ingestion.jobs.Stale(ReusedResults.Reusing(job, result, at))),
                             old(ingestion.jobs.jobs), ingestion.jobs.jobs)
    {
      if result.id == job.id {
        return Handled;
      }
      var ok := SaveReusedResult(job, result, at);
      exit := if ok then Handled else SaveRejected;
    }

    /** The two except branches that look at the stored job again; wrapped says which. */
    method AfterFailure(job: Job, wrapped: bool, at: int) returns (exit: Exit)
      requires JobsFiled(ingestion.jobs.jobs)
      modifies ingestion.jobs
      ensures JobsFiled(ingestion.jobs.jobs)
      ensures exit == Handled || exit == Retry || exit == SaveRejected
      ensures exit == Handled ==> job.Key() in ingestion.jobs.jobs && Finished(ingestion.jobs.jobs[job.Key()])
      ensures exit == Retry ==> job.Key() in ingestion.jobs.jobs
                                && ingestion.jobs.jobs[job.Key()].status == JobStatus.Failed
                                && Retryable(ingestion.jobs.jobs[job.Key()].errorCode)
    {
      var known := job.Key() in ingestion.jobs.jobs;
      if known {
        var current := ingestion.jobs.jobs[job.Key()];
        if wrapped && current.status == JobStatus.Failed && Retryable(current.errorCode) {
          return Retry;
        }
        if current.status != JobStatus.Pending && current.status != JobStatus.Running {
          return Handled;
        }
        var ok := FailJob(current, "INGESTION_FAILED", at);
        return if !ok then SaveRejected else if wrapped then Retry else Handled;
      }
      var ok := FailJob(job, "INGESTION_FAILED", at);
      exit := if !ok then SaveRejected else if wrapped then Retry else Handled;
    }

    /** A message is acknowledged exactly when run_once answers True, and then there is
        nothing left to do for it: its job is absent, belongs to another document, or is
        stored as succeeded or failed.  No other end acknowledges anything: not one by a lost
        heartbeat, wherever it finds the ingestion, nor the refusal to record the result of
        another job, which is met exactly by a job that was claimed before. */
    method RunOnce(received: Option<ReceivedTask>, extraction: Extraction, clock: Clock, trouble: Trouble,
                   outage: Outage, at: int, pipeline: string, execution: string)
      returns (exit: Exit)
      requires Valid() && Known(ingestion.Contents()) && JobsFiled(ingestion.jobs.jobs)
      modifies queue, ingestion.documents, ingestion.jobs, ingestion.leases, ingestion.generations, ingestion.chunks,
               ingestion.vectors, ingestion.embeddings
      ensures Valid() && Known(ingestion.Contents()) && JobsFiled(ingestion.jobs.jobs)
      ensures exit == Idle <==> received.None?
      ensures queue.acknowledged ==
                if exit == Handled then old(queue.acknowledged) + [received.value] else old(queue.acknowledged)
      ensures exit == Handled ==> Settled(ingestion.jobs.jobs, received.value.task)
      ensures received.Some? && !Open(old(ingestion.jobs.jobs), received.value.task) ==>
                exit == Handled && ingestion.Contents() == old(ingestion.Contents())
      ensures received.Some? && Open(old(ingestion.jobs.jobs), received.value.task) ==>
                var job := old(ingestion.jobs.jobs)[JobKey(received.value.task.tenant, received.value.task.job)];
                forall result :: Complete(job) && old(PublishedByAnother(job, result, pipeline, execution)) ==>
                  || exit == HeartbeatLost
                  || (outage.AtLookUp? && exit == UnexpectedError && ingestion.jobs.jobs == old(ingestion.jobs.jobs))
                  || (!outage.AtLookUp? && ReuseOutcome(exit, job, result, at, job.fencingToken.Some?,
                                                        old(ingestion.jobs.jobs), ingestion.jobs.jobs))
    {
      if received.None? {
        return Idle;
      }
      var task := received.value.task;
      var key := JobKey(task.tenant, task.job);
      if !Open(ingestion.jobs.jobs, task) {
        queue.Acknowledge(received.value);
        return Handled;
      }
      var job := ingestion.jobs.jobs[key];
      if job.modelAlias.None? || job.pipelineVersion.None? {
        ghost var w := ingestion.Contents();
        var ok := FailJob(job, "INVALID_PENDING_JOB", at);
        KnownWithoutJobs(w, ingestion.Contents());
        exit := if ok then Handled else SaveRejected;
      } else {
        exit := Execute(received.value, job, extraction, clock, trouble, outage, at, pipeline, execution);
      }
      if exit == Handled {
        queue.Acknowledge(received.value);
      }
    }

    /** One ingestion with a heartbeat beside it. */
    method IngestWithHeartbeat(received: ReceivedTask, job: Job, extraction: Extraction, clock: Clock, trouble: Trouble,
                               outage: Outage, pipeline: string, execution: string)
      returns (ending: Ending)
      requires Valid() && Known(ingestion.Contents()) && JobsFiled(ingestion.jobs.jobs) && Complete(job)
      modifies queue`extended, ingestion.documents, ingestion.jobs, ingestion.leases, ingestion.generations,
               ingestion.chunks, ingestion.vectors, ingestion.embeddings
      ensures Known(ingestion.Contents()) && JobsFiled(ingestion.jobs.jobs)
      ensures ending.Succeeded? ==>
                && job.Key() in ingestion.jobs.jobs && ingestion.jobs.jobs[job.Key()].status == JobStatus.Succeeded
                && ending.job.id == job.id && ending.job.status == JobStatus.Succeeded
      ensures ending.AlreadyDone? ==>
                && ending.job.status == JobStatus.Succeeded && ending.job.tenant == job.tenant
                && (ending.job.id == job.id ==>
                      job.Key() in ingestion.jobs.jobs && ingestion.jobs.jobs[job.Key()].status == JobStatus.Succeeded)
      ensures forall result :: old(PublishedByAnother(job, result, pipeline, execution)) ==>
                || ending == Cancelled
                || (outage.AtLookUp? && ending == Escaped && ingestion.jobs.jobs == old(ingestion.jobs.jobs))
                || (&& !outage.AtLookUp? && ending == AlreadyDone(result)
                    && ingestion.jobs.jobs == old(ingestion.jobs.jobs)
                    && ingestion.jobs.fingerprints == old(ingestion.jobs.fingerprints))
    {
      var heart := new Heartbeat(queue, ingestion.jobs, ingestion.leases, received, job, execution, leaseTtlSeconds);
      ending := IngestAndMatch(CommandFor(job, pipeline, execution), extraction, clock, trouble, outage, heart);
    }

    method IngestAndMatch(command: IngestDocumentCommand, extraction: Extraction, clock: Clock, trouble: Trouble,
                          outage: Outage, heart: Heartbeat)
      returns (ending: Ending)
      requires ingestion.Wired() && ingestion.Beside(heart) && command.Valid()
      requires Known(ingestion.Contents()) && JobsFiled(ingestion.jobs.jobs)
      modifies heart.queue`extended, ingestion.documents, ingestion.jobs, ingestion.leases, ingestion.generations,
               ingestion.chunks, ingestion.vectors, ingestion.embeddings
      ensures Known(ingestion.Contents())
      ensures JobsMatch(old(ingestion.Contents()), ingestion.Contents(), command, outage, ending)
      ensures ending.AlreadyDone? ==>
                HandedOut(old(ingestion.jobs.jobs), command.ids.tenant, ending.job)
                && ending.job.status == JobStatus.Succeeded
                && ingestion.jobs.fingerprints == old(ingestion.jobs.fingerprints)
      ensures old(ingestion.Foreseen(command, outage)).Some? ==>
                ending == Cancelled || ending == old(ingestion.Foreseen(command, outage)).value
    {
      ghost var w := ingestion.Contents();
      ghost var batch, answers, records;
      ending, batch, answers, records := ingestion.Ingest(command, extraction, clock, trouble, outage, heart);
      JobsAfterIngest(w, ingestion.Contents(), heart.Key(), command, extraction, clock, ingestion.SettingsOf(),
                      trouble, outage, ending, batch, answers, records);
    }

    /** One ingestion with a heartbeat beside it, and what follows from its end. */
    method Execute(received: ReceivedTask, job: Job, extraction: Extraction, clock: Clock, trouble: Trouble,
                   outage: Outage, at: int, pipeline: string, execution: string)
      returns (exit: Exit)
      requires Valid() && Known(ingestion.Contents()) && JobsFiled(ingestion.jobs.jobs)
      requires job.Key() == JobKey(received.task.tenant, received.task.job) && Complete(job)
      modifies queue`extended, ingestion.documents, ingestion.jobs, ingestion.leases, ingestion.generations,
               ingestion.chunks, ingestion.vectors, ingestion.embeddings
      ensures Known(ingestion.Contents()) && JobsFiled(ingestion.jobs.jobs) && exit != Idle
      ensures exit == Handled ==> Settled(ingestion.jobs.jobs, received.task)
      ensures forall result :: old(PublishedByAnother(job, result, pipeline, execution)) ==>
                || exit == HeartbeatLost
                || (outage.AtLookUp? && exit == UnexpectedError && ingestion.jobs.jobs == old(ingestion.jobs.jobs))
                || (!outage.AtLookUp? && ReuseOutcome(exit, job, result, at, job.fencingToken.Some?,
                                                      old(ingestion.jobs.jobs), ingestion.jobs.jobs))
    {
      var ending := IngestWithHeartbeat(received, job, extraction, clock, trouble, outage, pipeline, execution);
      ghost var inside := ingestion.Contents();
      if ending.AlreadyDone? && ending.job.fingerprint.Some? && ending.job.id != job.id
         && ingestion.jobs.Owner(MarkerKey(ending.job.tenant, ending.job.fingerprint.value)) == Some(ending.job) {
        ReuseIsStaleIffClaimed(ingestion.jobs, job, ending.job, at);
      }
      exit := Conclude(received.task, job, ending, at);
      KnownWithoutJobs(inside, ingestion.Contents());
    }
  }
}
