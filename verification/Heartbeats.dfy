/** The heartbeat that runs beside an ingestion (DocumentIngestionWorker._heartbeat): it
    prolongs the lease and the message's visibility until it fails or is cancelled. */
module Heartbeats {
  import opened Entities
  import opened InMemoryStores
  import Leases = InMemoryLeases

  datatype Task = Task(tenant: string, document: string, job: string)

  datatype ReceivedTask = ReceivedTask(task: Task, receipt: nat)

  class IngestionTaskQueue {
    var acknowledged: seq<ReceivedTask>
    var extended: seq<ReceivedTask>

    constructor ()
      ensures acknowledged == [] && extended == []
    {
      acknowledged, extended := [], [];
    }

    method Acknowledge(received: ReceivedTask)
      modifies this`acknowledged
      ensures acknowledged == old(acknowledged) + [received]
    {
      acknowledged := acknowledged + [received];
    }

    /** A foreign call that may raise. */
    method ExtendVisibility(received: ReceivedTask) returns (ok: bool)
      modifies this`extended
      ensures extended == if ok then old(extended) + [received] else old(extended)
    {
      ok := *;
      if ok {
        extended := extended + [received];
      }
    }
  }

  // ---------------------------------------------------------------- what renewals leave alone

  /** The store with another expiry of one lease. */
  function Prolonged(s: Leases.Store, key: LeaseKey, expiresAt: int): Leases.Store {
    if key in s.leases then s.(leases := s.leases[key := s.leases[key].(expiresAt := expiresAt)]) else s
  }

  /** Nothing but the expiry of one lease changed. */
  ghost predicate RenewedAt(s: Leases.Store, s': Leases.Store, key: LeaseKey) {
    exists expiresAt :: s' == Prolonged(s, key, expiresAt)
  }

  lemma NotRenewed(s: Leases.Store, key: LeaseKey)
    ensures RenewedAt(s, s, key)
  {
    if key in s.leases {
      assert s.leases[key := s.leases[key].(expiresAt := s.leases[key].expiresAt)] == s.leases;
      assert s == Prolonged(s, key, s.leases[key].expiresAt);
    } else {
      assert s == Prolonged(s, key, 0);
    }
  }

  lemma RenewedTwice(s: Leases.Store, t: Leases.Store, u: Leases.Store, key: LeaseKey)
    requires RenewedAt(s, t, key) && RenewedAt(t, u, key)
    ensures RenewedAt(s, u, key)
  {
    var e :| t == Prolonged(s, key, e);
    var f :| u == Prolonged(t, key, f);
    if key in s.leases {
      assert s.leases[key := s.leases[key].(expiresAt := e)][key := s.leases[key].(expiresAt := f)]
          == s.leases[key := s.leases[key].(expiresAt := f)];
    }
    assert u == Prolonged(s, key, f);
  }

  lemma RenewalIsRenewed(s: Leases.Store, c: Leases.Call)
    requires c.Renew?
    ensures RenewedAt(s, Leases.Effect(s, c), c.key)
  {
    NotRenewed(s, c.key);
    if Leases.Holds(s, c) {
      assert Leases.Effect(s, c) == Prolonged(s, c.key, c.expiresAt);
    }
  }

  function Copies(received: ReceivedTask, n: nat): (s: seq<ReceivedTask>)
    ensures |s| == n && forall i :: 0 <= i < n ==> s[i] == received
  {
    seq(n, i requires 0 <= i < n => received)
  }

  // ---------------------------------------------------------------- the loop

  class Heartbeat {
    const queue: IngestionTaskQueue
    const jobs: InMemoryIngestionJobRepository
    const leases: Leases.InMemoryDocumentIngestionLeaseRepository
    const received: ReceivedTask
    const job: Job
    const execution: string
    const leaseTtlSeconds: int

    constructor (queue: IngestionTaskQueue, jobs: InMemoryIngestionJobRepository,
                 leases: Leases.InMemoryDocumentIngestionLeaseRepository, received: ReceivedTask, job: Job,
                 execution: string, leaseTtlSeconds: int)
      ensures this.queue == queue && this.jobs == jobs && this.leases == leases && this.received == received
      ensures this.job == job && this.execution == execution && this.leaseTtlSeconds == leaseTtlSeconds
    {
      this.queue, this.jobs, this.leases, this.received := queue, jobs, leases, received;
      this.job, this.execution, this.leaseTtlSeconds := job, execution, leaseTtlSeconds;
    }

    function Key(): LeaseKey { LeaseKey(job.tenant, job.document, job.sourceVersion) }

    /** The job is stored as running under some token. */
    predicate Established()
      reads jobs
    {
      && job.Key() in jobs.jobs
      && jobs.jobs[job.Key()].status == JobStatus.Running
      && jobs.jobs[job.Key()].fencingToken.Some?
    }

    /** The renewal that a turn at time now asks for. */
    function Renewal(now: int): Leases.Call
      requires Established()
      reads jobs
    {
      Leases.Call.Renew(Key(), job.id, jobs.jobs[job.Key()].fencingToken.value, execution, now + leaseTtlSeconds, now)
    }

    ghost predicate Renewable(now: int)
      reads jobs, leases
    {
      Established() && Leases.Holds(leases.Contents(), Renewal(now))
    }

    /** One turn: without a running job or a lease to renew the heartbeat is lost, and nothing
        changes; otherwise the lease is prolonged, and then the message's visibility. */
    method Turn(now: int) returns (lost: bool)
      modifies leases`leases, queue`extended
      ensures !old(Renewable(now)) ==>
                lost && leases.Contents() == old(leases.Contents()) && queue.extended == old(queue.extended)
      ensures old(Renewable(now)) ==> leases.Contents() == Leases.Effect(old(leases.Contents()), old(Renewal(now)))
      ensures queue.extended == if lost then old(queue.extended) else old(queue.extended) + [received]
      ensures RenewedAt(old(leases.Contents()), leases.Contents(), Key())
    {
      NotRenewed(leases.Contents(), Key());
      if job.Key() !in jobs.jobs {
        return true;
      }
      var current := jobs.jobs[job.Key()];
      if current.status != JobStatus.Running || current.fencingToken.None? {
        return true;
      }
      RenewalIsRenewed(leases.Contents(), Renewal(now));
      var renewed := leases.Renew(Key(), job.id, current.fencingToken.value, execution, now + leaseTtlSeconds, now);
      if !renewed {
        return true;
      }
      var ok := queue.ExtendVisibility(received);
      lost := !ok;
    }

    /** The loop, at the given times, until a turn fails or the times are used up.  It changes
        nothing but the expiry of the job's own lease, and extends the message's visibility
        once for every turn that did not fail. */
    method Run(clock: seq<int>) returns (lost: bool, turns: nat)
      modifies leases`leases, queue`extended
      ensures turns <= |clock| && (lost <==> turns < |clock|)
      ensures queue.extended == old(queue.extended) + Copies(received, turns)
      ensures RenewedAt(old(leases.Contents()), leases.Contents(), Key())
      ensures clock != [] && !old(Renewable(clock[0])) ==>
                lost && turns == 0 && leases.Contents() == old(leases.Contents())
    {
      NotRenewed(leases.Contents(), Key());
      turns := 0;
      ghost var before := leases.Contents();
      while turns < |clock|
        invariant turns <= |clock|
        invariant queue.extended == old(queue.extended) + Copies(received, turns)
        invariant RenewedAt(before, leases.Contents(), Key())
        invariant turns == 0 ==> leases.Contents() == before
        invariant turns > 0 ==> old(Renewable(clock[0]))
      {
        ghost var now := leases.Contents();
        lost := Turn(clock[turns]);
        RenewedTwice(before, now, leases.Contents(), Key());
        if lost {
          return;
        }
        assert Copies(received, turns) + [received] == Copies(received, turns + 1);
        turns := turns + 1;
      }
      lost := false;
    }
  }
}
