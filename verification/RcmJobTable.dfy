/** The queues of an RcmServer as the server really keeps them: a list of job stream objects that
  * is searched under the instance gate, and a ready queue and a semaphore count for each pool.
  * Every method is one critical section; its contract is the scheduler step of the same name. */
module RcmJobTable {
  import opened Counting
  import opened RcmJobIds
  import S = RcmScheduler

  class JobStream {
    const jobId: nat
    var empty: bool
    var msgQue: seq<S.Packet>

    constructor (jobId: nat)
      ensures this.jobId == jobId && empty && msgQue == []
    {
      this.jobId := jobId;
      empty := true;
      msgQue := [];
    }

    function Value(): S.Job
      reads this
    {
      S.Job(empty, msgQue)
    }
  }

  ghost predicate Distinct<T>(s: seq<T>) {
    forall a, b :: 0 <= a < b < |s| ==> s[a] != s[b]
  }

  function RemoveAt<T>(s: seq<T>, k: nat): seq<T>
    requires k < |s|
  {
    s[..k] + s[k + 1..]
  }

  lemma RemoveAtRest<T>(s: seq<T>, k: nat)
    requires k < |s| && Distinct(s)
    ensures forall x :: x in RemoveAt(s, k) <==> x in s && x != s[k]
    ensures Distinct(RemoveAt(s, k))
  {
    var r := RemoveAt(s, k);
    assert forall a :: 0 <= a < |r| ==> r[a] == s[if a < k then a else a + 1];
    forall x | x in s && x != s[k] ensures x in r {
      var a :| 0 <= a < |s| && s[a] == x;
      assert r[if a < k then a else a - 1] == x;
    }
  }

  /** The list holds exactly the streams of the map, each once. */
  ghost predicate IsListed(jobList: seq<JobStream>, streams: map<nat, JobStream>) {
    && (forall k :: 0 <= k < |jobList| ==>
          jobList[k].jobId in streams && streams[jobList[k].jobId] == jobList[k])
    && (forall id :: id in streams ==> 1 <= id <= LAST_ID && streams[id].jobId == id && streams[id] in jobList)
    && Distinct(jobList)
  }

  lemma ListGrows(jobList: seq<JobStream>, streams: map<nat, JobStream>, job: JobStream)
    requires IsListed(jobList, streams) && job.jobId !in streams && 1 <= job.jobId <= LAST_ID
    ensures IsListed(jobList + [job], streams[job.jobId := job])
  {
    var more := jobList + [job];
    assert more[|jobList|] == job;
    forall id | id in streams ensures streams[id] in more {
      var k :| 0 <= k < |jobList| && jobList[k] == streams[id];
      assert more[k] == streams[id];
    }
    assert forall k :: 0 <= k < |jobList| ==> jobList[k] != job;
  }

  lemma ListShrinks(jobList: seq<JobStream>, streams: map<nat, JobStream>, k: nat)
    requires IsListed(jobList, streams) && k < |jobList|
    ensures IsListed(RemoveAt(jobList, k), streams - {jobList[k].jobId})
  {
    RemoveAtRest(jobList, k);
    var rest := RemoveAt(jobList, k);
    forall l | 0 <= l < |rest| ensures rest[l] in jobList && rest[l] != jobList[k] {
      assert rest[l] in rest;
    }
  }

  class ServerQueues {
    var jobId: nat
    var jobList: seq<JobStream>
    const readyQueue: array<seq<S.Packet>>
    const sem: array<nat>

    ghost var streams: map<nat, JobStream>  // the listed objects by job id

    ghost predicate Listed()
      reads `jobList, `streams
    {
      IsListed(jobList, streams)
    }

    ghost predicate Valid()
      reads `jobId, `jobList, `streams
    {
      jobId <= LAST_ID && Listed()
    }

    ghost function Jobs(): map<nat, S.Job>
      reads `jobList, `streams, jobList
      requires Listed()
    {
      map id | id in streams :: streams[id].Value()
    }

    ghost function View(): S.Queues
      reads `jobList, `streams, jobList, readyQueue, sem
      requires Listed()
    {
      S.Queues(Jobs(), readyQueue[..], sem[..])
    }

    constructor (pools: nat)
      ensures Valid() && fresh(readyQueue) && fresh(sem)
      ensures View() == S.Queues(map[], seq(pools, _ => []), seq(pools, _ => 0))
    {
      jobId := LAST_ID;
      jobList := [];
      streams := map[];
      readyQueue := new seq<S.Packet>[pools](_ => []);
      sem := new nat[pools](_ => 0);
    }

    /** Walks the job list. */
    method FindJob(id: nat) returns (k: nat)
      requires Listed()
      ensures k <= |jobList|
      ensures id in streams <==> k < |jobList|
      ensures k < |jobList| ==> jobList[k] == streams[id]
    {
      k := 0;
      while k < |jobList|
        invariant k <= |jobList|
        invariant forall l :: 0 <= l < k ==> jobList[l].jobId != id
      {
        if jobList[k].jobId == id {
          return;
        }
        k := k + 1;
      }
    }

    /** RcmServer_dispatch_P up to the semaphore post. */
    method Dispatch(p: S.Packet) returns (v: S.Verdict)
      requires Valid()
      modifies jobList, readyQueue
      ensures Valid() && jobList == old(jobList)
      ensures (View(), v) == S.Dispatch(old(View()), p)
    {
      var pool := p.poolId % 0x100;
      if pool >= readyQueue.Length {
        return S.Reject(S.POOL_NOT_FOUND);
      }
      if p.jobId == S.DISCRETE_JOB_ID {
        readyQueue[pool] := readyQueue[pool] + [p];
        return S.OnReady(pool);
      }
      var k := FindJob(p.jobId);
      if k == |jobList| {
        return S.Reject(S.JOB_NOT_FOUND);
      }
      var job := jobList[k];
      if job.empty {
        job.empty := false;
        readyQueue[pool] := readyQueue[pool] + [p];
        v := S.OnReady(pool);
      } else {
        job.msgQue := job.msgQue + [p];
        v := S.Parked;
      }
      assert Jobs() == old(Jobs())[p.jobId := job.Value()];
    }

    /** Semaphore_post on a pool. */
    method Post(pool: nat)
      requires Valid() && pool < sem.Length
      modifies sem
      ensures Valid() && View() == S.Post(old(View()), pool)
    {
      sem[pool] := sem[pool] + 1;
    }

    /** Puts the job's next message on the ready queue of its pool. */
    method PassOn(p: S.Packet) returns (h: S.Handover)
      modifies readyQueue
      ensures var pool := p.poolId % 0x100;
        if pool < readyQueue.Length
        then h == S.Passed(pool, p) && readyQueue[..] == old(readyQueue[..])[pool := old(readyQueue[pool]) + [p]]
        else h == S.BadPool(p) && readyQueue[..] == old(readyQueue[..])
    {
      var pool := p.poolId % 0x100;
      if pool < readyQueue.Length {
        readyQueue[pool] := readyQueue[pool] + [p];
        h := S.Passed(pool, p);
      } else {
        h := S.BadPool(p);
      }
    }

    /** What a worker does under the gate after it processed a message of the job, up to the post. */
    method Finish(id: nat) returns (h: S.Handover)
      requires Valid()
      modifies jobList, readyQueue
      ensures Valid() && jobList == old(jobList)
      ensures (View(), h) == S.Finish(old(View()), id)
    {
      var k := FindJob(id);
      if k == |jobList| {
        return S.NoJob;
      }
      var job := jobList[k];
      if job.msgQue == [] {
        job.empty := true;
        h := S.Drained;
      } else {
        var p := job.msgQue[0];
        job.msgQue := job.msgQue[1..];
        h := PassOn(p);
      }
      assert Jobs() == old(Jobs())[id := job.Value()];
    }

    /** One step of the cyclic counter. */
    method Advance()
      requires jobId <= LAST_ID
      modifies `jobId
      ensures jobId == NextId(old(jobId)) <= LAST_ID
    {
      jobId := if jobId == LAST_ID then 1 else jobId + 1;
    }

    /** Once round the counter has shown every id, so all are taken. */
    lemma AllTaken(start: nat, n: nat)
      requires Listed() && start <= LAST_ID && n == LAST_ID
      requires forall m :: 1 <= m <= n ==> IdAfter(start, m) in streams
      ensures forall k :: 1 <= k <= LAST_ID ==> k in streams && k in View().jobs
    {
      forall k | 1 <= k <= LAST_ID ensures k in streams && k in View().jobs {
        var m := EveryIdVisited(start, k);
      }
    }

    /** The search loop of RcmServer_acqJobId_P: advance the counter until it shows a free id, at
      * most once round. */
    method NextFreeId() returns (id: nat, ghost n: nat)
      requires Valid()
      modifies `jobId
      ensures Valid()
      ensures View() == old(View()) && S.AcquiredId(View(), old(jobId), n, id)
      ensures id != 0 ==> 1 <= id <= LAST_ID && id !in streams
      ensures jobId == IdAfter(old(jobId), n)
    {
      ghost var start := jobId;
      n := 0;
      var count := LAST_ID;
      while count > 0
        invariant 0 <= count && count + n == LAST_ID
        invariant jobId == IdAfter(start, n) <= LAST_ID
        invariant forall m :: 1 <= m <= n ==> IdAfter(start, m) in streams
      {
        Advance();
        n := n + 1;
        assert jobId == IdAfter(start, n);
        var k := FindJob(jobId);
        if k == |jobList| {
          id := jobId;
          return;
        }
        count := count - 1;
      }
      AllTaken(start, n);
      id := 0;
    }

    /** RcmServer_acqJobId_P. Returns a job id that no live job has and opens its stream, or returns
      * zero and changes no job; the latter only when all 65535 ids are in use. */
    method AcqJobId() returns (id: nat)
      requires Valid()
      modifies this
      ensures Valid()
      ensures View() == if id == 0 then old(View()) else S.Acquire(old(View()), id)
      ensures exists n: nat :: S.AcquiredId(old(View()), old(jobId), n, id) && jobId == IdAfter(old(jobId), n)
    {
      ghost var n;
      id, n := NextFreeId();
      if id != 0 {
        OpenStream(id);
      }
    }

    /** Puts a new, empty job stream at the end of the list. */
    method OpenStream(id: nat)
      requires Valid() && id !in streams && 1 <= id <= LAST_ID
      modifies `jobList, `streams
      ensures Valid() && View() == S.Acquire(old(View()), id)
    {
      var job := new JobStream(id);
      ListGrows(jobList, streams, job);
      jobList := jobList + [job];
      streams := streams[id := job];
      assert Jobs() == old(Jobs())[id := S.Job(true, [])];
    }

    /** The part of RcmServer_relJobId_P under the gate: the job leaves the list and its queued
      * messages are the caller's to return. */
    method RelJobId(id: nat) returns (found: bool, rest: seq<S.Packet>)
      requires Valid()
      modifies this
      ensures Valid()
      ensures found <==> id in old(Jobs())
      ensures found ==> rest == old(Jobs())[id].queue
      ensures View() == S.Release(old(View()), id)
    {
      var k := FindJob(id);
      if k == |jobList| {
        assert Jobs() - {id} == Jobs();
        return false, [];
      }
      found, rest := true, jobList[k].msgQue;
      ListShrinks(jobList, streams, k);
      jobList := RemoveAt(jobList, k);
      streams := streams - {id};
      assert Jobs() == old(Jobs()) - {id};
    }
  }
}
