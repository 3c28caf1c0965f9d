/** What clients see of the scheduler: which pool a message goes to, when a message is refused, and what
  * each message is answered, stated in the numbers of the wire format. */
module RcmAnswers {
  import opened RcmJobIds
  import opened RcmScheduler
  import opened RcmLedger
  import opened RcmSchedulerProof
  import opened RcmSchedulerTheorems

  // ---------------------------------------------------------------- the right pool

  /** A message on a ready queue or with a worker is at the pool that the low eight bits of its id name. */
  predicate AtPool(s: State, u: nat)
    requires u < |s.received| == |s.place|
  {
    match s.place[u]
    case InReady(k) => k == s.received[u].poolId % 0x100
    case AtWorker(i) => i < |s.workers| && s.workers[i].pool == s.received[u].poolId % 0x100
    case _ => true
  }

  ghost predicate PoolInv(s: State) {
    && |s.place| == |s.received| && s.ids.counter <= LAST_ID
    && forall u: nat :: u < |s.received| ==> AtPool(s, u)
  }

  /** One packet goes to a place where it belongs. */
  lemma PoolMoved(s: State, s': State, p: Packet, w: Place)
    requires PoolInv(s) && s'.received == s.received && s'.place == At(s.place, p, w)
    requires |s'.workers| == |s.workers| && forall i :: 0 <= i < |s.workers| ==> s'.workers[i].pool == s.workers[i].pool
    requires s'.ids.counter <= LAST_ID
    requires p.uid < |s.received| ==> AtPool(s', p.uid)
    ensures PoolInv(s')
  {
    forall u: nat | u < |s'.received| ensures AtPool(s', u) {
      assert AtPool(s, u);
    }
  }

  lemma PoolStays(s: State, s': State)
    requires PoolInv(s) && s'.received == s.received && s'.place == s.place && s'.ids.counter <= LAST_ID
    requires |s'.workers| == |s.workers| && forall i :: 0 <= i < |s.workers| ==> s'.workers[i].pool == s.workers[i].pool
    ensures PoolInv(s')
  {
    forall u: nat | u < |s'.received| ensures AtPool(s', u) {
      assert AtPool(s, u);
    }
  }

  lemma PoolReceive(s: State, p: Packet)
    requires PoolInv(s)
    ensures PoolInv(ApplyReceive(s, p))
  {
    var s' := ApplyReceive(s, p);
    forall u: nat | u < |s'.received| ensures AtPool(s', u) {
      assert u < |s.received| ==> AtPool(s, u);
    }
  }

  lemma PoolDispatch(s: State)
    requires PoolInv(s) && CanDispatch(s) && ServerKnown(s)
    ensures PoolInv(ApplyDispatch(s))
  {
    if InBandOnly(s, s.server.p) {
      PoolStays(s, ApplyDispatch(s));
    } else {
      PoolMoved(s, ApplyDispatch(s), s.server.p, DispatchedTo(s));
    }
  }

  lemma PoolGet(s: State, i: nat)
    requires PoolInv(s) && PlaceInv(s) && CanGet(s, i)
    ensures PoolInv(ApplyGet(s, i))
  {
    var pool := s.workers[i].pool;
    if s.q.ready[pool] == [] {
      PoolStays(s, ApplyGet(s, i));
    } else {
      assert Known(s.received, s.place, Contents(s)(InReady(pool))[0], InReady(pool));
      var p := s.q.ready[pool][0];
      assert AtPool(s, p.uid);
      PoolMoved(s, ApplyGet(s, i), p, AtWorker(i));
    }
  }

  lemma PoolNext(s: State, i: nat)
    requires PoolInv(s) && PlaceInv(s) && CanTakeNext(s, i)
    ensures PoolInv(ApplyNextOfJob(s, i))
  {
    var j := s.workers[i].pc.jobId;
    var s' := ApplyNextOfJob(s, i);
    if j in s.q.jobs && s.q.jobs[j].queue != [] {
      QueueKnown(s, j);
      var p := s.q.jobs[j].queue[0];
      PoolMoved(s, s', p, s'.place[p.uid]);
    } else {
      PoolStays(s, s');
    }
  }

  lemma CounterBound(c: nat, n: nat)
    requires c <= LAST_ID
    ensures IdAfter(c, n) <= LAST_ID
  {
    if n > 0 {
      IdAfterClosed(c, n);
    }
  }

  lemma PoolProcess(s: State, t: Thread, out: Outcome)
    requires PoolInv(s) && PlaceInv(s) && CanProcess(s, t, out)
    ensures PoolInv(ApplyProcess(s, t, out))
  {
    var s' := ApplyProcess(s, t, out);
    var proc := ProcOf(s, t);
    CounterBound(s.ids.counter, out.turns);
    if Releases(s, t) {
      var rest := s.q.jobs[proc.p.arg].queue;
      AllAtEffect(s.place, rest, ComingBack(t));
      forall u: nat | u < |s'.received| ensures AtPool(s', u) {
        assert AtPool(s, u);
      }
    } else if HandsBack(s, t) {
      PoolMoved(s, s', proc.rest[0], Replied(UNPROCESSED));
    } else {
      PoolMoved(s, s', proc.p, Disposition(proc, out));
    }
  }

  lemma PoolStep(s: State, step: Step)
    requires Inv(s) && PoolInv(s) && Enabled(s, step)
    ensures PoolInv(Apply(s, step))
  {
    match step
    case Receive(p) => PoolReceive(s, p);
    case ServerDispatch => ServerIsKnown(s); PoolDispatch(s);
    case ServerPost => PoolStays(s, ApplyServerPost(s));
    case Pend(i) => PoolStays(s, ApplyPend(s, i));
    case Get(i) => PoolGet(s, i);
    case Process(t, out) => PoolProcess(s, t, out);
    case NextOfJob(i) => PoolNext(s, i);
    case WorkerPost(i) => PoolStays(s, ApplyWorkerPost(s, i));
  }

  lemma {:induction false} PoolRun(s: State, run: seq<Step>)
    requires Inv(s) && PoolInv(s) && Possible(s, run) && CleanRun(s, run)
    ensures PoolInv(After(s, run))
    decreases run
  {
    if run != [] {
      StepKeepsInv(s, run[0]);
      PoolStep(s, run[0]);
      PoolRun(Apply(s, run[0]), run[1..]);
    }
  }

  lemma ReachablePool(s: State)
    requires Reachable(s)
    ensures Inv(s) && PoolInv(s)
  {
    ReachableInv(s);
    var s0, run :| Initial(s0) && Possible(s0, run) && CleanRun(s0, run) && s == After(s0, run);
    InitialInv(s0);
    PoolRun(s0, run);
  }

  /** THEOREM. In every reachable state each message on a ready queue is on that of the pool its id names,
    * and each message a worker holds is held by a worker of that pool. */
  lemma RightPool(s: State)
    requires Reachable(s)
    ensures forall k: nat, p :: k < |s.q.ready| && p in s.q.ready[k] ==> p.poolId % 0x100 == k
    ensures forall i: nat :: i < |s.workers| && s.workers[i].pc.Busy? ==>
      s.workers[i].pool == s.workers[i].pc.proc.p.poolId % 0x100
  {
    ReachablePool(s);
    forall k: nat, p | k < |s.q.ready| && p in s.q.ready[k] ensures p.poolId % 0x100 == k {
      var n :| 0 <= n < |s.q.ready[k]| && s.q.ready[k][n] == p;
      assert Known(s.received, s.place, Contents(s)(InReady(k))[n], InReady(k));
      assert AtPool(s, p.uid);
    }
    forall i: nat | i < |s.workers| && s.workers[i].pc.Busy?
      ensures s.workers[i].pool == s.workers[i].pc.proc.p.poolId % 0x100
    {
      assert Known(s.received, s.place, Contents(s)(AtWorker(i))[0], AtWorker(i));
      assert AtPool(s, s.workers[i].pc.proc.p.uid);
    }
  }

  // ---------------------------------------------------------------- dispatch

  /** THEOREM. A message for the default pool is taken in-band exactly when that pool has no worker. */
  lemma InBandIff(s: State)
    requires Reachable(s) && Enabled(s, ServerDispatch)
    ensures var (p, s') := (s.server.p, Apply(s, ServerDispatch));
      && (s'.server == InBand(Run(p)) <==>
            (p.poolId == 0x8000 && forall i :: 0 <= i < |s.workers| ==> s.workers[i].pool != 0))
      && (s'.server.InBand? ==> s' == s.(server := InBand(Run(p))))
  {
  }

  /** THEOREM. A message is refused as "pool not found", status 8, exactly when the offset its pool id
    * names is past the pools, and as "job not found", status 7, exactly when there is such a pool but no
    * live job of its id. It goes to the end of its pool's ready queue exactly when it is discrete or its job
    * is marked empty, which it is not from then on, and to the end of the job's queue otherwise; only in
    * the former case is a semaphore posted, that of the pool. */
  lemma DispatchAnswers(s: State)
    requires Reachable(s) && Enabled(s, ServerDispatch) && !Apply(s, ServerDispatch).server.InBand?
    ensures var (p, s') := (s.server.p, Apply(s, ServerDispatch));
      && p.uid < |s.place| == |s'.place|
      && var (k, w) := (p.poolId % 0x100, s'.place[p.uid]);
      && s'.place == s.place[p.uid := w] && s'.q.sem == s.q.sem
      && (w == Replied(8) <==> k >= |s.q.ready|)
      && (w == Replied(7) <==> k < |s.q.ready| && p.jobId != 0 && p.jobId !in s.q.jobs)
      && (w == InReady(k) <==>
            (k < |s.q.ready| && (p.jobId == 0 || (p.jobId in s.q.jobs && s.q.jobs[p.jobId].empty))))
      && (w == InJob(p.jobId) <==>
            (k < |s.q.ready| && p.jobId != 0 && p.jobId in s.q.jobs && !s.q.jobs[p.jobId].empty))
      && (w.Replied? ==> s'.q == s.q && s'.server == Waiting)
      && (w.InReady? ==>
            && s'.q.ready == s.q.ready[k := s.q.ready[k] + [p]] && s'.server == Posting(k, p.jobId != 0)
            && (p.jobId == 0 ==> s'.q.jobs == s.q.jobs)
            && (p.jobId != 0 ==> s'.q.jobs == s.q.jobs[p.jobId := Job(false, s.q.jobs[p.jobId].queue)]))
      && (w.InJob? ==>
            && s'.q.ready == s.q.ready && s'.server == Waiting
            && s'.q.jobs == s.q.jobs[p.jobId := Job(false, s.q.jobs[p.jobId].queue + [p])])
  {
    ReachableInv(s);
    ServerIsKnown(s);
    var p := s.server.p;
    assert p.jobId in s.q.jobs ==> JobOk(p.jobId, s.q.jobs[p.jobId], |s.q.ready|);
  }

  /** THEOREM. After a message of a job, a worker puts the job's next message, if it has one, onto the ready
    * queue of the pool that message names; otherwise the job, if it is still live, is marked empty. */
  lemma NextAnswers(s: State, i: nat)
    requires Reachable(s) && Enabled(s, NextOfJob(i))
    ensures var (j, s') := (s.workers[i].pc.jobId, Apply(s, NextOfJob(i)));
      && s'.q.sem == s.q.sem && |s'.workers| == |s.workers|
      && if j !in s.q.jobs then s'.q == s.q && s'.workers[i].pc == Idle
         else if s.q.jobs[j].queue == [] then
           s'.q.jobs == s.q.jobs[j := Job(true, [])] && s'.q.ready == s.q.ready && s'.workers[i].pc == Idle
         else
           var (p, k) := (s.q.jobs[j].queue[0], s.q.jobs[j].queue[0].poolId % 0x100);
           && k < |s.q.ready| && p.uid < |s'.place| && s'.place[p.uid] == InReady(k)
           && s'.q.jobs == s.q.jobs[j := Job(false, s.q.jobs[j].queue[1..])]
           && s'.q.ready == s.q.ready[k := s.q.ready[k] + [p]] && s'.workers[i].pc == Passing(k)
  {
    ReachableInv(s);
    var j := s.workers[i].pc.jobId;
    if j in s.q.jobs && s.q.jobs[j].queue != [] {
      assert JobOk(j, s.q.jobs[j], |s.q.ready|);
      QueueKnown(s, j);
    }
  }

  // ---------------------------------------------------------------- answers

  /** A message in hand that is not a release of a live job is completed by the next step of its thread. */
  ghost predicate Completing(s: State, t: Thread, out: Outcome) {
    && Enabled(s, Process(t, out)) && ProcOf(s, t).Run?
    && (ProcOf(s, t).p.kind.JobRel? ==> ProcOf(s, t).p.arg !in s.q.jobs)
  }

  /** Where the completed message is afterwards. */
  ghost function Answer(s: State, t: Thread, out: Outcome): Place
    requires Completing(s, t, out)
  {
    var p := ProcOf(s, t).p;
    var place := Apply(s, Process(t, out)).place;
    if p.uid < |place| then place[p.uid] else AtServer
  }

  /** THEOREM. An RCM message goes back with status 0 exactly when its function was found and returned no
    * error, 1 when it was not found, and 4 when it returned an error; a one-way command is freed in the
    * first case and goes back with 1 or 4 in the others. */
  lemma CallAnswers(s: State, t: Thread, out: Outcome)
    requires Reachable(s) && Completing(s, t, out)
    ensures var (kind, w) := (ProcOf(s, t).p.kind, Answer(s, t, out));
      && (kind.RcmMsg? ==>
            && (w == Replied(0) <==> out.found && out.result >= 0)
            && (w == Replied(1) <==> !out.found)
            && (w == Replied(4) <==> out.found && out.result < 0))
      && (kind.Cmd? ==>
            && (w == Freed <==> out.found && out.result >= 0)
            && (w == Replied(1) <==> !out.found)
            && (w == Replied(4) <==> out.found && out.result < 0))
  {
    ReachableInv(s);
    HandKnown(s, t);
  }

  /** THEOREM. A symbol query goes back with status 0 exactly when the symbol was found and 2 when it was not;
    * a deferred call goes back with 2 either way, its type being 2 as well; SYM_ADD and unknown types are
    * not answered. */
  lemma QueryAnswers(s: State, t: Thread, out: Outcome)
    requires Reachable(s) && Completing(s, t, out)
    ensures var (kind, w) := (ProcOf(s, t).p.kind, Answer(s, t, out));
      && (kind.SymIdx? ==> (w == Replied(0) <==> out.found) && (w == Replied(2) <==> !out.found))
      && (kind.Dpc? ==> w == Replied(2))
      && (kind.SymAdd? || kind.Unknown? ==> w == Dropped)
  {
    ReachableInv(s);
    HandKnown(s, t);
  }

  /** The search ends without an id only when there is none. */
  lemma NoneLeft(q: Queues, counter: nat, n: nat, id: nat)
    requires counter <= LAST_ID && AcquiredId(q, counter, n, id)
    ensures id == 0 <==> forall k :: 1 <= k <= 0xFFFF ==> k in q.jobs
    ensures id != 0 ==> 1 <= id <= 0xFFFF && id !in q.jobs
  {
    CounterBound(counter, n);
    IdAfterClosed(counter, n);
    if id == 0 {
      forall k | 1 <= k <= 0xFFFF ensures k in q.jobs {
        var m := EveryIdVisited(counter, k);
      }
    }
  }

  /** THEOREM. A job request goes back with status 0 exactly when a job was opened for it, under an id that
    * no job had and with nothing queued, and with 5, changing no job, exactly when all 65535 ids were in use. */
  lemma AcquireAnswers(s: State, t: Thread, out: Outcome)
    requires Reachable(s) && Completing(s, t, out) && ProcOf(s, t).p.kind.JobAcq?
    ensures var (w, s') := (Answer(s, t, out), Apply(s, Process(t, out)));
      && (w == Replied(0) <==> !(forall k :: 1 <= k <= 0xFFFF ==> k in s.q.jobs))
      && (w == Replied(5) <==> forall k :: 1 <= k <= 0xFFFF ==> k in s.q.jobs)
      && (w == Replied(0) ==>
            && 1 <= out.newId <= 0xFFFF && out.newId !in s.q.jobs
            && s'.q == s.q.(jobs := s.q.jobs[out.newId := Job(true, [])]))
      && (w == Replied(5) ==> s'.q == s.q)
  {
    ReachablePool(s);
    HandKnown(s, t);
    NoneLeft(s.q, s.ids.counter, out.turns, out.newId);
  }

  /** THEOREM. No other message opens or ends a job or moves another message, and the thread goes on: the
    * server waits for the next message, a worker looks at the job of the message, if it had one. */
  lemma OthersLeaveJobs(s: State, t: Thread, out: Outcome)
    requires Reachable(s) && Completing(s, t, out)
    ensures var (p, s') := (ProcOf(s, t).p, Apply(s, Process(t, out)));
      && (!p.kind.JobAcq? ==> s'.q == s.q)
      && p.uid < |s.place| && s'.place == s.place[p.uid := Answer(s, t, out)]
      && (t.Server? ==> s'.server == Waiting && s'.workers == s.workers)
      && (t.OfPool? ==>
            && t.i < |s.workers| == |s'.workers|
            && s'.workers[t.i].pc == if p.jobId == 0 then Idle else Finishing(p.jobId))
  {
    ReachableInv(s);
    HandKnown(s, t);
  }

  /** THEOREM. A release goes back at once, with status 7, exactly when the job it names is not live.
    * Otherwise that job and no other is live no more, and the thread has the messages queued on it in hand,
    * in order. */
  lemma ReleaseAnswers(s: State, t: Thread, out: Outcome)
    requires Reachable(s) && Enabled(s, Process(t, out)) && ProcOf(s, t).Run? && ProcOf(s, t).p.kind.JobRel?
    ensures var (p, s') := (ProcOf(s, t).p, Apply(s, Process(t, out)));
      && p.uid < |s.place| == |s'.place|
      && (s'.place[p.uid] == Replied(7) <==> p.arg !in s.q.jobs)
      && (p.arg in s.q.jobs ==>
            && s'.q == s.q.(jobs := s.q.jobs - {p.arg}) && s'.place[p.uid] == HandOf(t)
            && Processing(s', t) && ProcOf(s', t) == Returning(p, s.q.jobs[p.arg].queue))
  {
    ReachableInv(s);
    HandKnown(s, t);
    if ProcOf(s, t).p.arg in s.q.jobs {
      ReleasedStaysInHand(s, t);
    }
  }

  /** The release itself is not among the messages that come back. */
  lemma ReleasedStaysInHand(s: State, t: Thread)
    requires PlaceInv(s) && Processing(s, t) && Releases(s, t)
    ensures var p := ProcOf(s, t).p;
      p.uid < |s.place| == |ApplyRelease(s, t).place| && ApplyRelease(s, t).place[p.uid] == HandOf(t)
  {
    HandKnown(s, t);
    QueueKnown(s, ProcOf(s, t).p.arg);
    AllAtEffect(s.place, s.q.jobs[ProcOf(s, t).p.arg].queue, ComingBack(t));
  }

  // ---------------------------------------------------------------- a release and the messages of its job

  /** How far a thread has come with handing back the messages of a released job: the first n have gone back
    * unprocessed, status 6; or all have, and the release itself with status 0. */
  ghost predicate HandedBack(s: State, t: Thread, p: Packet, queue: seq<Packet>, n: nat) {
    && n <= |queue|
    && (forall m :: 0 <= m < n ==> queue[m].uid < |s.place| && s.place[queue[m].uid] == Replied(6))
    && ((Processing(s, t) && ProcOf(s, t) == Returning(p, queue[n..]))
        || (n == |queue| && p.uid < |s.place| && s.place[p.uid] == Replied(0)))
  }

  /** Another thread's step leaves this one where it is inside process_P. */
  lemma ProcStays(s: State, step: Step, t: Thread)
    requires Enabled(s, step) && Processing(s, t) && (step.Process? ==> step.t != t)
    ensures Processing(Apply(s, step), t) && ProcOf(Apply(s, step), t) == ProcOf(s, t)
  {
  }

  lemma HandsBackNext(s: State, t: Thread, out: Outcome, p: Packet, queue: seq<Packet>, n: nat)
    requires PlaceInv(s) && CanProcess(s, t, out) && n < |queue| && ProcOf(s, t) == Returning(p, queue[n..])
    ensures var s' := ApplyProcess(s, t, out);
      && Processing(s', t) && ProcOf(s', t) == Returning(p, queue[n + 1..])
      && queue[n].uid < |s'.place| && s'.place[queue[n].uid] == Replied(6)
  {
    assert queue[n..][0] == queue[n] && queue[n..][1..] == queue[n + 1..];
    RestKnown(s, t);
  }

  lemma HandsBackLast(s: State, t: Thread, out: Outcome, p: Packet)
    requires PlaceInv(s) && CanProcess(s, t, out) && ProcOf(s, t) == Returning(p, [])
    ensures p.uid < |s.place| == |ApplyProcess(s, t, out).place| && ApplyProcess(s, t, out).place[p.uid] == Replied(0)
  {
    HandKnown(s, t);
  }

  /** A final disposition stays. */
  lemma FinalStays(s: State, step: Step, u: nat)
    requires Inv(s) && Enabled(s, step) && u < |s.place| && s.place[u].Final()
    ensures u < |Apply(s, step).place| && Apply(s, step).place[u] == s.place[u]
  {
    OneDisposition(s, step);
  }

  lemma BackStep(s: State, step: Step, t: Thread, p: Packet, queue: seq<Packet>, n: nat) returns (n': nat)
    requires Inv(s) && Enabled(s, step) && HandedBack(s, t, p, queue, n)
    ensures n' >= n && HandedBack(Apply(s, step), t, p, queue, n')
  {
    var s' := Apply(s, step);
    forall m | 0 <= m < n ensures queue[m].uid < |s'.place| && s'.place[queue[m].uid] == Replied(6) {
      FinalStays(s, step, queue[m].uid);
    }
    n' := n;
    if n == |queue| && p.uid < |s.place| && s.place[p.uid] == Replied(0) {
      FinalStays(s, step, p.uid);
    } else if step.Process? && step.t == t {
      if n < |queue| {
        HandsBackNext(s, t, step.out, p, queue, n);
        n' := n + 1;
      } else {
        assert queue[n..] == [];
        HandsBackLast(s, t, step.out, p);
      }
    } else {
      ProcStays(s, step, t);
    }
  }

  lemma {:induction false} BackRun(s: State, run: seq<Step>, t: Thread, p: Packet, queue: seq<Packet>, n: nat)
    returns (n': nat)
    requires Inv(s) && Possible(s, run) && CleanRun(s, run) && HandedBack(s, t, p, queue, n)
    ensures HandedBack(After(s, run), t, p, queue, n')
    decreases run
  {
    if run == [] {
      n' := n;
    } else {
      n' := BackStep(s, run[0], t, p, queue, n);
      StepKeepsInv(s, run[0]);
      n' := BackRun(Apply(s, run[0]), run[1..], t, p, queue, n');
    }
  }

  /** THEOREM. Whatever the other threads do after a release of a live job: as soon as the release has been
    * answered, it has gone back with status 0 and every message that was queued on the job with status 6;
    * and until then its thread has it in hand. */
  lemma ReleaseReturnsAll(s: State, t: Thread, out: Outcome, run: seq<Step>)
    requires Reachable(s) && Enabled(s, Process(t, out)) && ProcOf(s, t).Run? && ProcOf(s, t).p.kind.JobRel?
    requires ProcOf(s, t).p.arg in s.q.jobs
    requires var s' := Apply(s, Process(t, out)); Possible(s', run) && CleanRun(s', run)
    ensures var (p, queue, s'') := (ProcOf(s, t).p, s.q.jobs[ProcOf(s, t).p.arg].queue, After(Apply(s, Process(t, out)), run));
      && p.uid < |s''.place|
      && (s''.place[p.uid] == HandOf(t) || s''.place[p.uid] == Replied(0))
      && (s''.place[p.uid] == Replied(0) ==>
            forall m :: 0 <= m < |queue| ==> queue[m].uid < |s''.place| && s''.place[queue[m].uid] == Replied(6))
  {
    var s' := Apply(s, Process(t, out));
    ReleaseBegins(s, t, out);
    BackInTheEnd(s', run, t, ProcOf(s, t).p, s.q.jobs[ProcOf(s, t).p.arg].queue);
  }

  lemma ReleaseBegins(s: State, t: Thread, out: Outcome)
    requires Reachable(s) && Enabled(s, Process(t, out)) && ProcOf(s, t).Run? && ProcOf(s, t).p.kind.JobRel?
    requires ProcOf(s, t).p.arg in s.q.jobs
    ensures var (p, s') := (ProcOf(s, t).p, Apply(s, Process(t, out)));
      Inv(s') && HandedBack(s', t, p, s.q.jobs[p.arg].queue, 0)
  {
    ReachableInv(s);
    ReleaseAnswers(s, t, out);
    StepKeepsInv(s, Process(t, out));
    var queue := s.q.jobs[ProcOf(s, t).p.arg].queue;
    assert queue[0..] == queue;
  }

  lemma BackInTheEnd(s: State, run: seq<Step>, t: Thread, p: Packet, queue: seq<Packet>)
    requires Inv(s) && Possible(s, run) && CleanRun(s, run) && HandedBack(s, t, p, queue, 0)
    ensures var s' := After(s, run);
      && p.uid < |s'.place|
      && (s'.place[p.uid] == HandOf(t) || s'.place[p.uid] == Replied(0))
      && (s'.place[p.uid] == Replied(0) ==>
            forall m :: 0 <= m < |queue| ==> queue[m].uid < |s'.place| && s'.place[queue[m].uid] == Replied(6))
  {
    var n := BackRun(s, run, t, p, queue, 0);
    RunKeepsInv(s, run);
    StillInHand(After(s, run), t, p, queue, n);
  }

  lemma StillInHand(s: State, t: Thread, p: Packet, queue: seq<Packet>, n: nat)
    requires PlaceInv(s) && HandedBack(s, t, p, queue, n)
    ensures p.uid < |s.place| && (s.place[p.uid] == HandOf(t) || s.place[p.uid] == Replied(0))
    ensures s.place[p.uid] == Replied(0) ==>
      forall m :: 0 <= m < |queue| ==> queue[m].uid < |s.place| && s.place[queue[m].uid] == Replied(6)
  {
    if Processing(s, t) && ProcOf(s, t) == Returning(p, queue[n..]) {
      HandKnown(s, t);
    }
  }
}
