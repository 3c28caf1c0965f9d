/** What holds in every state that any interleaving of the server thread and the workers
  * reaches: one place per packet, one outstanding message per job, order within a job,
  * semaphore counts that match the ready queues, and no message left behind. */
module RcmSchedulerTheorems {
  import opened Counting
  import opened RcmJobIds
  import opened RcmScheduler
  import opened RcmLedger
  import opened RcmSchedulerProof

  ghost predicate NewestInHand(s: State) {
    s.server.Got? ==> s.server.p.uid + 1 == |s.received|
  }

  /** Only message types that the server does not know are dropped, and those are never answered
    * as if they had been processed. */
  predicate Fitting(kind: Kind, w: Place) {
    && (w.Dropped? ==> kind.SymAdd? || kind.Unknown?)
    && (w.Freed? ==> kind.Cmd?)
    && (w.Replied? && (kind.SymAdd? || kind.Unknown?) ==>
          w.status == UNPROCESSED || w.status == JOB_NOT_FOUND || w.status == POOL_NOT_FOUND)
  }

  ghost predicate FateInv(s: State) {
    |s.place| == |s.received| && forall u :: 0 <= u < |s.received| ==> Fitting(s.received[u].kind, s.place[u])
  }

  ghost predicate Inv(s: State) {
    && PlaceInv(s) && Shape(s) && GateInv(s) && NewestInHand(s)
    && JobInv(s) && OrderInv(s) && SemInv(s) && FateInv(s)
  }

  /** The one thing a step can do wrong: re-issue a job id while a message of its earlier life is
    * still outstanding. */
  ghost predicate Clean(s: State, step: Step)
    requires Enabled(s, step)
  {
    step.Process? ==> CleanAcquire(s, step.t, step.out)
  }

  lemma InitialInv(s: State)
    requires Initial(s)
    ensures Inv(s)
  {
    forall pool | 0 <= pool < |s.q.ready| ensures Count(s.workers, Owes(pool)) == 0 {
      CountNone(s.workers, Owes(pool));
    }
  }

  lemma ServerIsKnown(s: State)
    requires PlaceInv(s) && NewestInHand(s)
    ensures ServerKnown(s)
  {
    if s.server.Got? {
      assert Contents(s)(AtServer)[0] == s.server.p;
    }
  }

  lemma PlaceKept(s: State, step: Step)
    requires PlaceInv(s) && Enabled(s, step)
    ensures PlaceInv(Apply(s, step))
  {
    match step
    case Receive(p) => PlaceKeptReceive(s, p);
    case ServerDispatch => PlaceKeptDispatch(s);
    case ServerPost =>
      ServerPostMovesNothing(s);
      StillRight(s, ApplyServerPost(s));
    case Pend(i) =>
      PendMovesNothing(s, i);
      StillRight(s, ApplyPend(s, i));
    case Get(i) => PlaceKeptGet(s, i);
    case Process(t, out) => PlaceKeptProcess(s, t, out);
    case NextOfJob(i) => PlaceKeptNext(s, i);
    case WorkerPost(i) =>
      WorkerPostMovesNothing(s, i);
      StillRight(s, ApplyWorkerPost(s, i));
  }

  lemma ShapeKept(s: State, step: Step)
    requires Shape(s) && GateInv(s) && Enabled(s, step)
    ensures Shape(Apply(s, step)) && GateInv(Apply(s, step))
  {
    match step
    case Receive(p) =>
    case ServerDispatch => ShapeKeptByServer(s);
    case ServerPost => ShapeKeptBySemaphores(s, 0);
    case Pend(i) => ShapeKeptBySemaphores(s, i);
    case Get(i) => ShapeKeptByGet(s, i);
    case Process(t, out) => ShapeKeptByProcess(s, t, out);
    case NextOfJob(i) => ShapeKeptByNext(s, i);
    case WorkerPost(i) => ShapeKeptBySemaphores(s, i);
  }

  lemma SemKept(s: State, step: Step)
    requires SemInv(s) && Enabled(s, step)
    ensures SemInv(Apply(s, step))
  {
    match step
    case Receive(p) =>
    case ServerDispatch => SemKeptByServer(s);
    case ServerPost => SemKeptByServer(s);
    case Pend(i) => SemKeptPend(s, i);
    case Get(i) => SemKeptGet(s, i);
    case Process(t, out) => SemKeptProcess(s, t, out);
    case NextOfJob(i) => SemKeptNext(s, i);
    case WorkerPost(i) => SemKeptPost(s, i);
  }

  lemma JobKeptProcess(s: State, t: Thread, out: Outcome)
    requires PlaceInv(s) && Shape(s) && JobInv(s) && CanProcess(s, t, out)
    ensures JobInv(ApplyProcess(s, t, out)) <==> CleanAcquire(s, t, out)
  {
    if Releases(s, t) {
      QueueKnown(s, ProcOf(s, t).p.arg);
      JobKeptRelease(s, t);
    } else if HandsBack(s, t) {
      RestKnown(s, t);
      JobKeptHandBack(s, t);
    } else {
      HandKnown(s, t);
      JobKeptComplete(s, t, out);
    }
  }

  lemma JobKept(s: State, step: Step)
    requires PlaceInv(s) && Shape(s) && NewestInHand(s) && JobInv(s) && Enabled(s, step)
    ensures JobInv(Apply(s, step)) <==> Clean(s, step)
  {
    match step
    case Receive(p) => JobKeptReceive(s, p);
    case ServerDispatch => ServerIsKnown(s); JobKeptDispatch(s);
    case ServerPost => JobFramed(s, ApplyServerPost(s));
    case Pend(i) => JobFramed(s, ApplyPend(s, i));
    case Get(i) => JobKeptGet(s, i);
    case Process(t, out) => JobKeptProcess(s, t, out);
    case NextOfJob(i) =>
      var j := s.workers[i].pc.jobId;
      if j in s.q.jobs && s.q.jobs[j].queue != [] {
        QueueKnown(s, j);
        assert JobOk(j, s.q.jobs[j], |s.q.ready|);
        JobKeptPassed(s, i);
      } else {
        JobKeptDrained(s, i);
      }
    case WorkerPost(i) => JobFramed(s, ApplyWorkerPost(s, i));
  }

  lemma OrderKept(s: State, step: Step)
    requires PlaceInv(s) && Shape(s) && NewestInHand(s) && JobInv(s) && OrderInv(s) && Enabled(s, step)
    ensures OrderInv(Apply(s, step))
  {
    match step
    case Receive(p) => OrderKeptReceive(s, p);
    case ServerDispatch => ServerIsKnown(s); OrderKeptDispatch(s);
    case ServerPost => OrderKeptByLess(s, ApplyServerPost(s));
    case Pend(i) => OrderKeptByLess(s, ApplyPend(s, i));
    case Get(i) => OrderKeptGet(s, i);
    case Process(t, out) => OrderKeptProcess(s, t, out);
    case NextOfJob(i) => OrderKeptNext(s, i);
    case WorkerPost(i) => OrderKeptByLess(s, ApplyWorkerPost(s, i));
  }

  lemma NewestKept(s: State, step: Step)
    requires NewestInHand(s) && Enabled(s, step)
    ensures NewestInHand(Apply(s, step))
  {
  }

  /** Records change only for packets without final disposition, and fittingly. */
  ghost predicate Advances(s: State, s': State) {
    && |s.place| == |s.received| <= |s'.received| == |s'.place|
    && forall u :: 0 <= u < |s.received| ==>
      && s'.received[u] == s.received[u]
      && (s'.place[u] == s.place[u] || (!s.place[u].Final() && Fitting(s.received[u].kind, s'.place[u])))
  }

  lemma AdvancedOne(s: State, s': State, p: Packet, from: Place, to: Place)
    requires Known(s.received, s.place, p, from) && !from.Final() && Fitting(p.kind, to)
    requires s'.received == s.received && s'.place == At(s.place, p, to)
    ensures Advances(s, s')
  {
  }

  lemma AdvancedByRelease(s: State, t: Thread)
    requires PlaceInv(s) && Processing(s, t) && Releases(s, t)
    ensures Advances(s, ApplyRelease(s, t))
  {
    QueueKnown(s, ProcOf(s, t).p.arg);
    AllAtEffect(s.place, s.q.jobs[ProcOf(s, t).p.arg].queue, ComingBack(t));
  }

  lemma AdvancedByHandBack(s: State, t: Thread)
    requires PlaceInv(s) && Processing(s, t) && HandsBack(s, t)
    ensures Advances(s, ApplyHandBack(s, t))
  {
    RestKnown(s, t);
    AdvancedOne(s, ApplyHandBack(s, t), ProcOf(s, t).rest[0], ComingBack(t), Replied(UNPROCESSED));
  }

  lemma DispositionFits(proc: Proc, out: Outcome)
    requires ProcOk(proc)
    ensures Fitting(proc.p.kind, Disposition(proc, out))
  {
  }

  lemma AdvancedByComplete(s: State, t: Thread, out: Outcome)
    requires PlaceInv(s) && Processing(s, t) && ProcOk(ProcOf(s, t))
    ensures Advances(s, ApplyComplete(s, t, out))
  {
    HandKnown(s, t);
    DispositionFits(ProcOf(s, t), out);
    AdvancedOne(s, ApplyComplete(s, t, out), ProcOf(s, t).p, HandOf(t), Disposition(ProcOf(s, t), out));
  }

  lemma AdvancedByProcess(s: State, t: Thread, out: Outcome)
    requires PlaceInv(s) && Shape(s) && CanProcess(s, t, out)
    ensures Advances(s, ApplyProcess(s, t, out))
  {
    if Releases(s, t) {
      AdvancedByRelease(s, t);
    } else if HandsBack(s, t) {
      AdvancedByHandBack(s, t);
    } else {
      assert t.OfPool? ==> WorkerOk(s.workers[t.i], |s.q.ready|);
      AdvancedByComplete(s, t, out);
    }
  }

  lemma AdvancedByDispatch(s: State)
    requires PlaceInv(s) && CanDispatch(s)
    ensures Advances(s, ApplyDispatch(s))
  {
    assert Known(s.received, s.place, Contents(s)(AtServer)[0], AtServer);
    if !InBandOnly(s, s.server.p) {
      AdvancedOne(s, ApplyDispatch(s), s.server.p, AtServer, DispatchedTo(s));
    }
  }

  lemma AdvancedByWorker(s: State, i: nat)
    requires PlaceInv(s)
    ensures CanGet(s, i) ==> Advances(s, ApplyGet(s, i))
    ensures CanTakeNext(s, i) ==> Advances(s, ApplyNextOfJob(s, i))
  {
    if CanGet(s, i) && s.q.ready[s.workers[i].pool] != [] {
      var w := InReady(s.workers[i].pool);
      assert Known(s.received, s.place, Contents(s)(w)[0], w);
      AdvancedOne(s, ApplyGet(s, i), s.q.ready[s.workers[i].pool][0], w, AtWorker(i));
    }
    if CanTakeNext(s, i) && s.workers[i].pc.jobId in s.q.jobs && s.q.jobs[s.workers[i].pc.jobId].queue != [] {
      var j := s.workers[i].pc.jobId;
      QueueKnown(s, j);
      AdvancedOne(s, ApplyNextOfJob(s, i), s.q.jobs[j].queue[0], InJob(j),
                  ApplyNextOfJob(s, i).place[s.q.jobs[j].queue[0].uid]);
    }
  }

  /** THEOREM. No step changes a final disposition, and every disposition fits the message type. */
  lemma OneDisposition(s: State, step: Step)
    requires PlaceInv(s) && Shape(s) && Enabled(s, step)
    ensures Advances(s, Apply(s, step))
  {
    match step
    case ServerDispatch => AdvancedByDispatch(s);
    case Get(i) => AdvancedByWorker(s, i);
    case NextOfJob(i) => AdvancedByWorker(s, i);
    case Process(t, out) => AdvancedByProcess(s, t, out);
    case _ =>
  }

  lemma FateKept(s: State, step: Step)
    requires PlaceInv(s) && Shape(s) && FateInv(s) && Enabled(s, step)
    ensures FateInv(Apply(s, step))
  {
    OneDisposition(s, step);
    if step.Receive? {
      assert Apply(s, step).place == s.place + [AtServer];
    } else {
      assert |Apply(s, step).received| == |s.received|;
    }
  }

  /** THEOREM. Every step of every thread keeps the invariant, exactly when it does not re-issue
    * a job id that still has a message outstanding. */
  lemma StepKeepsInv(s: State, step: Step)
    requires Inv(s) && Enabled(s, step)
    ensures Inv(Apply(s, step)) <==> Clean(s, step)
  {
    PlaceKept(s, step);
    NewestKept(s, step);
    ShapeKept(s, step);
    SemKept(s, step);
    JobKept(s, step);
    OrderKept(s, step);
    FateKept(s, step);
  }

  // ---------------------------------------------------------------- runs

  predicate Possible(s: State, run: seq<Step>)
    decreases run
  {
    run == [] || (Enabled(s, run[0]) && Possible(Apply(s, run[0]), run[1..]))
  }

  function After(s: State, run: seq<Step>): State
    requires Possible(s, run)
    decreases run
  {
    if run == [] then s else After(Apply(s, run[0]), run[1..])
  }

  ghost predicate CleanRun(s: State, run: seq<Step>)
    requires Possible(s, run)
    decreases run
  {
    run == [] || (Clean(s, run[0]) && CleanRun(Apply(s, run[0]), run[1..]))
  }

  lemma {:induction false} RunKeepsInv(s: State, run: seq<Step>)
    requires Inv(s) && Possible(s, run) && CleanRun(s, run)
    ensures Inv(After(s, run))
    decreases run
  {
    if run != [] {
      StepKeepsInv(s, run[0]);
      RunKeepsInv(Apply(s, run[0]), run[1..]);
    }
  }

  ghost predicate Reachable(s: State) {
    exists s0, run :: Initial(s0) && Possible(s0, run) && CleanRun(s0, run) && s == After(s0, run)
  }

  lemma ReachableInv(s: State)
    requires Reachable(s)
    ensures Inv(s)
  {
    var s0, run :| Initial(s0) && Possible(s0, run) && CleanRun(s0, run) && s == After(s0, run);
    InitialInv(s0);
    RunKeepsInv(s0, run);
  }

  // ---------------------------------------------------------------- what this means

  ghost predicate HeldAt(s: State, u: nat, w: Place, k: nat) {
    k < |Contents(s)(w)| && Contents(s)(w)[k].uid == u
  }

  /** THEOREM. A received packet without final disposition is at exactly one position of exactly
    * one container, the recorded one. A packet with a final disposition is at none. */
  lemma OnePlace(s: State, u: nat)
    requires Reachable(s) && u < |s.received|
    ensures |s.place| == |s.received|
    ensures !s.place[u].Final() ==> exists k: nat :: HeldAt(s, u, s.place[u], k)
    ensures forall w, k: nat :: HeldAt(s, u, w, k) ==> !s.place[u].Final() && w == s.place[u]
    ensures forall w, k: nat, k': nat :: HeldAt(s, u, w, k) && HeldAt(s, u, w, k') ==> k == k'
  {
    ReachableInv(s);
    var c := Contents(s);
    HeldOnce(s.received, s.place, c, u);
    if !s.place[u].Final() {
      var k: nat :| k < |c(s.place[u])| && c(s.place[u])[k].uid == u;
      assert HeldAt(s, u, s.place[u], k);
    }
    forall w, k: nat | HeldAt(s, u, w, k)
      ensures !s.place[u].Final() && w == s.place[u]
    {
      assert w == s.place[u] && c(w) != [];
    }
  }

  /** The same about any ledger that is right. */
  lemma HeldOnce(received: seq<Packet>, place: seq<Place>, c: Containers, u: nat)
    requires Right(received, place, c) && u < |received|
    ensures !place[u].Final() ==> exists k: nat :: k < |c(place[u])| && c(place[u])[k].uid == u
    ensures forall w, k: nat :: k < |c(w)| && c(w)[k].uid == u ==> w == place[u]
    ensures forall w, k: nat, k': nat :: k < |c(w)| && k' < |c(w)| && c(w)[k].uid == u && c(w)[k'].uid == u ==> k == k'
  {
    if !place[u].Final() {
      var k :| 0 <= k < |c(place[u])| && c(place[u])[k] == received[u];
    }
    forall w, k: nat | k < |c(w)| && c(w)[k].uid == u ensures w == place[u] {
      assert Known(received, place, c(w)[k], w);
    }
  }

  /** A packet of job j that is on a ready queue or in a worker's hands. */
  ghost predicate Outstanding(s: State, j: nat, p: Packet) {
    && p.jobId == j
    && ((exists pool :: 0 <= pool < |s.q.ready| && p in s.q.ready[pool])
        || (exists i :: 0 <= i < |s.workers| && s.workers[i].pc.Busy? && s.workers[i].pc.proc.p == p))
  }

  lemma OutstandingCarries(s: State, j: nat, p: Packet)
    requires PlaceInv(s) && Outstanding(s, j, p)
    ensures Carries(s, j, Message(p.uid)) && s.received[p.uid] == p
  {
    if pool :| 0 <= pool < |s.q.ready| && p in s.q.ready[pool] {
      var k :| 0 <= k < |s.q.ready[pool]| && s.q.ready[pool][k] == p;
      assert Known(s.received, s.place, Contents(s)(InReady(pool))[k], InReady(pool));
    } else {
      var i :| 0 <= i < |s.workers| && s.workers[i].pc.Busy? && s.workers[i].pc.proc.p == p;
      assert Known(s.received, s.place, Contents(s)(AtWorker(i))[0], AtWorker(i));
    }
  }

  /** THEOREM. A job never has two messages outstanding; a live job whose flag says `empty` has
    * none, and one whose flag does not say so has one or has just finished one. */
  lemma OnePerJob(s: State, j: nat)
    requires Reachable(s) && j != 0
    ensures forall p, p' :: Outstanding(s, j, p) && Outstanding(s, j, p') ==> p == p'
    ensures j in s.q.jobs && s.q.jobs[j].empty ==> forall p :: !Outstanding(s, j, p)
    ensures j in s.q.jobs && !s.q.jobs[j].empty ==>
      (exists p :: Outstanding(s, j, p)) || (exists i :: 0 <= i < |s.workers| && s.workers[i].pc == Finishing(j))
  {
    ReachableInv(s);
    forall p | Outstanding(s, j, p) ensures Carries(s, j, Message(p.uid)) && s.received[p.uid] == p {
      OutstandingCarries(s, j, p);
    }
    if j in s.q.jobs && !s.q.jobs[j].empty {
      var c :| Carries(s, j, c);
      if c.Message? {
        CarriedIsOutstanding(s, j, c.uid);
      }
    }
  }

  lemma CarriedIsOutstanding(s: State, j: nat, u: nat)
    requires PlaceInv(s) && Carries(s, j, Message(u))
    ensures Outstanding(s, j, s.received[u])
  {
    var w := s.place[u];
    assert s.received[u] in Contents(s)(w);
  }

  /** THEOREM. Once a message of a job has been started, every message of that job that was received
    * before it has been started too, earlier, or was never queued, or went back unprocessed: it is
    * on no queue. So a job's messages start in order of receipt, whatever pools they name. */
  lemma NoOvertaking(s: State, a: nat, u: nat)
    requires Reachable(s) && a < |s.executed| && u < s.executed[a].uid
    ensures u < |s.received| == |s.place|
    ensures s.received[u].jobId == s.executed[a].jobId != 0 ==> !s.place[u].InReady? && !s.place[u].InJob?
    ensures forall b :: 0 <= b < |s.executed| && s.executed[b].uid == u && s.executed[b].jobId == s.executed[a].jobId != 0 ==> b < a
  {
    ReachableInv(s);
    assert s.received[s.executed[a].uid] == s.executed[a];
    if Queued(s.place[u]) {
      assert Before(s, s.executed[a].uid, u);
    }
    forall b | 0 <= b < |s.executed| && s.executed[b].uid == u && s.executed[b].jobId == s.executed[a].jobId != 0
      ensures b < a
    {
    }
  }

  /** THEOREM. A worker that got a semaphore count finds a message, and the pool of a message that
    * waited on a job queue always resolves: both error branches of the worker loop are dead. */
  lemma DeadBranches(s: State, i: nat)
    requires Reachable(s)
    ensures CanGet(s, i) ==> s.q.ready[s.workers[i].pool] != []
    ensures CanTakeNext(s, i) ==> !Finish(s.q, s.workers[i].pc.jobId).1.BadPool?
    ensures i < |s.workers| ==> !s.workers[i].pc.Stale?
  {
    ReachableInv(s);
    if CanGet(s, i) {
      ReadyForAwake(s, i);
    }
    if CanTakeNext(s, i) && s.workers[i].pc.jobId in s.q.jobs {
      assert JobOk(s.workers[i].pc.jobId, s.q.jobs[s.workers[i].pc.jobId], |s.q.ready|);
    }
  }

  // ---------------------------------------------------------------- nothing is left behind

  /** No thread can move until another message arrives. */
  ghost predicate Quiet(s: State) {
    forall step :: Enabled(s, step) ==> step.Receive?
  }

  /** The search for a job id always ends. */
  lemma {:induction false} SearchEnds(q: Queues, counter: nat, n: nat) returns (turns: nat, id: nat)
    requires 1 <= n <= LAST_ID && forall m :: 1 <= m < n ==> IdAfter(counter, m) in q.jobs
    ensures AcquiredId(q, counter, turns, id)
    decreases LAST_ID - n
  {
    if IdAfter(counter, n) !in q.jobs {
      turns, id := n, IdAfter(counter, n);
    } else if n == LAST_ID {
      turns, id := n, 0;
    } else {
      turns, id := SearchEnds(q, counter, n + 1);
    }
  }

  lemma QuietWorkers(s: State)
    requires Inv(s) && Quiet(s)
    ensures s.gate.Free? && s.server.Waiting?
    ensures forall i :: 0 <= i < |s.workers| ==> s.workers[i].pc.Idle? && s.q.sem[s.workers[i].pool] == 0
  {
    if s.gate.HeldBy? && s.gate.t.OfPool? {
      assert Enabled(s, WorkerPost(s.gate.t.i));
    }
    var turns, id := SearchEnds(s.q, s.ids.counter, 1);
    var out := Outcome(true, 0, turns, id);
    assert !Enabled(s, ServerPost) && !Enabled(s, ServerDispatch) && !Enabled(s, Process(Server, out));
    forall i | 0 <= i < |s.workers|
      ensures s.workers[i].pc.Idle? && s.q.sem[s.workers[i].pool] == 0
    {
      assert WorkerOk(s.workers[i], |s.q.ready|);
      assert !Enabled(s, Pend(i)) && !Enabled(s, Get(i)) && !Enabled(s, NextOfJob(i));
      assert !Enabled(s, Process(OfPool(i), out)) && !Enabled(s, WorkerPost(i));
    }
  }

  predicate Staffed(s: State, pool: nat) {
    exists i :: 0 <= i < |s.workers| && s.workers[i].pool == pool
  }

  lemma QuietReady(s: State, pool: nat)
    requires Inv(s) && Quiet(s) && pool < |s.q.ready| && Staffed(s, pool)
    ensures s.q.ready[pool] == []
  {
    QuietWorkers(s);
    CountNone(s.workers, Owes(pool));
  }

  lemma QuietJob(s: State, j: nat)
    requires Inv(s) && Quiet(s) && j in s.q.jobs
    requires forall pool :: 0 <= pool < |s.q.ready| ==> s.q.ready[pool] == []
    ensures s.q.jobs[j].queue == []
  {
    QuietWorkers(s);
    if !s.q.jobs[j].empty {
      var c :| Carries(s, j, c);
      if c.Message? {
        CarriedIsOutstanding(s, j, c.uid);
      }
    }
  }

  /** Nothing in any container means nothing without its final disposition. */
  lemma AllFinal(s: State)
    requires PlaceInv(s) && forall w :: Contents(s)(w) == []
    ensures |s.place| == |s.received| && forall u :: 0 <= u < |s.received| ==> s.place[u].Final()
  {
  }

  /** THEOREM. Whenever no thread can move, each message received so far has had its final disposition if
    * and only if no message waits on the ready queue of a pool without workers. So with a worker in each
    * pool, or none asked for but in-band, the server is never stuck with messages. */
  lemma NothingLeftBehind(s: State)
    requires Reachable(s) && Quiet(s)
    ensures |s.place| == |s.received|
    ensures (forall u :: 0 <= u < |s.received| ==> s.place[u].Final()) <==>
            (forall pool :: 0 <= pool < |s.q.ready| && !Staffed(s, pool) ==> s.q.ready[pool] == [])
  {
    ReachableInv(s);
    if forall pool :: 0 <= pool < |s.q.ready| && !Staffed(s, pool) ==> s.q.ready[pool] == [] {
      forall pool | 0 <= pool < |s.q.ready| ensures s.q.ready[pool] == [] {
        if Staffed(s, pool) {
          QuietReady(s, pool);
        }
      }
      NothingQueued(s);
    }
    if forall u :: 0 <= u < |s.received| ==> s.place[u].Final() {
      forall pool | 0 <= pool < |s.q.ready| ensures s.q.ready[pool] == [] {
        if s.q.ready[pool] != [] {
          ReadyNotFinal(s, pool);
        }
      }
    }
  }

  lemma NothingQueued(s: State)
    requires Inv(s) && Quiet(s)
    requires forall pool :: 0 <= pool < |s.q.ready| ==> s.q.ready[pool] == []
    ensures forall u :: 0 <= u < |s.received| ==> s.place[u].Final()
  {
    forall j | j in s.q.jobs ensures s.q.jobs[j].queue == [] {
      QuietJob(s, j);
    }
    QuietHands(s);
    AllFinal(s);
  }

  lemma ReadyNotFinal(s: State, pool: nat)
    requires PlaceInv(s) && pool < |s.q.ready| && s.q.ready[pool] != []
    ensures var u := s.q.ready[pool][0].uid;
      u < |s.received| == |s.place| && !s.place[u].Final()
  {
    assert Known(s.received, s.place, Contents(s)(InReady(pool))[0], InReady(pool));
  }

  lemma QuietHands(s: State)
    requires Inv(s) && Quiet(s)
    requires forall pool :: 0 <= pool < |s.q.ready| ==> s.q.ready[pool] == []
    requires forall j :: j in s.q.jobs ==> s.q.jobs[j].queue == []
    ensures forall w :: Contents(s)(w) == []
  {
    QuietWorkers(s);
    EmptyHands(s);
  }

  /** Idle threads and empty queues hold nothing. */
  lemma EmptyHands(s: State)
    requires s.server.Waiting? && forall i :: 0 <= i < |s.workers| ==> s.workers[i].pc.Idle?
    requires forall pool :: 0 <= pool < |s.q.ready| ==> s.q.ready[pool] == []
    requires forall j :: j in s.q.jobs ==> s.q.jobs[j].queue == []
    ensures forall w :: Contents(s)(w) == []
  {
  }
}
