/** What each step of the scheduler keeps, one invariant and one step at a time. The theorems
  * about whole runs are in RcmSchedulerTheorems.dfy. */
module RcmSchedulerProof {
  import opened Counting
  import opened RcmScheduler
  import opened RcmLedger

  // ---------------------------------------------------------------- one place per packet

  function ServerHand(pc: ServerPc): seq<Packet> {
    if pc.Got? then [pc.p] else if pc.InBand? then [pc.proc.p] else []
  }

  function ServerRest(pc: ServerPc): seq<Packet> {
    if pc.InBand? && pc.proc.Returning? then pc.proc.rest else []
  }

  function WorkerHand(pc: WorkerPc): seq<Packet> {
    if pc.Busy? then [pc.proc.p] else []
  }

  function WorkerRest(pc: WorkerPc): seq<Packet> {
    if pc.Busy? && pc.proc.Returning? then pc.proc.rest else []
  }

  /** What the containers of a state really hold: ready queues, job queues, threads' hands. */
  function Contents(s: State): Containers {
    (w: Place) =>
      match w
      case AtServer => ServerHand(s.server)
      case InReady(pool) => if pool < |s.q.ready| then s.q.ready[pool] else []
      case InJob(j) => if j in s.q.jobs then s.q.jobs[j].queue else []
      case AtWorker(i) => if i < |s.workers| then WorkerHand(s.workers[i].pc) else []
      case ComingBack(Server) => ServerRest(s.server)
      case ComingBack(OfPool(i)) => if i < |s.workers| then WorkerRest(s.workers[i].pc) else []
      case _ => []
  }

  ghost predicate PlaceInv(s: State) {
    Right(s.received, s.place, Contents(s))
  }

  /** Nothing changed hands. */
  lemma StillRight(s: State, s': State)
    requires PlaceInv(s) && s'.received == s.received && s'.place == s.place
    requires forall w :: Contents(s')(w) == Contents(s)(w)
    ensures PlaceInv(s')
  {
    var c, c' := Contents(s), Contents(s');
    assert forall w :: c'(w) == c(w);
  }

  lemma ServerPostMovesNothing(s: State)
    requires s.server.Posting? && s.server.pool < |s.q.sem|
    ensures forall w :: Contents(ApplyServerPost(s))(w) == Contents(s)(w)
  {
  }

  lemma PendMovesNothing(s: State, i: nat)
    requires CanPend(s, i)
    ensures forall w :: Contents(ApplyPend(s, i))(w) == Contents(s)(w)
  {
  }

  lemma WorkerPostMovesNothing(s: State, i: nat)
    requires CanPost(s, i)
    ensures forall w :: Contents(ApplyWorkerPost(s, i))(w) == Contents(s)(w)
  {
  }

  // ---------------------------------------------------------------- shape and gate

  predicate ProcOk(proc: Proc) {
    proc.Returning? ==> proc.p.kind.JobRel?
  }

  ghost predicate WorkerOk(w: Worker, pools: nat) {
    && w.pool < pools
    && (w.pc.Busy? ==> ProcOk(w.pc.proc))
    && (w.pc.Passing? ==> w.pc.pool < pools)
    && (w.pc.Finishing? ==> w.pc.jobId != 0)
    && !w.pc.Stale?
  }

  ghost predicate JobOk(j: nat, job: Job, pools: nat) {
    && j != 0
    && forall k :: 0 <= k < |job.queue| ==> job.queue[k].jobId == j && PoolOf(job.queue[k].poolId, pools).Some?
  }

  ghost predicate Shape(s: State) {
    && |s.q.sem| == |s.q.ready|
    && (s.server.Posting? ==> s.server.pool < |s.q.ready|)
    && (s.server.InBand? ==> ProcOk(s.server.proc))
    && (forall i :: 0 <= i < |s.workers| ==> WorkerOk(s.workers[i], |s.q.ready|))
    && (forall j :: j in s.q.jobs ==> JobOk(j, s.q.jobs[j], |s.q.ready|))
  }

  ghost predicate GateInv(s: State) {
    && (s.gate == HeldBy(Server) <==> s.server.Posting? && s.server.gated)
    && (forall i :: 0 <= i < |s.workers| ==> (s.gate == HeldBy(OfPool(i)) <==> s.workers[i].pc.Passing?))
    && (s.gate.HeldBy? && s.gate.t.OfPool? ==> s.gate.t.i < |s.workers|)
  }

  lemma PlaceKeptReceive(s: State, p: Packet)
    requires PlaceInv(s) && s.server.Waiting? && p.uid == |s.received|
    ensures PlaceInv(ApplyReceive(s, p))
  {
    var s' := ApplyReceive(s, p);
    ArrivalKeeps(s.received, s.place, Contents(s), Contents(s'), p, AtServer);
  }

  lemma Relayed(s: State, s': State, p: Packet, from: Place, to: Place)
    requires PlaceInv(s) && Moved(Contents(s), Contents(s'), p, from, to)
    requires s'.received == s.received && s'.place == At(s.place, p, to)
    ensures PlaceInv(s')
  {
    MovedKeeps(s.received, s.place, Contents(s), Contents(s'), p, from, to);
  }

  /** Where a dispatched packet goes. */
  function DispatchedTo(s: State): Place
    requires s.server.Got?
  {
    match Dispatch(s.q, s.server.p).1
    case Reject(status) => Replied(status)
    case Parked => InJob(s.server.p.jobId)
    case OnReady(pool) => InReady(pool)
  }

  lemma RejectMoves(s: State)
    requires CanDispatch(s) && !InBandOnly(s, s.server.p) && Dispatch(s.q, s.server.p).1.Reject?
    ensures Moved(Contents(s), Contents(ApplyDispatch(s)), s.server.p, AtServer, DispatchedTo(s))
  {
  }

  lemma ParkMoves(s: State)
    requires CanDispatch(s) && !InBandOnly(s, s.server.p) && Dispatch(s.q, s.server.p).1.Parked?
    ensures Moved(Contents(s), Contents(ApplyDispatch(s)), s.server.p, AtServer, DispatchedTo(s))
  {
  }

  lemma ReadyMoves(s: State)
    requires CanDispatch(s) && !InBandOnly(s, s.server.p) && Dispatch(s.q, s.server.p).1.OnReady?
    ensures Moved(Contents(s), Contents(ApplyDispatch(s)), s.server.p, AtServer, DispatchedTo(s))
  {
  }

  lemma DispatchMoves(s: State)
    requires CanDispatch(s) && !InBandOnly(s, s.server.p)
    ensures Moved(Contents(s), Contents(ApplyDispatch(s)), s.server.p, AtServer, DispatchedTo(s))
  {
    match Dispatch(s.q, s.server.p).1
    case Reject(_) => RejectMoves(s);
    case Parked => ParkMoves(s);
    case OnReady(_) => ReadyMoves(s);
  }

  lemma PlaceKeptDispatch(s: State)
    requires PlaceInv(s) && CanDispatch(s)
    ensures PlaceInv(ApplyDispatch(s))
  {
    if InBandOnly(s, s.server.p) {
      StillRight(s, ApplyDispatch(s));
    } else {
      DispatchMoves(s);
      Relayed(s, ApplyDispatch(s), s.server.p, AtServer, DispatchedTo(s));
    }
  }

  /** A worker with empty hands takes the first packet of a ready queue. */
  lemma TakingMoves(s: State, s': State, i: nat, pool: nat)
    requires pool < |s.q.ready| && s.q.ready[pool] != [] && i < |s.workers| && !s.workers[i].pc.Busy?
    requires s'.server == s.server && s'.q.jobs == s.q.jobs
    requires s'.q.ready == s.q.ready[pool := s.q.ready[pool][1..]]
    requires |s'.workers| == |s.workers| && s'.workers[i].pc == Busy(Run(s.q.ready[pool][0]))
    requires forall k :: 0 <= k < |s.workers| && k != i ==> s'.workers[k] == s.workers[k]
    ensures Moved(Contents(s), Contents(s'), s.q.ready[pool][0], InReady(pool), AtWorker(i))
  {
  }

  lemma GetMoves(s: State, i: nat)
    requires CanGet(s, i) && s.q.ready[s.workers[i].pool] != []
    ensures Moved(Contents(s), Contents(ApplyGet(s, i)), s.q.ready[s.workers[i].pool][0],
                  InReady(s.workers[i].pool), AtWorker(i))
  {
    TakingMoves(s, ApplyGet(s, i), i, s.workers[i].pool);
  }

  lemma EmptyGetMovesNothing(s: State, i: nat)
    requires CanGet(s, i) && s.q.ready[s.workers[i].pool] == []
    ensures ApplyGet(s, i).received == s.received && ApplyGet(s, i).place == s.place
    ensures forall w :: Contents(ApplyGet(s, i))(w) == Contents(s)(w)
  {
  }

  lemma PlaceKeptGet(s: State, i: nat)
    requires PlaceInv(s) && CanGet(s, i)
    ensures PlaceInv(ApplyGet(s, i))
  {
    var pool := s.workers[i].pool;
    if s.q.ready[pool] == [] {
      EmptyGetMovesNothing(s, i);
      StillRight(s, ApplyGet(s, i));
    } else {
      GetMoves(s, i);
      Relayed(s, ApplyGet(s, i), s.q.ready[pool][0], InReady(pool), AtWorker(i));
    }
  }

  lemma PassedMoves(s: State, i: nat, pool: nat, p: Packet)
    requires CanTakeNext(s, i) && Finish(s.q, s.workers[i].pc.jobId).1 == Passed(pool, p)
    ensures Moved(Contents(s), Contents(ApplyNextOfJob(s, i)), p, InJob(s.workers[i].pc.jobId), InReady(pool))
  {
    PassingOnMoves(s, ApplyNextOfJob(s, i), s.workers[i].pc.jobId, pool);
  }

  /** The first packet of a job queue goes to a ready queue, and nothing changes hands. */
  lemma PassingOnMoves(s: State, s': State, j: nat, pool: nat)
    requires j in s.q.jobs && s.q.jobs[j].queue != [] && pool < |s.q.ready| == |s'.q.ready|
    requires s'.q.jobs == s.q.jobs[j := s.q.jobs[j].(queue := s.q.jobs[j].queue[1..])]
    requires s'.q.ready == s.q.ready[pool := s.q.ready[pool] + [s.q.jobs[j].queue[0]]]
    requires s'.server == s.server && |s'.workers| == |s.workers|
    requires forall k :: 0 <= k < |s.workers| ==>
      WorkerHand(s'.workers[k].pc) == WorkerHand(s.workers[k].pc) && WorkerRest(s'.workers[k].pc) == WorkerRest(s.workers[k].pc)
    ensures Moved(Contents(s), Contents(s'), s.q.jobs[j].queue[0], InJob(j), InReady(pool))
  {
  }

  lemma BadPoolMoves(s: State, i: nat, p: Packet)
    requires CanTakeNext(s, i) && Finish(s.q, s.workers[i].pc.jobId).1 == BadPool(p)
    ensures Moved(Contents(s), Contents(ApplyNextOfJob(s, i)), p, InJob(s.workers[i].pc.jobId), Replied(POOL_NOT_FOUND))
  {
  }

  lemma DrainedMovesNothing(s: State, i: nat)
    requires CanTakeNext(s, i)
    requires !Finish(s.q, s.workers[i].pc.jobId).1.Passed? && !Finish(s.q, s.workers[i].pc.jobId).1.BadPool?
    ensures ApplyNextOfJob(s, i).received == s.received && ApplyNextOfJob(s, i).place == s.place
    ensures forall w :: Contents(ApplyNextOfJob(s, i))(w) == Contents(s)(w)
  {
  }

  lemma PlaceKeptPassed(s: State, i: nat, pool: nat, p: Packet)
    requires PlaceInv(s) && CanTakeNext(s, i) && Finish(s.q, s.workers[i].pc.jobId).1 == Passed(pool, p)
    ensures PlaceInv(ApplyNextOfJob(s, i))
  {
    PassedMoves(s, i, pool, p);
    Relayed(s, ApplyNextOfJob(s, i), p, InJob(s.workers[i].pc.jobId), InReady(pool));
  }

  lemma PlaceKeptBadPool(s: State, i: nat, p: Packet)
    requires PlaceInv(s) && CanTakeNext(s, i) && Finish(s.q, s.workers[i].pc.jobId).1 == BadPool(p)
    ensures PlaceInv(ApplyNextOfJob(s, i))
  {
    BadPoolMoves(s, i, p);
    Relayed(s, ApplyNextOfJob(s, i), p, InJob(s.workers[i].pc.jobId), Replied(POOL_NOT_FOUND));
  }

  lemma PlaceKeptNext(s: State, i: nat)
    requires PlaceInv(s) && CanTakeNext(s, i)
    ensures PlaceInv(ApplyNextOfJob(s, i))
  {
    match Finish(s.q, s.workers[i].pc.jobId).1
    case Passed(pool, p) => PlaceKeptPassed(s, i, pool, p);
    case BadPool(p) => PlaceKeptBadPool(s, i, p);
    case _ =>
      DrainedMovesNothing(s, i);
      StillRight(s, ApplyNextOfJob(s, i));
  }

  function HandOf(t: Thread): Place {
    match t
    case Server => AtServer
    case OfPool(i) => AtWorker(i)
  }

  lemma ReleaseMoves(s: State, t: Thread)
    requires Processing(s, t) && Releases(s, t)
    ensures MovedAll(Contents(s), Contents(ApplyRelease(s, t)), InJob(ProcOf(s, t).p.arg), ComingBack(t))
  {
    match t
    case Server => ServerReleaseMoves(s);
    case OfPool(i) => WorkerReleaseMoves(s, i);
  }

  lemma ServerReleaseMoves(s: State)
    requires Processing(s, Server) && Releases(s, Server)
    ensures MovedAll(Contents(s), Contents(ApplyRelease(s, Server)), InJob(s.server.proc.p.arg), ComingBack(Server))
  {
  }

  lemma WorkerReleaseMoves(s: State, i: nat)
    requires Processing(s, OfPool(i)) && Releases(s, OfPool(i))
    ensures MovedAll(Contents(s), Contents(ApplyRelease(s, OfPool(i))), InJob(s.workers[i].pc.proc.p.arg), ComingBack(OfPool(i)))
  {
  }

  lemma ServerHandBackMoves(s: State)
    requires Processing(s, Server) && HandsBack(s, Server)
    ensures Moved(Contents(s), Contents(ApplyHandBack(s, Server)), s.server.proc.rest[0], ComingBack(Server),
                  Replied(UNPROCESSED))
  {
  }

  lemma WorkerHandBackMoves(s: State, i: nat)
    requires Processing(s, OfPool(i)) && HandsBack(s, OfPool(i))
    ensures Moved(Contents(s), Contents(ApplyHandBack(s, OfPool(i))), s.workers[i].pc.proc.rest[0],
                  ComingBack(OfPool(i)), Replied(UNPROCESSED))
  {
  }

  lemma HandBackMoves(s: State, t: Thread)
    requires Processing(s, t) && HandsBack(s, t)
    ensures Moved(Contents(s), Contents(ApplyHandBack(s, t)), ProcOf(s, t).rest[0], ComingBack(t), Replied(UNPROCESSED))
  {
    match t
    case Server => ServerHandBackMoves(s);
    case OfPool(i) => WorkerHandBackMoves(s, i);
  }

  lemma ServerCompleteMoves(s: State, out: Outcome)
    requires CanProcess(s, Server, out) && !Releases(s, Server) && !HandsBack(s, Server)
    ensures Moved(Contents(s), Contents(ApplyComplete(s, Server, out)), ProcOf(s, Server).p, AtServer,
                  Disposition(ProcOf(s, Server), out))
  {
  }

  /** A worker that lets go of the one packet it holds, everything else staying where it is. */
  lemma LettingGoMoves(s: State, s': State, i: nat, to: Place)
    requires i < |s.workers| && s.workers[i].pc.Busy? && WorkerRest(s.workers[i].pc) == [] && to.Final()
    requires |s'.workers| == |s.workers| && !s'.workers[i].pc.Busy?
    requires forall k :: 0 <= k < |s.workers| && k != i ==> s'.workers[k] == s.workers[k]
    requires s'.server == s.server && s'.q.ready == s.q.ready
    requires forall j: nat :: Contents(s')(InJob(j)) == Contents(s)(InJob(j))
    ensures Moved(Contents(s), Contents(s'), s.workers[i].pc.proc.p, AtWorker(i), to)
  {
  }

  /** Opening a job stream queues nothing. */
  lemma OpeningMovesNothing(s: State, t: Thread, out: Outcome, j: nat)
    requires CanProcess(s, t, out)
    ensures Contents(ApplyComplete(s, t, out))(InJob(j)) == Contents(s)(InJob(j))
    ensures ApplyComplete(s, t, out).q.ready == s.q.ready
  {
  }

  lemma WorkerCompleteMoves(s: State, i: nat, out: Outcome)
    requires CanProcess(s, OfPool(i), out) && !Releases(s, OfPool(i)) && !HandsBack(s, OfPool(i))
    ensures Moved(Contents(s), Contents(ApplyComplete(s, OfPool(i), out)), ProcOf(s, OfPool(i)).p, AtWorker(i),
                  Disposition(ProcOf(s, OfPool(i)), out))
  {
    forall j: nat ensures Contents(ApplyComplete(s, OfPool(i), out))(InJob(j)) == Contents(s)(InJob(j)) {
      OpeningMovesNothing(s, OfPool(i), out, j);
    }
    OpeningMovesNothing(s, OfPool(i), out, 0);
    LettingGoMoves(s, ApplyComplete(s, OfPool(i), out), i, Disposition(ProcOf(s, OfPool(i)), out));
  }

  lemma CompleteMoves(s: State, t: Thread, out: Outcome)
    requires CanProcess(s, t, out) && !Releases(s, t) && !HandsBack(s, t)
    ensures Moved(Contents(s), Contents(ApplyComplete(s, t, out)), ProcOf(s, t).p, HandOf(t), Disposition(ProcOf(s, t), out))
  {
    match t
    case Server => ServerCompleteMoves(s, out);
    case OfPool(i) => WorkerCompleteMoves(s, i, out);
  }

  lemma PlaceKeptProcess(s: State, t: Thread, out: Outcome)
    requires PlaceInv(s) && CanProcess(s, t, out)
    ensures PlaceInv(ApplyProcess(s, t, out))
  {
    var s' := ApplyProcess(s, t, out);
    var proc := ProcOf(s, t);
    if Releases(s, t) {
      ReleaseMoves(s, t);
      MovedAllKeeps(s.received, s.place, Contents(s), Contents(s'), InJob(proc.p.arg), ComingBack(t));
    } else if HandsBack(s, t) {
      HandBackMoves(s, t);
      Relayed(s, s', proc.rest[0], ComingBack(t), Replied(UNPROCESSED));
    } else {
      CompleteMoves(s, t, out);
      Relayed(s, s', proc.p, HandOf(t), Disposition(proc, out));
    }
  }

  lemma HandKnown(s: State, t: Thread)
    requires PlaceInv(s) && Processing(s, t)
    ensures Known(s.received, s.place, ProcOf(s, t).p, HandOf(t))
  {
    assert Contents(s)(HandOf(t))[0] == ProcOf(s, t).p;
  }

  lemma RestKnown(s: State, t: Thread)
    requires PlaceInv(s) && Processing(s, t) && HandsBack(s, t)
    ensures Known(s.received, s.place, ProcOf(s, t).rest[0], ComingBack(t))
  {
    assert Contents(s)(ComingBack(t))[0] == ProcOf(s, t).rest[0];
  }

  // ---------------------------------------------------------------- shape and gate kept

  lemma ShapeKeptByServer(s: State)
    requires Shape(s) && GateInv(s) && CanDispatch(s)
    ensures Shape(ApplyDispatch(s)) && GateInv(ApplyDispatch(s))
  { }

  lemma ShapeKeptByGet(s: State, i: nat)
    requires Shape(s) && GateInv(s) && CanGet(s, i)
    ensures Shape(ApplyGet(s, i)) && GateInv(ApplyGet(s, i))
  { }

  lemma ShapeKeptByNext(s: State, i: nat)
    requires Shape(s) && GateInv(s) && CanTakeNext(s, i)
    ensures Shape(ApplyNextOfJob(s, i)) && GateInv(ApplyNextOfJob(s, i))
  { }

  lemma ShapeKeptByRelease(s: State, t: Thread)
    requires Shape(s) && GateInv(s) && Processing(s, t) && Releases(s, t)
    ensures Shape(ApplyRelease(s, t)) && GateInv(ApplyRelease(s, t))
  { }

  lemma ShapeKeptByHandBack(s: State, t: Thread)
    requires Shape(s) && GateInv(s) && Processing(s, t) && HandsBack(s, t)
    ensures Shape(ApplyHandBack(s, t)) && GateInv(ApplyHandBack(s, t))
  { }

  lemma ShapeKeptByComplete(s: State, t: Thread, out: Outcome)
    requires Shape(s) && GateInv(s) && CanProcess(s, t, out)
    ensures Shape(ApplyComplete(s, t, out)) && GateInv(ApplyComplete(s, t, out))
  { }

  lemma ShapeKeptByProcess(s: State, t: Thread, out: Outcome)
    requires Shape(s) && GateInv(s) && CanProcess(s, t, out)
    ensures Shape(ApplyProcess(s, t, out)) && GateInv(ApplyProcess(s, t, out))
  {
    if Releases(s, t) {
      ShapeKeptByRelease(s, t);
    } else if HandsBack(s, t) {
      ShapeKeptByHandBack(s, t);
    } else {
      ShapeKeptByComplete(s, t, out);
    }
  }

  lemma ShapeKeptBySemaphores(s: State, i: nat)
    requires Shape(s) && GateInv(s)
    ensures s.server.Posting? && s.server.pool < |s.q.sem| ==> Shape(ApplyServerPost(s)) && GateInv(ApplyServerPost(s))
    ensures CanPend(s, i) ==> Shape(ApplyPend(s, i)) && GateInv(ApplyPend(s, i))
    ensures CanPost(s, i) ==> Shape(ApplyWorkerPost(s, i)) && GateInv(ApplyWorkerPost(s, i))
  { }

  // ---------------------------------------------------------------- one message per job

  /** What stands for the one outstanding message of a job: the message itself, on a ready queue
    * or with a worker, or a worker that has processed it and not yet looked at the job. */
  datatype Carrier = Message(uid: nat) | Closing(i: nat)

  ghost predicate Carries(s: State, j: nat, c: Carrier) {
    match c
    case Message(u) =>
      && u < |s.received| == |s.place| && s.received[u].jobId == j
      && (s.place[u].InReady? || s.place[u].AtWorker?)
    case Closing(i) => i < |s.workers| && s.workers[i].pc == Finishing(j)
  }

  ghost predicate Unused(s: State, j: nat) {
    forall c :: !Carries(s, j, c)
  }

  ghost predicate JobInv(s: State) {
    && (forall j, c, d :: j != 0 && Carries(s, j, c) && Carries(s, j, d) ==> c == d)
    && (forall j :: j in s.q.jobs ==> (s.q.jobs[j].empty <==> Unused(s, j)))
    && (forall j :: j in s.q.jobs && s.q.jobs[j].queue != [] ==> !s.q.jobs[j].empty)
  }

  ghost predicate Before(s: State, u: nat, v: nat)
    requires u < |s.received| && v < |s.received|
  {
    s.received[u].jobId == s.received[v].jobId != 0 ==> u < v
  }

  predicate Queued(w: Place) {
    w.InReady? || w.InJob?
  }

  predicate Begun(w: Place) {
    w.AtWorker? || w.Final()
  }

  /** Of the messages of one job, those started precede those on a ready queue, which precede
    * those on the job queue; each group is in order of receipt. */
  ghost predicate OrderInv(s: State) {
    && |s.place| == |s.received|
    && (forall a :: 0 <= a < |s.executed| ==>
          && s.executed[a].uid < |s.received| && s.received[s.executed[a].uid] == s.executed[a]
          && Begun(s.place[s.executed[a].uid]))
    && (forall a, b :: 0 <= a < b < |s.executed| ==> Before(s, s.executed[a].uid, s.executed[b].uid))
    && (forall a, u :: 0 <= a < |s.executed| && 0 <= u < |s.received| && Queued(s.place[u]) ==>
          Before(s, s.executed[a].uid, u))
    && (forall u, v :: 0 <= u < |s.received| && 0 <= v < |s.received| && s.place[u].InReady? && s.place[v].InJob? ==>
          Before(s, u, v))
    && (forall j, a, b :: j in s.q.jobs && 0 <= a < b < |s.q.jobs[j].queue| ==>
          s.q.jobs[j].queue[a].uid < s.q.jobs[j].queue[b].uid)
  }

  /** The same carriers, and job streams whose flags and emptiness did not change. */
  lemma JobFramed(s: State, s': State)
    requires JobInv(s) && s'.q.jobs.Keys == s.q.jobs.Keys
    requires forall j :: j in s.q.jobs ==> s'.q.jobs[j] == s.q.jobs[j]
    requires forall j, c :: Carries(s', j, c) <==> Carries(s, j, c)
    ensures JobInv(s')
  {
    assert forall j :: Unused(s', j) <==> Unused(s, j);
  }

  lemma JobKeptReceive(s: State, p: Packet)
    requires JobInv(s) && |s.place| == |s.received|
    ensures JobInv(ApplyReceive(s, p))
  {
    JobFramed(s, ApplyReceive(s, p));
  }

  lemma JobKeptGet(s: State, i: nat)
    requires PlaceInv(s) && JobInv(s) && CanGet(s, i)
    ensures JobInv(ApplyGet(s, i))
  {
    var pool := s.workers[i].pool;
    if s.q.ready[pool] != [] {
      assert Known(s.received, s.place, Contents(s)(InReady(pool))[0], InReady(pool));
      forall j, c ensures Carries(ApplyGet(s, i), j, c) <==> Carries(s, j, c) {
        GetCarries(s, i, j, c);
      }
    }
    JobFramed(s, ApplyGet(s, i));
  }

  /** A message that a worker takes goes on standing for itself. */
  lemma GetCarries(s: State, i: nat, j: nat, c: Carrier)
    requires CanGet(s, i) && s.q.ready[s.workers[i].pool] != []
    requires Known(s.received, s.place, s.q.ready[s.workers[i].pool][0], InReady(s.workers[i].pool))
    ensures Carries(ApplyGet(s, i), j, c) <==> Carries(s, j, c)
  {
  }

  lemma OrderKeptReceive(s: State, p: Packet)
    requires OrderInv(s) && p.uid == |s.received|
    ensures OrderInv(ApplyReceive(s, p))
  {
    var s' := ApplyReceive(s, p);
    assert forall u, v :: 0 <= u < |s.received| && 0 <= v < |s.received| ==> Before(s', u, v) == Before(s, u, v);
  }

  /** Nothing new is queued or started, and job queues lose at most their heads. */
  lemma OrderKeptByLess(s: State, s': State)
    requires OrderInv(s)
    requires s'.received == s.received && |s'.place| == |s.place| && s'.executed == s.executed
    requires forall u :: 0 <= u < |s.place| && s'.place[u] != s.place[u] ==>
      !Queued(s'.place[u]) && (s.place[u].InJob? || Begun(s'.place[u]))
    requires forall j :: j in s'.q.jobs ==>
      s'.q.jobs[j].queue == [] || (j in s.q.jobs && s'.q.jobs[j].queue == s.q.jobs[j].queue)
    ensures OrderInv(s')
  {
    assert forall u, v :: 0 <= u < |s.received| && 0 <= v < |s.received| ==> Before(s', u, v) == Before(s, u, v);
  }

  lemma OrderKeptByStart(s: State, s': State, u: nat, w: Place)
    requires OrderInv(s) && u < |s.received| && s.received[u].uid == u && s.place[u].InReady? && Begun(w)
    requires s'.received == s.received && s'.place == s.place[u := w] && s'.q.jobs == s.q.jobs
    requires s'.executed == s.executed + [s.received[u]]
    requires forall v :: 0 <= v < |s.received| && s.place[v].InReady? && s.received[v].jobId == s.received[u].jobId != 0 ==> u == v
    ensures OrderInv(s')
  {
    assert forall x, y :: 0 <= x < |s.received| && 0 <= y < |s.received| ==> Before(s', x, y) == Before(s, x, y);
  }

  lemma OrderKeptGet(s: State, i: nat)
    requires PlaceInv(s) && JobInv(s) && OrderInv(s) && CanGet(s, i)
    ensures OrderInv(ApplyGet(s, i))
  {
    var s' := ApplyGet(s, i);
    var pool := s.workers[i].pool;
    if s.q.ready[pool] == [] {
      OrderKeptByLess(s, s');
    } else {
      var p := s.q.ready[pool][0];
      assert Known(s.received, s.place, Contents(s)(InReady(pool))[0], InReady(pool));
      assert Carries(s, p.jobId, Message(p.uid));
      forall u | 0 <= u < |s.received| && s.place[u].InReady? && s.received[u].jobId == p.jobId != 0
        ensures u == p.uid
      {
        assert Carries(s, p.jobId, Message(u));
      }
      OrderKeptByStart(s, s', p.uid, AtWorker(i));
    }
  }

  /** Every message recorded on a job queue is on the queue of its own job. */
  lemma OnOwnQueue(s: State, v: nat)
    requires PlaceInv(s) && Shape(s) && v < |s.received| && s.place[v].InJob?
    ensures s.received[v].jobId in s.q.jobs && s.place[v] == InJob(s.received[v].jobId)
    ensures exists k :: 0 <= k < |s.q.jobs[s.received[v].jobId].queue| && s.q.jobs[s.received[v].jobId].queue[k].uid == v
  {
    var w := s.place[v];
    var k :| 0 <= k < |Contents(s)(w)| && Contents(s)(w)[k] == s.received[v];
    assert w.jobId in s.q.jobs && JobOk(w.jobId, s.q.jobs[w.jobId], |s.q.ready|);
  }

  /** The newest message joins a ready queue, none of its job being on a job queue. */
  lemma OrderKeptByReadying(s: State, s': State, u: nat, pool: nat)
    requires OrderInv(s) && u + 1 == |s.received| && !Begun(s.place[u])
    requires s'.received == s.received && s'.place == s.place[u := InReady(pool)] && s'.executed == s.executed
    requires s'.q.jobs.Keys == s.q.jobs.Keys
    requires forall j :: j in s.q.jobs ==> s'.q.jobs[j].queue == s.q.jobs[j].queue
    requires forall v :: 0 <= v < |s.received| && s.place[v].InJob? ==> s.received[v].jobId != s.received[u].jobId || s.received[u].jobId == 0
    ensures OrderInv(s')
  {
    assert forall x, y :: 0 <= x < |s.received| && 0 <= y < |s.received| ==> Before(s', x, y) == Before(s, x, y);
  }

  /** The newest message joins its job queue. */
  lemma OrderKeptByParking(s: State, s': State, u: nat, j: nat)
    requires OrderInv(s) && u + 1 == |s.received| && !Begun(s.place[u]) && j in s.q.jobs
    requires s'.received == s.received && s'.place == s.place[u := InJob(j)] && s'.executed == s.executed
    requires forall k :: 0 <= k < |s.q.jobs[j].queue| ==> s.q.jobs[j].queue[k].uid < u
    requires s.received[u].uid == u
    requires s'.q.jobs == s.q.jobs[j := s.q.jobs[j].(queue := s.q.jobs[j].queue + [s.received[u]])]
    ensures OrderInv(s')
  {
    assert forall x, y :: 0 <= x < |s.received| && 0 <= y < |s.received| ==> Before(s', x, y) == Before(s, x, y);
  }

  lemma QueueKnown(s: State, j: nat)
    requires PlaceInv(s) && j in s.q.jobs
    ensures forall k :: 0 <= k < |s.q.jobs[j].queue| ==>
      Known(s.received, s.place, s.q.jobs[j].queue[k], InJob(j))
  {
    assert Contents(s)(InJob(j)) == s.q.jobs[j].queue;
  }

  ghost predicate ServerKnown(s: State) {
    s.server.Got? ==>
      Known(s.received, s.place, s.server.p, AtServer) && s.server.p.uid + 1 == |s.received|
  }

  lemma OrderKeptParked(s: State)
    requires OrderInv(s) && ServerKnown(s) && CanDispatch(s)
    requires !InBandOnly(s, s.server.p) && Dispatch(s.q, s.server.p).1.Parked?
    requires forall k :: 0 <= k < |s.q.jobs[s.server.p.jobId].queue| ==>
      Known(s.received, s.place, s.q.jobs[s.server.p.jobId].queue[k], InJob(s.server.p.jobId))
    ensures OrderInv(ApplyDispatch(s))
  {
    OrderKeptByParking(s, ApplyDispatch(s), s.server.p.uid, s.server.p.jobId);
  }

  lemma OrderKeptReadied(s: State, pool: nat)
    requires OrderInv(s) && ServerKnown(s) && CanDispatch(s)
    requires !InBandOnly(s, s.server.p) && Dispatch(s.q, s.server.p).1 == OnReady(pool)
    requires forall v :: 0 <= v < |s.received| && s.place[v].InJob? ==>
      s.received[v].jobId != s.server.p.jobId || s.server.p.jobId == 0
    ensures OrderInv(ApplyDispatch(s))
  {
    OrderKeptByReadying(s, ApplyDispatch(s), s.server.p.uid, pool);
  }

  lemma OrderKeptRejected(s: State)
    requires OrderInv(s) && CanDispatch(s)
    requires InBandOnly(s, s.server.p) || Dispatch(s.q, s.server.p).1.Reject?
    ensures OrderInv(ApplyDispatch(s))
  {
    OrderKeptByLess(s, ApplyDispatch(s));
  }

  lemma OrderKeptDispatch(s: State)
    requires PlaceInv(s) && Shape(s) && JobInv(s) && OrderInv(s) && ServerKnown(s) && CanDispatch(s)
    ensures OrderInv(ApplyDispatch(s))
  {
    var p := s.server.p;
    if InBandOnly(s, p) || Dispatch(s.q, p).1.Reject? {
      OrderKeptRejected(s);
    } else if Dispatch(s.q, p).1.Parked? {
      QueueKnown(s, p.jobId);
      OrderKeptParked(s);
    } else {
      forall v | 0 <= v < |s.received| && s.place[v].InJob?
        ensures s.received[v].jobId != p.jobId || p.jobId == 0
      {
        OnOwnQueue(s, v);
      }
      OrderKeptReadied(s, Dispatch(s.q, p).1.pool);
    }
  }

  /** The head of a job queue joins a ready queue. */
  lemma OrderKeptByPassing(s: State, s': State, j: nat, pool: nat)
    requires OrderInv(s) && j in s.q.jobs && s.q.jobs[j].queue != []
    requires s.q.jobs[j].queue[0].uid < |s.received|
    requires s.received[s.q.jobs[j].queue[0].uid] == s.q.jobs[j].queue[0] && s.q.jobs[j].queue[0].jobId == j
    requires s.place[s.q.jobs[j].queue[0].uid] == InJob(j)
    requires forall v :: 0 <= v < |s.received| && s.place[v].InJob? && s.received[v].jobId == j ==>
      exists k :: 0 <= k < |s.q.jobs[j].queue| && s.q.jobs[j].queue[k].uid == v
    requires s'.received == s.received && s'.executed == s.executed
    requires s'.place == s.place[s.q.jobs[j].queue[0].uid := InReady(pool)]
    requires s'.q.jobs == s.q.jobs[j := s.q.jobs[j].(queue := s.q.jobs[j].queue[1..])]
    ensures OrderInv(s')
  {
    assert forall x, y :: 0 <= x < |s.received| && 0 <= y < |s.received| ==> Before(s', x, y) == Before(s, x, y);
  }

  lemma OrderKeptNext(s: State, i: nat)
    requires PlaceInv(s) && Shape(s) && OrderInv(s) && CanTakeNext(s, i)
    ensures OrderInv(ApplyNextOfJob(s, i))
  {
    var s' := ApplyNextOfJob(s, i);
    var j := s.workers[i].pc.jobId;
    if j in s.q.jobs && s.q.jobs[j].queue != [] {
      var p := s.q.jobs[j].queue[0];
      assert Known(s.received, s.place, Contents(s)(InJob(j))[0], InJob(j));
      assert JobOk(j, s.q.jobs[j], |s.q.ready|);
      forall v | 0 <= v < |s.received| && s.place[v].InJob? && s.received[v].jobId == j
        ensures exists k :: 0 <= k < |s.q.jobs[j].queue| && s.q.jobs[j].queue[k].uid == v
      {
        OnOwnQueue(s, v);
      }
      OrderKeptByPassing(s, s', j, PoolOf(p.poolId, |s.q.ready|).value);
    } else {
      OrderKeptByLess(s, s');
    }
  }

  lemma OrderKeptRelease(s: State, t: Thread)
    requires OrderInv(s) && Processing(s, t) && Releases(s, t)
    requires forall k :: 0 <= k < |s.q.jobs[ProcOf(s, t).p.arg].queue| ==>
      Known(s.received, s.place, s.q.jobs[ProcOf(s, t).p.arg].queue[k], InJob(ProcOf(s, t).p.arg))
    ensures OrderInv(ApplyRelease(s, t))
  {
    AllAtEffect(s.place, s.q.jobs[ProcOf(s, t).p.arg].queue, ComingBack(t));
    OrderKeptByLess(s, ApplyRelease(s, t));
  }

  lemma OrderKeptHandBack(s: State, t: Thread)
    requires OrderInv(s) && Processing(s, t) && HandsBack(s, t)
    ensures OrderInv(ApplyHandBack(s, t))
  {
    OrderKeptByLess(s, ApplyHandBack(s, t));
  }

  lemma OrderKeptComplete(s: State, t: Thread, out: Outcome)
    requires OrderInv(s) && CanProcess(s, t, out) && !Releases(s, t) && !HandsBack(s, t)
    ensures OrderInv(ApplyComplete(s, t, out))
  {
    OrderKeptByLess(s, ApplyComplete(s, t, out));
  }

  lemma OrderKeptProcess(s: State, t: Thread, out: Outcome)
    requires PlaceInv(s) && OrderInv(s) && CanProcess(s, t, out)
    ensures OrderInv(ApplyProcess(s, t, out))
  {
    if Releases(s, t) {
      QueueKnown(s, ProcOf(s, t).p.arg);
      OrderKeptRelease(s, t);
    } else if HandsBack(s, t) {
      OrderKeptHandBack(s, t);
    } else {
      OrderKeptComplete(s, t, out);
    }
  }

  // ---------------------------------------------------------------- one per job, the other steps

  lemma JobKeptRejected(s: State)
    requires JobInv(s) && ServerKnown(s) && CanDispatch(s)
    requires InBandOnly(s, s.server.p) || Dispatch(s.q, s.server.p).1.Reject? || Dispatch(s.q, s.server.p).1.Parked?
    ensures JobInv(ApplyDispatch(s))
  {
    var s' := ApplyDispatch(s);
    forall j, c ensures Carries(s', j, c) <==> Carries(s, j, c) {}
    assert forall j :: Unused(s', j) <==> Unused(s, j);
  }

  lemma JobKeptReadied(s: State, pool: nat)
    requires JobInv(s) && ServerKnown(s) && CanDispatch(s) && 0 !in s.q.jobs
    requires !InBandOnly(s, s.server.p) && Dispatch(s.q, s.server.p).1 == OnReady(pool)
    ensures JobInv(ApplyDispatch(s))
  {
    var s' := ApplyDispatch(s);
    var p := s.server.p;
    forall j, c
      ensures Carries(s', j, c) <==> Carries(s, j, c) || (j == p.jobId && c == Message(p.uid))
    {}
    assert Carries(s', p.jobId, Message(p.uid));
    assert forall j :: j != p.jobId ==> (Unused(s', j) <==> Unused(s, j));
  }

  lemma JobKeptDispatch(s: State)
    requires JobInv(s) && ServerKnown(s) && CanDispatch(s) && 0 !in s.q.jobs
    ensures JobInv(ApplyDispatch(s))
  {
    if !InBandOnly(s, s.server.p) && Dispatch(s.q, s.server.p).1.OnReady? {
      JobKeptReadied(s, Dispatch(s.q, s.server.p).1.pool);
    } else {
      JobKeptRejected(s);
    }
  }

  lemma JobKeptPassed(s: State, i: nat)
    requires JobInv(s) && CanTakeNext(s, i) && s.workers[i].pc.jobId != 0
    requires var j := s.workers[i].pc.jobId;
      && j in s.q.jobs && s.q.jobs[j].queue != [] && s.q.jobs[j].queue[0].jobId == j
      && Known(s.received, s.place, s.q.jobs[j].queue[0], InJob(j))
      && PoolOf(s.q.jobs[j].queue[0].poolId, |s.q.ready|).Some?
    ensures JobInv(ApplyNextOfJob(s, i))
  {
    var s' := ApplyNextOfJob(s, i);
    var j := s.workers[i].pc.jobId;
    var u := s.q.jobs[j].queue[0].uid;
    assert Carries(s, j, Closing(i));
    forall k, c
      ensures Carries(s', k, c) <==> (Carries(s, k, c) && c != Closing(i)) || (k == j && c == Message(u))
    {}
    assert Carries(s', j, Message(u));
    assert forall k :: k != j ==> (Unused(s', k) <==> Unused(s, k));
  }

  lemma JobKeptDrained(s: State, i: nat)
    requires JobInv(s) && CanTakeNext(s, i) && s.workers[i].pc.jobId != 0
    requires s.workers[i].pc.jobId !in s.q.jobs || s.q.jobs[s.workers[i].pc.jobId].queue == []
    ensures JobInv(ApplyNextOfJob(s, i))
  {
    var s' := ApplyNextOfJob(s, i);
    var j := s.workers[i].pc.jobId;
    assert Carries(s, j, Closing(i));
    forall k, c ensures Carries(s', k, c) <==> Carries(s, k, c) && c != Closing(i) {}
    assert Unused(s', j);
    assert forall k :: k != j ==> (Unused(s', k) <==> Unused(s, k));
  }

  lemma JobKeptRelease(s: State, t: Thread)
    requires JobInv(s) && Processing(s, t) && Releases(s, t) && |s.place| == |s.received|
    requires forall k :: 0 <= k < |s.q.jobs[ProcOf(s, t).p.arg].queue| ==>
      Known(s.received, s.place, s.q.jobs[ProcOf(s, t).p.arg].queue[k], InJob(ProcOf(s, t).p.arg))
    ensures JobInv(ApplyRelease(s, t))
  {
    var s' := ApplyRelease(s, t);
    AllAtEffect(s.place, s.q.jobs[ProcOf(s, t).p.arg].queue, ComingBack(t));
    forall j, c ensures Carries(s', j, c) <==> Carries(s, j, c) {}
    assert forall j :: Unused(s', j) <==> Unused(s, j);
  }

  lemma JobKeptHandBack(s: State, t: Thread)
    requires JobInv(s) && Processing(s, t) && HandsBack(s, t)
    requires Known(s.received, s.place, ProcOf(s, t).rest[0], ComingBack(t))
    ensures JobInv(ApplyHandBack(s, t))
  {
    var s' := ApplyHandBack(s, t);
    forall j, c ensures Carries(s', j, c) <==> Carries(s, j, c) {}
    assert forall j :: Unused(s', j) <==> Unused(s, j);
  }

  /** A job id is taken again only when nothing of its earlier life is left outstanding. */
  ghost predicate CleanAcquire(s: State, t: Thread, out: Outcome)
    requires Processing(s, t)
  {
    ProcOf(s, t).Run? && ProcOf(s, t).p.kind.JobAcq? && out.newId != 0 ==> Unused(s, out.newId)
  }

  /** What the server completes stood for no job. */
  lemma ServerCompleteCarries(s: State, out: Outcome, j: nat, c: Carrier)
    requires CanProcess(s, Server, out) && Known(s.received, s.place, ProcOf(s, Server).p, AtServer)
    ensures Carries(ApplyComplete(s, Server, out), j, c) <==> Carries(s, j, c)
  {
  }

  /** A worker that completes a message stands for it from then on. */
  lemma WorkerCompleteCarries(s: State, i: nat, out: Outcome, j: nat, c: Carrier)
    requires CanProcess(s, OfPool(i), out) && Known(s.received, s.place, ProcOf(s, OfPool(i)).p, AtWorker(i))
    ensures var p := ProcOf(s, OfPool(i)).p;
      Carries(ApplyComplete(s, OfPool(i), out), j, c) <==>
        (Carries(s, j, c) && c != Message(p.uid)) || (j == p.jobId != 0 && c == Closing(i))
  {
  }

  /** One carrier of job j is exchanged for another. */
  ghost predicate Exchanged(s: State, s': State, j: nat, c: Carrier, c': Carrier) {
    && Carries(s, j, c) && (forall k, d :: Carries(s, k, d) && d == c ==> k == j)
    && forall k, d :: Carries(s', k, d) <==> (Carries(s, k, d) && d != c) || (k == j != 0 && d == c')
  }

  lemma ExchangedUnused(s: State, s': State, j: nat, c: Carrier, c': Carrier, k: nat)
    requires Exchanged(s, s', j, c, c') && k != 0
    ensures Unused(s', k) <==> Unused(s, k)
  {
    if k == j {
      assert Carries(s', j, c');
    } else if d :| Carries(s, k, d) {
      assert Carries(s', k, d);
    }
  }

  /** With the outstanding messages of each job as they were, opening job `id` keeps one-per-job exactly
    * when nothing stands for it. */
  lemma JobOpened(s: State, s': State, id: nat)
    requires JobInv(s) && 0 !in s.q.jobs && id != 0 && id !in s.q.jobs
    requires s'.q.jobs == s.q.jobs[id := Job(true, [])]
    requires forall k, c, d :: k != 0 && Carries(s', k, c) && Carries(s', k, d) ==> c == d
    requires forall k :: k != 0 ==> (Unused(s', k) <==> Unused(s, k))
    ensures JobInv(s') <==> Unused(s, id)
  {
    assert id in s'.q.jobs && s'.q.jobs[id].empty;
  }

  lemma JobsSame(s: State, s': State)
    requires JobInv(s) && 0 !in s.q.jobs && s'.q.jobs == s.q.jobs
    requires forall k, c, d :: k != 0 && Carries(s', k, c) && Carries(s', k, d) ==> c == d
    requires forall k :: k != 0 ==> (Unused(s', k) <==> Unused(s, k))
    ensures JobInv(s')
  {
  }

  lemma ExchangedOne(s: State, s': State, j: nat, c: Carrier, c': Carrier)
    requires JobInv(s) && Exchanged(s, s', j, c, c')
    ensures forall k, d, e :: k != 0 && Carries(s', k, d) && Carries(s', k, e) ==> d == e
    ensures forall k :: k != 0 ==> (Unused(s', k) <==> Unused(s, k))
  {
    forall k | k != 0 ensures Unused(s', k) <==> Unused(s, k) {
      ExchangedUnused(s, s', j, c, c', k);
    }
  }

  lemma CompleteCarriers(s: State, t: Thread, out: Outcome)
    requires JobInv(s) && CanProcess(s, t, out) && Known(s.received, s.place, ProcOf(s, t).p, HandOf(t))
    ensures var s' := ApplyComplete(s, t, out);
      && (forall k, d, e :: k != 0 && Carries(s', k, d) && Carries(s', k, e) ==> d == e)
      && (forall k :: k != 0 ==> (Unused(s', k) <==> Unused(s, k)))
  {
    var s' := ApplyComplete(s, t, out);
    match t
    case Server =>
      forall j, c ensures Carries(s', j, c) <==> Carries(s, j, c) {
        ServerCompleteCarries(s, out, j, c);
      }
      assert forall j :: Unused(s', j) <==> Unused(s, j);
    case OfPool(i) =>
      var p := ProcOf(s, t).p;
      forall j, c
        ensures Carries(s', j, c) <==>
          (Carries(s, j, c) && c != Message(p.uid)) || (j == p.jobId != 0 && c == Closing(i))
      {
        WorkerCompleteCarries(s, i, out, j, c);
      }
      assert Exchanged(s, s', p.jobId, Message(p.uid), Closing(i));
      ExchangedOne(s, s', p.jobId, Message(p.uid), Closing(i));
  }

  lemma CompleteJobs(s: State, t: Thread, out: Outcome)
    requires Processing(s, t)
    ensures ApplyComplete(s, t, out).q == QueuesAfter(s.q, ProcOf(s, t), out)
  {
  }

  /** One-per-job survives the completion of a message exactly when it does not re-issue a job
    * id of which a message is still outstanding. */
  lemma JobKeptComplete(s: State, t: Thread, out: Outcome)
    requires JobInv(s) && CanProcess(s, t, out) && !Releases(s, t) && !HandsBack(s, t)
    requires Known(s.received, s.place, ProcOf(s, t).p, HandOf(t)) && 0 !in s.q.jobs
    ensures JobInv(ApplyComplete(s, t, out)) <==> CleanAcquire(s, t, out)
  {
    CompleteCarriers(s, t, out);
    CompleteJobs(s, t, out);
    if ProcOf(s, t).Run? && ProcOf(s, t).p.kind.JobAcq? && out.newId != 0 {
      JobOpened(s, ApplyComplete(s, t, out), out.newId);
    } else {
      JobsSame(s, ApplyComplete(s, t, out));
    }
  }

  // ---------------------------------------------------------------- semaphores

  /** Threads that hold a semaphore count without having taken a message yet, or have put a
    * message without having posted yet. */
  function Owes(pool: nat): Worker -> bool {
    (w: Worker) => (w.pc.Awake? && w.pool == pool) || w.pc == Passing(pool)
  }

  predicate ServerOwes(pc: ServerPc, pool: nat) {
    pc.Posting? && pc.pool == pool
  }

  ghost predicate SemInv(s: State) {
    && |s.q.sem| == |s.q.ready|
    && forall pool :: 0 <= pool < |s.q.ready| ==>
      |s.q.ready[pool]| == s.q.sem[pool] + Count(s.workers, Owes(pool)) + One(ServerOwes(s.server, pool))
  }

  lemma Recount(ws: seq<Worker>, i: nat, pc: WorkerPc)
    requires i < |ws|
    ensures forall pool :: Count(ws[i := ws[i].(pc := pc)], Owes(pool)) + One(Owes(pool)(ws[i])) ==
                    Count(ws, Owes(pool)) + One(Owes(pool)(ws[i].(pc := pc)))
  {
    forall pool ensures Count(ws[i := ws[i].(pc := pc)], Owes(pool)) + One(Owes(pool)(ws[i])) ==
                    Count(ws, Owes(pool)) + One(Owes(pool)(ws[i].(pc := pc)))
    {
      CountUpdate(ws, i, ws[i].(pc := pc), Owes(pool));
    }
  }

  lemma SemKeptByServer(s: State)
    requires SemInv(s)
    ensures CanDispatch(s) ==> SemInv(ApplyDispatch(s))
    ensures s.server.Posting? && s.server.pool < |s.q.sem| ==> SemInv(ApplyServerPost(s))
  {
  }

  lemma SemKeptPend(s: State, i: nat)
    requires SemInv(s) && CanPend(s, i)
    ensures SemInv(ApplyPend(s, i))
  {
    Recount(s.workers, i, Awake);
  }

  lemma SemKeptPost(s: State, i: nat)
    requires SemInv(s) && CanPost(s, i)
    ensures SemInv(ApplyWorkerPost(s, i))
  {
    Recount(s.workers, i, Idle);
  }

  /** A worker that got a semaphore count finds a message. */
  lemma ReadyForAwake(s: State, i: nat)
    requires SemInv(s) && CanGet(s, i)
    ensures s.q.ready[s.workers[i].pool] != []
  {
    CountHit(s.workers, i, Owes(s.workers[i].pool));
  }

  lemma SemKeptGet(s: State, i: nat)
    requires SemInv(s) && CanGet(s, i)
    ensures SemInv(ApplyGet(s, i))
  {
    ReadyForAwake(s, i);
    Recount(s.workers, i, Busy(Run(s.q.ready[s.workers[i].pool][0])));
  }

  lemma SemKeptNext(s: State, i: nat)
    requires SemInv(s) && CanTakeNext(s, i)
    ensures SemInv(ApplyNextOfJob(s, i))
  {
    Recount(s.workers, i, ApplyNextOfJob(s, i).workers[i].pc);
  }

  predicate OwesNothing(pc: WorkerPc) {
    !pc.Awake? && !pc.Passing?
  }

  /** Processing a message puts and posts nothing. */
  lemma ProcessOwesNothing(s: State, t: Thread, out: Outcome)
    requires CanProcess(s, t, out)
    ensures var s' := ApplyProcess(s, t, out);
      && s'.q.ready == s.q.ready && s'.q.sem == s.q.sem
      && match t
         case Server => s'.workers == s.workers && !s.server.Posting? && !s'.server.Posting?
         case OfPool(i) =>
           && s'.server == s.server && i < |s.workers| == |s'.workers|
           && s'.workers == s.workers[i := s.workers[i].(pc := s'.workers[i].pc)]
           && OwesNothing(s.workers[i].pc) && OwesNothing(s'.workers[i].pc)
  {
  }

  lemma SemKeptProcess(s: State, t: Thread, out: Outcome)
    requires SemInv(s) && CanProcess(s, t, out)
    ensures SemInv(ApplyProcess(s, t, out))
  {
    ProcessOwesNothing(s, t, out);
    if t.OfPool? {
      Recount(s.workers, t.i, ApplyProcess(s, t, out).workers[t.i].pc);
    }
  }
}
