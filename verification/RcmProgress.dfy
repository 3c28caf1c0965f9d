/** The scheduler comes to rest: whatever the interleaving, and also when job ids are re-issued, the
  * threads take at most nine steps for each message received. */
module RcmProgress {
  import opened Counting
  import opened RcmScheduler
  import opened RcmLedger
  import opened RcmSchedulerProof
  import opened RcmSchedulerTheorems

  // ---------------------------------------------------------------- sums

  function Total<T>(s: seq<T>, cost: T -> nat): nat {
    if s == [] then 0 else cost(s[0]) + Total(s[1..], cost)
  }

  lemma {:induction false} TotalUpdate<T>(s: seq<T>, i: nat, x: T, cost: T -> nat)
    requires i < |s|
    ensures Total(s[i := x], cost) + cost(s[i]) == Total(s, cost) + cost(x)
  {
    if i == 0 {
      assert s[i := x][1..] == s[1..];
    } else {
      assert s[i := x][1..] == s[1..][i - 1 := x];
      TotalUpdate(s[1..], i - 1, x, cost);
    }
  }

  lemma {:induction false} TotalLast<T>(s: seq<T>, x: T, cost: T -> nat)
    ensures Total(s + [x], cost) == Total(s, cost) + cost(x)
  {
    if s == [] {
      assert s + [x] == [x] && [x][1..] == [];
    } else {
      assert (s + [x])[1..] == s[1..] + [x];
      TotalLast(s[1..], x, cost);
    }
  }

  lemma {:induction false} TotalZero<T>(s: seq<T>, cost: T -> nat)
    requires forall i :: 0 <= i < |s| ==> cost(s[i]) == 0
    ensures Total(s, cost) == 0
  {
    if s != [] {
      TotalZero(s[1..], cost);
    }
  }

  // ---------------------------------------------------------------- what is left to do

  /** The most steps that threads still take for a message at this place, apart from those of the thread
    * that has it in hand. */
  function PlaceCost(w: Place): nat {
    match w
    case InReady(_) => 3
    case InJob(_) => 6
    case ComingBack(_) => 1
    case _ => 0
  }

  function ProcCost(proc: Proc): nat {
    if proc.Run? then 3 else 2
  }

  function WorkerCost(w: Worker): nat {
    match w.pc
    case Awake => 1
    case Busy(proc) => ProcCost(proc)
    case Finishing(_) => 1
    case Passing(_) => 3
    case _ => 0
  }

  function ServerCost(pc: ServerPc): nat {
    match pc
    case Waiting => 0
    case Got(_) => 8
    case InBand(proc) => ProcCost(proc)
    case Posting(_, _) => 3
  }

  function AtPlaces(): Place -> nat {
    (w: Place) => PlaceCost(w)
  }

  function OfWorkers(): Worker -> nat {
    (w: Worker) => WorkerCost(w)
  }

  function OfTokens(): nat -> nat {
    (n: nat) => 2 * n
  }

  function Work(s: State): nat {
    Total(s.place, AtPlaces()) + Total(s.q.sem, OfTokens()) + Total(s.workers, OfWorkers()) + ServerCost(s.server)
  }

  /** What the steps keep whether or not ids are re-issued. */
  ghost predicate Sound(s: State) {
    PlaceInv(s) && Shape(s) && GateInv(s) && SemInv(s) && NewestInHand(s)
  }

  lemma StepKeepsSound(s: State, step: Step)
    requires Sound(s) && Enabled(s, step)
    ensures Sound(Apply(s, step))
  {
    PlaceKept(s, step);
    ShapeKept(s, step);
    SemKept(s, step);
    NewestKept(s, step);
  }

  // ---------------------------------------------------------------- every step leaves less

  lemma Moves(place: seq<Place>, p: Packet, w: Place)
    requires p.uid < |place|
    ensures Total(At(place, p, w), AtPlaces()) + PlaceCost(place[p.uid]) == Total(place, AtPlaces()) + PlaceCost(w)
  {
    TotalUpdate(place, p.uid, w, AtPlaces());
  }

  lemma WorkerMoves(s: State, i: nat, pc: WorkerPc)
    requires i < |s.workers|
    ensures Total(WithPc(s, i, pc).workers, OfWorkers()) + WorkerCost(s.workers[i])
      == Total(s.workers, OfWorkers()) + WorkerCost(s.workers[i].(pc := pc))
  {
    TotalUpdate(s.workers, i, s.workers[i].(pc := pc), OfWorkers());
  }

  lemma {:induction false} AllMove(place: seq<Place>, ps: seq<Packet>, t: Thread)
    requires forall k :: 0 <= k < |ps| ==> ps[k].uid < |place| && PlaceCost(place[ps[k].uid]) >= 1
    ensures Total(AllAt(place, ps, ComingBack(t)), AtPlaces()) <= Total(place, AtPlaces())
    decreases ps
  {
    if ps != [] {
      Moves(place, ps[0], ComingBack(t));
      AllMove(At(place, ps[0], ComingBack(t)), ps[1..], t);
    }
  }

  lemma DispatchLess(s: State)
    requires PlaceInv(s) && NewestInHand(s) && CanDispatch(s)
    ensures Work(ApplyDispatch(s)) < Work(s)
  {
    ServerIsKnown(s);
    var s' := ApplyDispatch(s);
    var p := s.server.p;
    if !InBandOnly(s, p) {
      Moves(s.place, p, s'.place[p.uid]);
    }
  }

  lemma ServerPostLess(s: State)
    requires s.server.Posting? && s.server.pool < |s.q.sem|
    ensures Work(ApplyServerPost(s)) < Work(s)
  {
    TotalUpdate(s.q.sem, s.server.pool, s.q.sem[s.server.pool] + 1, OfTokens());
  }

  lemma PendLess(s: State, i: nat)
    requires CanPend(s, i)
    ensures Work(ApplyPend(s, i)) < Work(s)
  {
    var pool := s.workers[i].pool;
    TotalUpdate(s.q.sem, pool, (s.q.sem[pool] - 1) as nat, OfTokens());
    WorkerMoves(s, i, Awake);
  }

  lemma EmptyGetLess(s: State, i: nat)
    requires CanGet(s, i) && s.q.ready[s.workers[i].pool] == []
    ensures Work(ApplyGet(s, i)) < Work(s)
  {
    WorkerMoves(s, i, Idle);
  }

  lemma GetLess(s: State, i: nat)
    requires CanGet(s, i) && s.q.ready[s.workers[i].pool] != []
    requires var pool := s.workers[i].pool; Known(s.received, s.place, s.q.ready[pool][0], InReady(pool))
    ensures Work(ApplyGet(s, i)) < Work(s)
  {
    var p := s.q.ready[s.workers[i].pool][0];
    Moves(s.place, p, AtWorker(i));
    WorkerMoves(s, i, Busy(Run(p)));
  }

  lemma GetOrNotLess(s: State, i: nat)
    requires PlaceInv(s) && CanGet(s, i)
    ensures Work(ApplyGet(s, i)) < Work(s)
  {
    var pool := s.workers[i].pool;
    if s.q.ready[pool] == [] {
      EmptyGetLess(s, i);
    } else {
      assert Known(s.received, s.place, Contents(s)(InReady(pool))[0], InReady(pool));
      GetLess(s, i);
    }
  }

  lemma DrainedLess(s: State, i: nat)
    requires CanTakeNext(s, i)
    requires var j := s.workers[i].pc.jobId; j in s.q.jobs ==> s.q.jobs[j].queue == []
    ensures Work(ApplyNextOfJob(s, i)) < Work(s)
  {
    WorkerMoves(s, i, Idle);
  }

  lemma PassedLess(s: State, i: nat)
    requires CanTakeNext(s, i)
    requires var j := s.workers[i].pc.jobId;
      && j in s.q.jobs && s.q.jobs[j].queue != []
      && PoolOf(s.q.jobs[j].queue[0].poolId, |s.q.ready|).Some?
      && Known(s.received, s.place, s.q.jobs[j].queue[0], InJob(j))
    ensures Work(ApplyNextOfJob(s, i)) < Work(s)
  {
    var p := s.q.jobs[s.workers[i].pc.jobId].queue[0];
    var pool := p.poolId % 0x100;
    Moves(s.place, p, InReady(pool));
    WorkerMoves(s, i, Passing(pool));
  }

  lemma NextLess(s: State, i: nat)
    requires PlaceInv(s) && Shape(s) && CanTakeNext(s, i)
    ensures Work(ApplyNextOfJob(s, i)) < Work(s)
  {
    var j := s.workers[i].pc.jobId;
    if j in s.q.jobs && s.q.jobs[j].queue != [] {
      QueueKnown(s, j);
      assert JobOk(j, s.q.jobs[j], |s.q.ready|);
      PassedLess(s, i);
    } else {
      DrainedLess(s, i);
    }
  }

  lemma WorkerPostLess(s: State, i: nat)
    requires CanPost(s, i)
    ensures Work(ApplyWorkerPost(s, i)) < Work(s)
  {
    var pool := s.workers[i].pc.pool;
    TotalUpdate(s.q.sem, pool, s.q.sem[pool] + 1, OfTokens());
    WorkerMoves(s, i, Idle);
  }

  lemma ThreadGoesOn(s: State, t: Thread, proc: Proc)
    requires Processing(s, t)
    ensures var s' := Continue(s, t, proc);
      Total(s'.workers, OfWorkers()) + ServerCost(s'.server) + ProcCost(ProcOf(s, t)) ==
      Total(s.workers, OfWorkers()) + ServerCost(s.server) + ProcCost(proc)
  {
    if t.OfPool? {
      WorkerMoves(s, t.i, Busy(proc));
    }
  }

  lemma LeavingLess(s: State, t: Thread, p: Packet)
    requires Processing(s, t)
    ensures var s' := Leave(s, t, p);
      Total(s'.workers, OfWorkers()) + ServerCost(s'.server) < Total(s.workers, OfWorkers()) + ServerCost(s.server)
  {
    if t.OfPool? {
      WorkerMoves(s, t.i, if p.jobId == DISCRETE_JOB_ID then Idle else Finishing(p.jobId));
    }
  }

  lemma ReleaseLess(s: State, t: Thread)
    requires Processing(s, t) && Releases(s, t)
    requires forall k :: 0 <= k < |s.q.jobs[ProcOf(s, t).p.arg].queue| ==>
      Known(s.received, s.place, s.q.jobs[ProcOf(s, t).p.arg].queue[k], InJob(ProcOf(s, t).p.arg))
    ensures Work(ApplyRelease(s, t)) < Work(s)
  {
    var p := ProcOf(s, t).p;
    AllMove(s.place, s.q.jobs[p.arg].queue, t);
    ThreadGoesOn(s, t, Returning(p, s.q.jobs[p.arg].queue));
  }

  lemma HandBackLess(s: State, t: Thread)
    requires Processing(s, t) && HandsBack(s, t)
    requires Known(s.received, s.place, ProcOf(s, t).rest[0], ComingBack(t))
    ensures Work(ApplyHandBack(s, t)) < Work(s)
  {
    var Returning(p, rest) := ProcOf(s, t);
    Moves(s.place, rest[0], Replied(UNPROCESSED));
    ThreadGoesOn(s, t, Returning(p, rest[1..]));
  }

  lemma CompleteLess(s: State, t: Thread, out: Outcome)
    requires Processing(s, t) && Known(s.received, s.place, ProcOf(s, t).p, HandOf(t))
    ensures Work(ApplyComplete(s, t, out)) < Work(s)
  {
    var proc := ProcOf(s, t);
    Moves(s.place, proc.p, Disposition(proc, out));
    LeavingLess(s, t, proc.p);
  }

  lemma ProcessLess(s: State, t: Thread, out: Outcome)
    requires PlaceInv(s) && Processing(s, t)
    ensures Work(ApplyProcess(s, t, out)) < Work(s)
  {
    if Releases(s, t) {
      QueueKnown(s, ProcOf(s, t).p.arg);
      ReleaseLess(s, t);
    } else if HandsBack(s, t) {
      RestKnown(s, t);
      HandBackLess(s, t);
    } else {
      HandKnown(s, t);
      CompleteLess(s, t, out);
    }
  }

  lemma ReceiveMore(s: State, p: Packet)
    requires s.server.Waiting?
    ensures Work(ApplyReceive(s, p)) == Work(s) + 8
  {
    TotalLast(s.place, AtServer, AtPlaces());
  }

  /** THEOREM. Every step of a thread, other than the receipt of a message, leaves less to do; a receipt
    * adds eight. */
  lemma StepLeavesLess(s: State, step: Step)
    requires Sound(s) && Enabled(s, step)
    ensures if step.Receive? then Work(Apply(s, step)) == Work(s) + 8 else Work(Apply(s, step)) < Work(s)
  {
    match step
    case Receive(p) => ReceiveMore(s, p);
    case ServerDispatch => DispatchLess(s);
    case ServerPost => ServerPostLess(s);
    case Pend(i) => PendLess(s, i);
    case Get(i) => GetOrNotLess(s, i);
    case Process(t, out) => ProcessLess(s, t, out);
    case NextOfJob(i) => NextLess(s, i);
    case WorkerPost(i) => WorkerPostLess(s, i);
  }

  // ---------------------------------------------------------------- runs

  lemma StepReceives(s: State, step: Step)
    requires Enabled(s, step)
    ensures |Apply(s, step).received| == |s.received| + One(step.Receive?)
  {
  }

  lemma {:induction false} RunLeavesLess(s: State, run: seq<Step>)
    requires Sound(s) && Possible(s, run)
    ensures var s' := After(s, run);
      && |s'.received| >= |s.received|
      && |run| + Work(s') <= Work(s) + 9 * (|s'.received| - |s.received|)
    decreases run
  {
    if run != [] {
      StepKeepsSound(s, run[0]);
      StepLeavesLess(s, run[0]);
      StepReceives(s, run[0]);
      RunLeavesLess(Apply(s, run[0]), run[1..]);
    }
  }

  lemma StartsIdle(s: State)
    requires Initial(s)
    ensures Sound(s) && Work(s) == 0
  {
    InitialInv(s);
    TotalZero(s.place, AtPlaces());
    TotalZero(s.q.sem, OfTokens());
    TotalZero(s.workers, OfWorkers());
  }

  /** THEOREM. In no run do the threads take more than nine steps for each message received, its receipt
    * included: when clients stop sending, the server comes to rest, whatever it has been sent. */
  lemma NineStepsEach(s: State, run: seq<Step>)
    requires Initial(s) && Possible(s, run)
    ensures |run| <= 9 * |After(s, run).received|
  {
    StartsIdle(s);
    RunLeavesLess(s, run);
  }
}
