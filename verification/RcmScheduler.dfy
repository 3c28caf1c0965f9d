/** The RcmServer scheduler: one server thread, worker pools with a ready queue and a counting
  * semaphore each, and job streams that serialise the messages of one job. A run is any
  * interleaving of the atomic steps that the threads take between lock and semaphore
  * operations. This file holds the machine; RcmSchedulerProof.dfy holds what is proved. */
module RcmScheduler {
  import opened Counting
  import opened RcmJobIds

  datatype Kind = RcmMsg | Dpc | SymAdd | SymIdx | Cmd | JobAcq | JobRel | Unknown

  /** A received packet. uid is its position in the order of receipt; arg is the job id
    * that a JOB_REL message names. */
  datatype Packet = Packet(uid: nat, kind: Kind, jobId: nat, poolId: nat, arg: nat)

  const DISCRETE_JOB_ID: nat := 0
  const DEFAULT_POOL_ID: nat := 0x8000

  // Status codes stored in the four status bits of a returned packet.
  const SUCCESS: nat := 0
  const INVALID_FXN: nat := 1
  const SYMBOL_NOT_FOUND: nat := 2
  const MSG_FXN_ERR: nat := 4
  const ERROR: nat := 5
  const UNPROCESSED: nat := 6
  const JOB_NOT_FOUND: nat := 7
  const POOL_NOT_FOUND: nat := 8
  const DPC_TYPE: nat := 2

  // ---------------------------------------------------------------- queues

  /** A job stream: `empty` says that no message of the job is on a ready queue or with a worker. */
  datatype Job = Job(empty: bool, queue: seq<Packet>)

  /** The state the server thread and the workers share. */
  datatype Queues = Queues(jobs: map<nat, Job>, ready: seq<seq<Packet>>, sem: seq<nat>)

  /** Bit 15 marks a static pool id. */
  predicate StaticPool(poolId: nat) {
    poolId / 0x8000 % 2 == 1
  }

  /** The pool that a static pool id names: the low eight bits are an offset into the table. */
  function PoolOf(poolId: nat, pools: nat): Option<nat> {
    if poolId % 0x100 < pools then Some(poolId % 0x100) else None
  }

  function PutReady(q: Queues, pool: nat, p: Packet): Queues
    requires pool < |q.ready|
  {
    q.(ready := q.ready[pool := q.ready[pool] + [p]])
  }

  datatype Verdict = Reject(status: nat) | Parked | OnReady(pool: nat)

  /** What dispatch does to the queues, up to the semaphore post. */
  function Dispatch(q: Queues, p: Packet): (Queues, Verdict) {
    match PoolOf(p.poolId, |q.ready|)
    case None => (q, Reject(POOL_NOT_FOUND))
    case Some(pool) =>
      if p.jobId == DISCRETE_JOB_ID then
        (PutReady(q, pool, p), OnReady(pool))
      else if p.jobId !in q.jobs then
        (q, Reject(JOB_NOT_FOUND))
      else if q.jobs[p.jobId].empty then
        (PutReady(q.(jobs := q.jobs[p.jobId := q.jobs[p.jobId].(empty := false)]), pool, p),
         OnReady(pool))
      else
        (q.(jobs := q.jobs[p.jobId := q.jobs[p.jobId].(queue := q.jobs[p.jobId].queue + [p])]),
         Parked)
  }

  datatype Handover = NoJob | Drained | Passed(pool: nat, p: Packet) | BadPool(p: Packet)

  /** What a worker does to the queues after it processed a message of job j, up to the post. */
  function Finish(q: Queues, j: nat): (Queues, Handover) {
    if j !in q.jobs then
      (q, NoJob)
    else if q.jobs[j].queue == [] then
      (q.(jobs := q.jobs[j := q.jobs[j].(empty := true)]), Drained)
    else
      var p := q.jobs[j].queue[0];
      var popped := q.(jobs := q.jobs[j := q.jobs[j].(queue := q.jobs[j].queue[1..])]);
      match PoolOf(p.poolId, |q.ready|)
      case None => (popped, BadPool(p))
      case Some(pool) => (PutReady(popped, pool, p), Passed(pool, p))
  }

  function Post(q: Queues, pool: nat): Queues
    requires pool < |q.sem|
  {
    q.(sem := q.sem[pool := q.sem[pool] + 1])
  }

  function Acquire(q: Queues, id: nat): Queues {
    q.(jobs := q.jobs[id := Job(true, [])])
  }

  function Release(q: Queues, id: nat): Queues {
    q.(jobs := q.jobs - {id})
  }

  // ---------------------------------------------------------------- threads

  /** Where a thread is inside process_P: about to handle p, or handing back the messages
    * that a released job left behind. */
  datatype Proc = Run(p: Packet) | Returning(p: Packet, rest: seq<Packet>)

  datatype ServerPc =
    | Waiting
    | Got(p: Packet)
    | InBand(proc: Proc)
    | Posting(pool: nat, gated: bool)

  datatype WorkerPc =
    | Idle                     // before the semaphore pend, no packet in hand
    | Awake                    // past the pend, before taking from the ready queue
    | Busy(proc: Proc)
    | Finishing(jobId: nat)    // done with a job message, about to look at the job stream
    | Passing(pool: nat)       // holds the gate: next message queued, semaphore not yet posted
    | Stale(p: Packet)         // kept a packet that was already given back

  datatype Worker = Worker(pool: nat, pc: WorkerPc)

  datatype Thread = Server | OfPool(i: nat)

  datatype Gate = Free | HeldBy(t: Thread)

  /** Where a received packet is. The last three are final dispositions. */
  datatype Place =
    | AtServer
    | InReady(pool: nat)
    | InJob(jobId: nat)
    | AtWorker(i: nat)
    | ComingBack(t: Thread)
    | Replied(status: nat)
    | Freed
    | Dropped
  {
    predicate Final() { Replied? || Freed? || Dropped? }
  }

  /** The 16-bit job id counter. History: how often it has been advanced since the server was created,
    * and the count at which each id was issued last. */
  datatype Ids = Ids(counter: nat, advances: nat, issuedAt: map<nat, nat>)

  /** received, place and executed are histories: every packet in order of receipt, where each
    * one is now, and the packets that workers have started, in order. */
  datatype State = State(
    q: Queues, ids: Ids, server: ServerPc, workers: seq<Worker>, gate: Gate,
    received: seq<Packet>, place: seq<Place>, executed: seq<Packet>)

  /** How a message is processed: whether the function index is valid and what the function returned,
    * which the environment decides; and for a job request how often the search advances the counter and
    * which id it obtains (0 for none), which the jobs decide. */
  datatype Outcome = Outcome(found: bool, result: int, turns: nat, newId: nat)

  datatype Step =
    | Receive(p: Packet)
    | ServerDispatch
    | ServerPost
    | Pend(i: nat)
    | Get(i: nat)
    | Process(t: Thread, out: Outcome)
    | NextOfJob(i: nat)
    | WorkerPost(i: nat)

  // ---------------------------------------------------------------- steps

  predicate InBandOnly(s: State, p: Packet) {
    p.poolId == DEFAULT_POOL_ID && forall i :: 0 <= i < |s.workers| ==> s.workers[i].pool != 0
  }

  /** Job messages are dispatched under the instance gate. */
  predicate NeedsGate(q: Queues, p: Packet) {
    p.jobId != DISCRETE_JOB_ID && PoolOf(p.poolId, |q.ready|).Some?
  }

  predicate Processing(s: State, t: Thread) {
    match t
    case Server => s.server.InBand?
    case OfPool(i) => i < |s.workers| && s.workers[i].pc.Busy?
  }

  function ProcOf(s: State, t: Thread): Proc
    requires Processing(s, t)
  {
    match t
    case Server => s.server.proc
    case OfPool(i) => s.workers[i].pc.proc
  }

  /** The search of acqJobId_P from this counter ends after n advances with this id, the first that no
    * job has, or with none when it has been round once. */
  predicate AcquiredId(q: Queues, counter: nat, n: nat, id: nat) {
    && 1 <= n <= LAST_ID
    && (forall m :: 1 <= m < n ==> IdAfter(counter, m) in q.jobs)
    && if IdAfter(counter, n) in q.jobs then n == LAST_ID && id == 0 else id == IdAfter(counter, n)
  }

  predicate CanDispatch(s: State) {
    && s.server.Got?
    && (InBandOnly(s, s.server.p) || !NeedsGate(s.q, s.server.p) || s.gate.Free?)
  }

  predicate CanPend(s: State, i: nat) {
    && i < |s.workers| && s.workers[i].pc.Idle?
    && s.workers[i].pool < |s.q.sem| && s.q.sem[s.workers[i].pool] > 0
  }

  predicate CanGet(s: State, i: nat) {
    i < |s.workers| && s.workers[i].pc.Awake? && s.workers[i].pool < |s.q.ready|
  }

  predicate CanProcess(s: State, t: Thread, out: Outcome) {
    && Processing(s, t)
    && (ProcOf(s, t).Run? && ProcOf(s, t).p.kind.JobAcq? ==>
          s.gate.Free? && AcquiredId(s.q, s.ids.counter, out.turns, out.newId))
    && (ProcOf(s, t).Run? && ProcOf(s, t).p.kind.JobRel? ==> s.gate.Free?)
  }

  predicate CanTakeNext(s: State, i: nat) {
    i < |s.workers| && s.workers[i].pc.Finishing? && s.gate.Free?
  }

  predicate CanPost(s: State, i: nat) {
    i < |s.workers| && s.workers[i].pc.Passing? && s.workers[i].pc.pool < |s.q.sem|
  }

  predicate Enabled(s: State, step: Step) {
    match step
    case Receive(p) => s.server.Waiting? && p.uid == |s.received| && StaticPool(p.poolId)
    case ServerDispatch => CanDispatch(s)
    case ServerPost => s.server.Posting? && s.server.pool < |s.q.sem|
    case Pend(i) => CanPend(s, i)
    case Get(i) => CanGet(s, i)
    case Process(t, out) => CanProcess(s, t, out)
    case NextOfJob(i) => CanTakeNext(s, i)
    case WorkerPost(i) => CanPost(s, i)
  }

  function At(place: seq<Place>, p: Packet, where: Place): seq<Place> {
    if p.uid < |place| then place[p.uid := where] else place
  }

  function AllAt(place: seq<Place>, ps: seq<Packet>, where: Place): seq<Place>
    decreases ps
  {
    if ps == [] then place else AllAt(At(place, ps[0], where), ps[1..], where)
  }

  /** The status left in a packet of these kinds when it goes back. A DPC packet keeps its
    * message type in the same four bits unless its index was bad. */
  function ReplyStatus(kind: Kind, out: Outcome): nat {
    match kind
    case RcmMsg => if !out.found then INVALID_FXN else if out.result < 0 then MSG_FXN_ERR else SUCCESS
    case Cmd => if !out.found then INVALID_FXN else MSG_FXN_ERR
    case Dpc => if !out.found then SYMBOL_NOT_FOUND else DPC_TYPE
    case SymIdx => if !out.found then SYMBOL_NOT_FOUND else SUCCESS
    case _ => ERROR
  }

  function WithPc(s: State, i: nat, pc: WorkerPc): State
    requires i < |s.workers|
  {
    s.(workers := s.workers[i := s.workers[i].(pc := pc)])
  }

  /** Continue inside process_P. */
  function Continue(s: State, t: Thread, proc: Proc): State
    requires Processing(s, t)
  {
    match t
    case Server => s.(server := InBand(proc))
    case OfPool(i) => WithPc(s, i, Busy(proc))
  }

  /** Leave process_P after p: a worker that handled a job message looks at the job next. */
  function Leave(s: State, t: Thread, p: Packet): State
    requires Processing(s, t)
  {
    match t
    case Server => s.(server := Waiting)
    case OfPool(i) =>
      WithPc(s, i, if p.jobId == DISCRETE_JOB_ID then Idle else Finishing(p.jobId))
  }

  function Dispose(s: State, p: Packet, where: Place): State {
    s.(place := At(s.place, p, where))
  }

  /** A JOB_REL message takes the job off the list and keeps what was still queued there. */
  predicate Releases(s: State, t: Thread)
    requires Processing(s, t)
  {
    ProcOf(s, t).Run? && ProcOf(s, t).p.kind.JobRel? && ProcOf(s, t).p.arg in s.q.jobs
  }

  function ApplyRelease(s: State, t: Thread): State
    requires Processing(s, t) && Releases(s, t)
  {
    var p := ProcOf(s, t).p;
    var rest := s.q.jobs[p.arg].queue;
    Continue(s.(q := Release(s.q, p.arg), place := AllAt(s.place, rest, ComingBack(t))),
             t, Returning(p, rest))
  }

  /** The next message of a released job goes back to its client unprocessed. */
  predicate HandsBack(s: State, t: Thread)
    requires Processing(s, t)
  {
    ProcOf(s, t).Returning? && ProcOf(s, t).rest != []
  }

  function ApplyHandBack(s: State, t: Thread): State
    requires Processing(s, t) && HandsBack(s, t)
  {
    var Returning(p, rest) := ProcOf(s, t);
    Continue(Dispose(s, rest[0], Replied(UNPROCESSED)), t, Returning(p, rest[1..]))
  }

  /** What finally becomes of the packet in hand. */
  function Disposition(proc: Proc, out: Outcome): Place {
    match proc
    case Returning(p, rest) => Replied(SUCCESS)
    case Run(p) =>
      match p.kind
      case SymAdd => Dropped
      case Unknown => Dropped
      case Cmd => if out.found && out.result >= 0 then Freed else Replied(ReplyStatus(p.kind, out))
      case JobAcq => Replied(if out.newId == 0 then ERROR else SUCCESS)
      case JobRel => Replied(JOB_NOT_FOUND)
      case _ => Replied(ReplyStatus(p.kind, out))
  }

  function QueuesAfter(q: Queues, proc: Proc, out: Outcome): Queues {
    if proc.Run? && proc.p.kind.JobAcq? && out.newId != 0 then Acquire(q, out.newId) else q
  }

  function IdsAfter(ids: Ids, proc: Proc, out: Outcome): Ids {
    if proc.Run? && proc.p.kind.JobAcq? then
      var at := ids.advances + out.turns;
      Ids(IdAfter(ids.counter, out.turns), at,
          if out.newId == 0 then ids.issuedAt else ids.issuedAt[out.newId := at])
    else ids
  }

  function ApplyComplete(s: State, t: Thread, out: Outcome): State
    requires Processing(s, t)
  {
    var proc := ProcOf(s, t);
    Leave(Dispose(s.(q := QueuesAfter(s.q, proc, out), ids := IdsAfter(s.ids, proc, out)),
                  proc.p, Disposition(proc, out)), t, proc.p)
  }

  function ApplyProcess(s: State, t: Thread, out: Outcome): State
    requires Processing(s, t)
  {
    if Releases(s, t) then ApplyRelease(s, t)
    else if HandsBack(s, t) then ApplyHandBack(s, t)
    else ApplyComplete(s, t, out)
  }

  function ApplyDispatch(s: State): State
    requires s.server.Got?
  {
    var p := s.server.p;
    if InBandOnly(s, p) then
      s.(server := InBand(Run(p)))
    else
      var (q, verdict) := Dispatch(s.q, p);
      match verdict
      case Reject(status) => Dispose(s.(server := Waiting), p, Replied(status))
      case Parked => Dispose(s.(q := q, server := Waiting), p, InJob(p.jobId))
      case OnReady(pool) =>
        var gated := p.jobId != DISCRETE_JOB_ID;
        Dispose(s.(q := q, server := Posting(pool, gated),
                   gate := if gated then HeldBy(Server) else s.gate), p, InReady(pool))
  }

  function ApplyGet(s: State, i: nat): State
    requires CanGet(s, i)
  {
    var pool := s.workers[i].pool;
    if s.q.ready[pool] == [] then WithPc(s, i, Idle)
    else
      var p := s.q.ready[pool][0];
      WithPc(Dispose(s.(q := s.q.(ready := s.q.ready[pool := s.q.ready[pool][1..]]),
                        executed := s.executed + [p]), p, AtWorker(i)),
             i, Busy(Run(p)))
  }

  function ApplyNextOfJob(s: State, i: nat): State
    requires CanTakeNext(s, i)
  {
    var (q, handover) := Finish(s.q, s.workers[i].pc.jobId);
    match handover
    case NoJob => WithPc(s, i, Idle)
    case Drained => WithPc(s.(q := q), i, Idle)
    case Passed(pool, p) =>
      WithPc(Dispose(s.(q := q, gate := HeldBy(OfPool(i))), p, InReady(pool)), i, Passing(pool))
    case BadPool(p) =>
      WithPc(Dispose(s.(q := q), p, Replied(POOL_NOT_FOUND)), i, Stale(p))
  }

  function ApplyReceive(s: State, p: Packet): State {
    s.(server := Got(p), received := s.received + [p], place := s.place + [AtServer])
  }

  function ApplyServerPost(s: State): State
    requires s.server.Posting? && s.server.pool < |s.q.sem|
  {
    s.(q := Post(s.q, s.server.pool), server := Waiting,
       gate := if s.server.gated then Free else s.gate)
  }

  function ApplyPend(s: State, i: nat): State
    requires CanPend(s, i)
  {
    var pool := s.workers[i].pool;
    WithPc(s.(q := s.q.(sem := s.q.sem[pool := s.q.sem[pool] - 1])), i, Awake)
  }

  function ApplyWorkerPost(s: State, i: nat): State
    requires CanPost(s, i)
  {
    WithPc(s.(q := Post(s.q, s.workers[i].pc.pool), gate := Free), i, Idle)
  }

  function Apply(s: State, step: Step): State
    requires Enabled(s, step)
  {
    match step
    case Receive(p) => ApplyReceive(s, p)
    case ServerDispatch => ApplyDispatch(s)
    case ServerPost => ApplyServerPost(s)
    case Pend(i) => ApplyPend(s, i)
    case Get(i) => ApplyGet(s, i)
    case Process(t, out) => ApplyProcess(s, t, out)
    case NextOfJob(i) => ApplyNextOfJob(s, i)
    case WorkerPost(i) => ApplyWorkerPost(s, i)
  }

  /** A freshly created server: no jobs, empty pools, every worker before its first pend. */
  predicate Initial(s: State) {
    && |s.q.ready| == |s.q.sem| > 0
    && s.q.jobs == map[] && s.ids == Ids(LAST_ID, 0, map[])
    && (forall p :: 0 <= p < |s.q.ready| ==> s.q.ready[p] == [] && s.q.sem[p] == 0)
    && s.server.Waiting? && s.gate.Free?
    && (forall i :: 0 <= i < |s.workers| ==> s.workers[i].pool < |s.q.ready| && s.workers[i].pc.Idle?)
    && s.received == [] && s.place == [] && s.executed == []
  }
}
