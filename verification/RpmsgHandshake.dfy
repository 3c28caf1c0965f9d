/** The PAUSE / ACK / CONTINUE handshake of the rpmsg transport: one dispatch thread in its select loop
  * and any number of threads in TransportRpmsg_bind and TransportRpmsg_unbind, as atomic steps. */
module RpmsgHandshake {
  import opened Counting
  import opened RpmsgTables

  const PAUSE: nat := 2
  const CONTINUE: nat := 4
  const SHUTDOWN: nat := 8

  /** The event bits of a counter value. */
  predicate HasPause(v: nat) { v / 2 % 2 == 1 }
  predicate HasContinue(v: nat) { v / 4 % 2 == 1 }
  predicate HasShutdown(v: nat) { v / 8 % 2 == 1 }

  datatype Request = BindReq(p: nat, qId: nat) | UnbindReq(p: nat, k: nat)

  /** Where a bind or unbind caller is. fd is the new socket of a bind. */
  datatype Caller =
    | Idle
    | Held(req: Request)
    | AwaitAck(req: Request, fd: int)
    | Acked(req: Request, fd: int)
    | Updated
    | Leaving

  /** Where the dispatch thread is. ready is the set select returned, nfds and i its loop bound and index. */
  datatype Dispatcher =
    | Top
    | Selecting(maxFd: int, rfds: set<int>, nfds: nat)
    | Looping(i: nat, ready: set<int>, nfds: nat)
    | Masking(i: nat, ready: set<int>, nfds: nat)
    | Reading
    | Events(ev: nat)
    | Parked
    | Exited

  datatype Gate = Free | ByCaller(c: nat) | ByDispatcher

  /** counter is the unblock event, an adding counter; acks the wait event, a semaphore. History:
    * pauses and acked count the events written; stranded is set when an unbind left without CONTINUE
    * and cleared by the next CONTINUE. */
  datatype State = State(
    tables: Tables, counter: nat, acks: nat, gate: Gate, disp: Dispatcher, callers: seq<Caller>,
    stopping: bool, pauses: nat, acked: nat, stranded: bool)

  // ---------------------------------------------------------------- steps of a caller

  /** An unbind indexes the table unchecked, so its caller names a queue index inside the table. */
  predicate ReqOk(t: Tables, req: Request) {
    match req
    case BindReq(p, qId) => p < |t.index| && QueueId(qId)
    case UnbindReq(p, k) => p < |t.index| && k < |t.index[p]|
  }

  predicate CanLock(s: State, c: nat, req: Request) {
    c < |s.callers| && s.callers[c].Idle? && s.gate.Free? && !s.stopping && ReqOk(s.tables, req)
  }

  function ApplyLock(s: State, c: nat, req: Request): State
    requires CanLock(s, c, req)
  {
    s.(gate := ByCaller(c), callers := s.callers[c := Held(req)])
  }

  /** A bind gives up because the queue is bound already or the system gave no socket. */
  predicate CanRefuse(s: State, c: nat) {
    c < |s.callers| && s.callers[c].Held? && s.callers[c].req.BindReq?
  }

  function ApplyRefuse(s: State, c: nat): State
    requires CanRefuse(s, c)
  {
    s.(callers := s.callers[c := Leaving])
  }

  predicate CanPause(s: State, c: nat, fd: int) {
    && c < |s.callers| && s.callers[c].Held?
    && (s.callers[c].req.BindReq? ==>
         QueueId(s.callers[c].req.qId) &&
         Bound(s.tables, s.callers[c].req.p, QIndex(s.callers[c].req.qId)) == -1 && Unused(s.tables, fd))
  }

  function ApplyPause(s: State, c: nat, fd: int): State
    requires CanPause(s, c, fd)
  {
    s.(counter := s.counter + PAUSE, pauses := s.pauses + 1, callers := s.callers[c := AwaitAck(s.callers[c].req, fd)])
  }

  predicate CanTakeAck(s: State, c: nat) {
    c < |s.callers| && s.callers[c].AwaitAck? && s.acks > 0
  }

  function ApplyTakeAck(s: State, c: nat): State
    requires CanTakeAck(s, c)
  {
    s.(acks := s.acks - 1, callers := s.callers[c := Acked(s.callers[c].req, s.callers[c].fd)])
  }

  predicate CanUpdate(s: State, c: nat) {
    c < |s.callers| && s.callers[c].Acked? && ReqOk(s.tables, s.callers[c].req)
  }

  /** An unbind of a queue that is not bound leaves at once, without CONTINUE. */
  predicate Effective(s: State, c: nat)
    requires CanUpdate(s, c)
  {
    var req := s.callers[c].req;
    req.UnbindReq? ==> s.tables.index[req.p][req.k] != -1
  }

  function ApplyUpdate(s: State, c: nat): State
    requires CanUpdate(s, c)
  {
    var req := s.callers[c].req;
    if !Effective(s, c) then s.(stranded := true, callers := s.callers[c := Leaving])
    else
      s.(tables := match req
                   case BindReq(p, qId) => Bind(s.tables, p, qId, s.callers[c].fd)
                   case UnbindReq(p, k) => Unbind(s.tables, p, k),
         callers := s.callers[c := Updated])
  }

  predicate CanContinue(s: State, c: nat) {
    c < |s.callers| && s.callers[c].Updated?
  }

  function ApplyContinue(s: State, c: nat): State
    requires CanContinue(s, c)
  {
    s.(counter := s.counter + CONTINUE, stranded := false, callers := s.callers[c := Leaving])
  }

  predicate CanUnlock(s: State, c: nat) {
    c < |s.callers| && s.callers[c].Leaving?
  }

  function ApplyUnlock(s: State, c: nat): State
    requires CanUnlock(s, c)
  {
    s.(gate := Free, callers := s.callers[c := Idle])
  }

  /** TransportRpmsg_Factory_delete: written once, when nobody binds or unbinds any more. */
  predicate CanStop(s: State) {
    !s.stopping && forall c :: 0 <= c < |s.callers| ==> s.callers[c].Idle?
  }

  function ApplyStop(s: State): State
    requires CanStop(s)
  {
    s.(stopping := true, counter := s.counter + SHUTDOWN)
  }

  // ---------------------------------------------------------------- steps of the dispatch thread

  predicate CanSnapshot(s: State) { s.disp.Top? }

  function ApplySnapshot(s: State): State
    requires CanSnapshot(s)
  {
    s.(disp := Selecting(s.tables.maxFd, s.tables.rfds, |s.tables.inFds|))
  }

  /** select returns the sockets that are ready, and the unblock event exactly when its counter is not
    * zero; it returns when there is something to report. */
  predicate CanSelect(s: State, sockets: set<int>) {
    && s.disp.Selecting?
    && (forall fd :: fd in sockets ==> fd in s.disp.rfds && fd <= s.disp.maxFd && fd != s.tables.event)
    && (sockets != {} || s.counter > 0)
  }

  function ApplySelect(s: State, sockets: set<int>): State
    requires CanSelect(s, sockets)
  {
    s.(disp := Looping(0, if s.counter > 0 then sockets + {s.tables.event} else sockets, s.disp.nfds))
  }

  /** Next descriptor: not ready, or its message was delivered or lost, or it was shut down while
    * somebody held the gate. */
  predicate CanNext(s: State) {
    s.disp.Looping? && s.disp.i < s.disp.nfds
  }

  function ApplyNext(s: State): State
    requires CanNext(s)
  {
    s.(disp := Looping(s.disp.i + 1, s.disp.ready, s.disp.nfds))
  }

  /** The socket was shut down and the try-lock succeeds. */
  predicate CanTryLock(s: State) {
    && s.disp.Looping? && s.disp.i < s.disp.nfds && s.disp.i < |s.tables.inFds| && s.gate.Free?
    && s.tables.inFds[s.disp.i].fd in s.disp.ready
  }

  function ApplyTryLock(s: State): State
    requires CanTryLock(s)
  {
    s.(gate := ByDispatcher, disp := Masking(s.disp.i, s.disp.ready, s.disp.nfds))
  }

  predicate CanMask(s: State) {
    s.disp.Masking? && s.disp.i < |s.tables.inFds|
  }

  function ApplyMask(s: State): State
    requires CanMask(s)
  {
    s.(gate := Free, tables := Mask(s.tables, s.tables.inFds[s.disp.i].fd),
       disp := Looping(s.disp.i + 1, s.disp.ready, s.disp.nfds))
  }

  predicate CanLoopEnd(s: State) {
    s.disp.Looping? && s.disp.i >= s.disp.nfds
  }

  function ApplyLoopEnd(s: State): State
    requires CanLoopEnd(s)
  {
    s.(disp := if s.tables.event in s.disp.ready then Reading else Top)
  }

  /** The first read of the unblock event, and the read that waits to be released, take the whole
    * counter and block while it is zero. */
  predicate CanRead(s: State) {
    (s.disp.Reading? || s.disp.Parked?) && s.counter > 0
  }

  function ApplyRead(s: State): State
    requires CanRead(s)
  {
    s.(counter := 0, disp := Events(s.counter))
  }

  /** One round of the event loop: SHUTDOWN first, then CONTINUE is cleared, then PAUSE is answered. */
  predicate CanHandle(s: State) { s.disp.Events? }

  function ApplyHandle(s: State): State
    requires CanHandle(s)
  {
    var ev := s.disp.ev;
    var rest := if HasContinue(ev) then ev - CONTINUE else ev;
    if HasShutdown(ev) then s.(disp := Exited)
    else if HasPause(rest) then s.(acks := s.acks + 1, acked := s.acked + 1, disp := Parked)
    else if rest != 0 then s.(disp := Events(rest))
    else s.(disp := Top)
  }

  // ---------------------------------------------------------------- the machine

  datatype Step =
    | Lock(c: nat, req: Request) | Refuse(c: nat) | Pause(c: nat, fd: int) | TakeAck(c: nat)
    | Update(c: nat) | Continue(c: nat) | Unlock(c: nat) | Stop
    | Snapshot | Select(sockets: set<int>) | Next | TryLock | MaskStep | LoopEnd | Read | Handle

  predicate ByDispatchThread(a: Step) {
    a.Snapshot? || a.Select? || a.Next? || a.TryLock? || a.MaskStep? || a.LoopEnd? || a.Read? || a.Handle?
  }

  predicate Can(s: State, a: Step) {
    match a
    case Lock(c, req) => CanLock(s, c, req)
    case Refuse(c) => CanRefuse(s, c)
    case Pause(c, fd) => CanPause(s, c, fd)
    case TakeAck(c) => CanTakeAck(s, c)
    case Update(c) => CanUpdate(s, c)
    case Continue(c) => CanContinue(s, c)
    case Unlock(c) => CanUnlock(s, c)
    case Stop => CanStop(s)
    case Snapshot => CanSnapshot(s)
    case Select(sockets) => CanSelect(s, sockets)
    case Next => CanNext(s)
    case TryLock => CanTryLock(s)
    case MaskStep => CanMask(s)
    case LoopEnd => CanLoopEnd(s)
    case Read => CanRead(s)
    case Handle => CanHandle(s)
  }

  function Apply(s: State, a: Step): State
    requires Can(s, a)
  {
    match a
    case Lock(c, req) => ApplyLock(s, c, req)
    case Refuse(c) => ApplyRefuse(s, c)
    case Pause(c, fd) => ApplyPause(s, c, fd)
    case TakeAck(c) => ApplyTakeAck(s, c)
    case Update(c) => ApplyUpdate(s, c)
    case Continue(c) => ApplyContinue(s, c)
    case Unlock(c) => ApplyUnlock(s, c)
    case Stop => ApplyStop(s)
    case Snapshot => ApplySnapshot(s)
    case Select(sockets) => ApplySelect(s, sockets)
    case Next => ApplyNext(s)
    case TryLock => ApplyTryLock(s)
    case MaskStep => ApplyMask(s)
    case LoopEnd => ApplyLoopEnd(s)
    case Read => ApplyRead(s)
    case Handle => ApplyHandle(s)
  }

  predicate Initial(s: State) {
    && 0 <= s.tables.event < FD_SETSIZE && s.tables == Fresh(s.tables.event, |s.tables.index|)
    && s.counter == 0 && s.acks == 0 && s.gate.Free? && s.disp.Top? && !s.stopping
    && s.pauses == 0 && s.acked == 0 && !s.stranded
    && (forall c :: 0 <= c < |s.callers| ==> s.callers[c].Idle?)
  }

  // ---------------------------------------------------------------- invariant

  /** The caller inside the gate, Idle when there is none. */
  function Holder(s: State): Caller {
    if s.gate.ByCaller? && s.gate.c < |s.callers| then s.callers[s.gate.c] else Idle
  }

  /** A caller is past the lock exactly while it owns the gate; the dispatch thread only to mask. */
  ghost predicate GateInv(s: State) {
    && (forall c: nat :: c < |s.callers| ==> (s.callers[c].Idle? <==> s.gate != ByCaller(c)))
    && (s.gate.ByCaller? ==> s.gate.c < |s.callers| && !s.stopping)
    && (s.gate.ByDispatcher? <==> s.disp.Masking?)
  }

  /** No PAUSE under way: the dispatch thread runs, or is parked with CONTINUE pending, or was left
    * parked by an unbind without effect. */
  predicate Settled(s: State) {
    var stop := if s.stopping && !s.disp.Exited? then SHUTDOWN else 0;
    && s.acks == 0 && s.pauses == s.acked
    && match s.disp
       case Parked => s.counter == stop + if s.stranded then 0 else CONTINUE
       case Events(ev) =>
         if ev == CONTINUE then s.counter == stop && !s.stranded
         else s.stopping && s.counter == 0 && (ev == SHUTDOWN || ev == SHUTDOWN + CONTINUE)
       case Exited => s.stopping && s.counter == 0
       case _ => !s.stranded && s.counter == stop
  }

  /** A PAUSE was written and not yet acknowledged. */
  predicate PauseUnderWay(s: State) {
    && s.acks == 0 && s.pauses == s.acked + 1
    && match s.disp
       case Parked => s.counter == PAUSE + if s.stranded then 0 else CONTINUE
       case Events(ev) =>
         || (s.counter == PAUSE && ev == CONTINUE && !s.stranded)
         || (s.counter == 0 && ev == PAUSE)
         || (s.counter == 0 && ev == PAUSE + CONTINUE && !s.stranded)
       case Exited => false
       case _ => s.counter == PAUSE && !s.stranded
  }

  /** The dispatch thread waits in its second read, after the ACK. */
  predicate AtRest(s: State) {
    s.disp.Parked? && s.counter == 0 && s.pauses == s.acked
  }

  predicate ProtocolInv(s: State) {
    match Holder(s)
    case Idle => Settled(s)
    case Held(_) => Settled(s)
    case AwaitAck(_, _) => PauseUnderWay(s) || (AtRest(s) && s.acks == 1)
    case Acked(_, _) => AtRest(s) && s.acks == 0
    case Updated => AtRest(s) && s.acks == 0
    case Leaving => Settled(s)
  }

  /** The event is in the ready set only while its counter is not zero, so the read does not block. */
  predicate ReadyInv(s: State) {
    match s.disp
    case Looping(_, ready, _) => s.tables.event in ready ==> s.counter > 0
    case Masking(_, ready, _) => s.tables.event in ready ==> s.counter > 0
    case Reading => s.counter > 0
    case _ => true
  }

  ghost predicate RequestInv(s: State) {
    match Holder(s)
    case Held(req) => ReqOk(s.tables, req)
    case AwaitAck(req, fd) => ReqOk(s.tables, req) && FdFits(s.tables, req, fd)
    case Acked(req, fd) => ReqOk(s.tables, req) && FdFits(s.tables, req, fd)
    case _ => true
  }

  predicate FdFits(t: Tables, req: Request, fd: int)
    requires ReqOk(t, req)
  {
    req.BindReq? ==> Unused(t, fd) && Bound(t, req.p, QIndex(req.qId)) == -1
  }

  /** What the dispatch thread copied from the tables is still so: every descriptor it is about to
    * receive from is one of the nfds entries of the input array. */
  ghost predicate SnapshotInv(t: Tables, d: Dispatcher) {
    match d
    case Selecting(maxFd, rfds, nfds) => maxFd == t.maxFd && rfds == t.rfds && nfds == |t.inFds|
    case Looping(i, ready, nfds) => i <= nfds == |t.inFds| && AllListed(t, ready)
    case Masking(i, ready, nfds) => i < nfds == |t.inFds| && AllListed(t, ready)
    case _ => true
  }

  ghost predicate AllListed(t: Tables, ready: set<int>) {
    forall fd :: fd in ready && fd != t.event ==> FindFd(t.inFds, fd) < |t.inFds|
  }

  ghost predicate Inv(s: State) {
    GateInv(s) && ProtocolInv(s) && ReadyInv(s) && RequestInv(s) && Good(s.tables) && SnapshotInv(s.tables, s.disp)
  }

  lemma InitialInv(s: State)
    requires Initial(s)
    ensures Inv(s)
  {
    FreshGood(s.tables.event, |s.tables.index|);
  }

  // ---------------------------------------------------------------- steps keep the invariant

  /** Steps that touch neither the tables nor the dispatch thread keep what is said about them. */
  lemma CallerStep(s: State, s': State, c: nat, pc: Caller)
    requires GateInv(s) && s.gate == ByCaller(c) && s'.gate == s.gate && c < |s.callers| && !pc.Idle?
    requires s'.callers == s.callers[c := pc] && s'.disp == s.disp && s'.stopping == s.stopping
    ensures GateInv(s') && Holder(s') == pc
  {
  }

  lemma LockKeeps(s: State, c: nat, req: Request)
    requires Inv(s) && CanLock(s, c, req)
    ensures Inv(ApplyLock(s, c, req))
  {
  }

  lemma RefuseKeeps(s: State, c: nat)
    requires Inv(s) && CanRefuse(s, c)
    ensures Inv(ApplyRefuse(s, c))
  {
    CallerStep(s, ApplyRefuse(s, c), c, Leaving);
  }

  lemma PauseKeeps(s: State, c: nat, fd: int)
    requires Inv(s) && CanPause(s, c, fd)
    ensures Inv(ApplyPause(s, c, fd))
  {
    CallerStep(s, ApplyPause(s, c, fd), c, AwaitAck(s.callers[c].req, fd));
  }

  lemma TakeAckKeeps(s: State, c: nat)
    requires Inv(s) && CanTakeAck(s, c)
    ensures Inv(ApplyTakeAck(s, c))
  {
    CallerStep(s, ApplyTakeAck(s, c), c, Acked(s.callers[c].req, s.callers[c].fd));
  }

  lemma UpdateKeeps(s: State, c: nat)
    requires Inv(s) && CanUpdate(s, c)
    ensures Inv(ApplyUpdate(s, c))
  {
    var s' := ApplyUpdate(s, c);
    CallerStep(s, s', c, s'.callers[c]);
    if Effective(s, c) {
      match s.callers[c].req
      case BindReq(p, qId) => BindKeepsGood(s.tables, p, qId, s.callers[c].fd);
      case UnbindReq(p, k) => UnbindKeepsGood(s.tables, p, k);
    }
  }

  lemma ContinueKeeps(s: State, c: nat)
    requires Inv(s) && CanContinue(s, c)
    ensures Inv(ApplyContinue(s, c))
  {
    CallerStep(s, ApplyContinue(s, c), c, Leaving);
  }

  lemma UnlockKeeps(s: State, c: nat)
    requires Inv(s) && CanUnlock(s, c)
    ensures Inv(ApplyUnlock(s, c))
  {
  }

  lemma StopKeeps(s: State)
    requires Inv(s) && CanStop(s)
    ensures Inv(ApplyStop(s))
  {
  }

  lemma SnapshotKeeps(s: State)
    requires Inv(s) && CanSnapshot(s)
    ensures Inv(ApplySnapshot(s))
  {
  }

  lemma SelectKeeps(s: State, sockets: set<int>)
    requires Inv(s) && CanSelect(s, sockets)
    ensures Inv(ApplySelect(s, sockets))
  {
  }

  lemma NextKeeps(s: State)
    requires Inv(s) && CanNext(s)
    ensures Inv(ApplyNext(s))
  {
  }

  lemma TryLockKeeps(s: State)
    requires Inv(s) && CanTryLock(s)
    ensures Inv(ApplyTryLock(s))
  {
  }

  lemma MaskKeeps(s: State)
    requires Inv(s) && CanMask(s)
    ensures Inv(ApplyMask(s))
  {
    MaskKeepsGood(s.tables, s.tables.inFds[s.disp.i].fd);
  }

  lemma LoopEndKeeps(s: State)
    requires Inv(s) && CanLoopEnd(s)
    ensures Inv(ApplyLoopEnd(s))
  {
  }

  lemma ReadKeeps(s: State)
    requires Inv(s) && CanRead(s)
    ensures Inv(ApplyRead(s))
  {
  }

  /** The event at hand goes with what the protocol says of the caller inside the gate. */
  lemma HandleSettled(s: State)
    requires CanHandle(s) && Settled(s)
    ensures Settled(ApplyHandle(s))
  {
  }

  lemma HandlePause(s: State)
    requires CanHandle(s) && PauseUnderWay(s)
    ensures PauseUnderWay(ApplyHandle(s)) || (AtRest(ApplyHandle(s)) && ApplyHandle(s).acks == 1)
  {
  }

  lemma HandleProtocol(s: State)
    requires CanHandle(s) && ProtocolInv(s)
    ensures ProtocolInv(ApplyHandle(s))
  {
    assert Holder(ApplyHandle(s)) == Holder(s);
    if Settled(s) {
      HandleSettled(s);
    } else {
      HandlePause(s);
    }
  }

  lemma HandleKeeps(s: State)
    requires Inv(s) && CanHandle(s)
    ensures Inv(ApplyHandle(s))
  {
    HandleProtocol(s);
    HandleTouches(s, ApplyHandle(s));
  }

  /** Handling an event changes nothing else. */
  lemma HandleTouches(s: State, s': State)
    requires GateInv(s) && RequestInv(s) && CanHandle(s) && s' == ApplyHandle(s)
    ensures GateInv(s') && RequestInv(s') && ReadyInv(s') && SnapshotInv(s'.tables, s'.disp) && s'.tables == s.tables
  {
  }

  lemma StepKeepsInv(s: State, a: Step)
    requires Inv(s) && Can(s, a)
    ensures Inv(Apply(s, a))
  {
    match a
    case Lock(c, req) => LockKeeps(s, c, req);
    case Refuse(c) => RefuseKeeps(s, c);
    case Pause(c, fd) => PauseKeeps(s, c, fd);
    case TakeAck(c) => TakeAckKeeps(s, c);
    case Update(c) => UpdateKeeps(s, c);
    case Continue(c) => ContinueKeeps(s, c);
    case Unlock(c) => UnlockKeeps(s, c);
    case Stop => StopKeeps(s);
    case Snapshot => SnapshotKeeps(s);
    case Select(sockets) => SelectKeeps(s, sockets);
    case Next => NextKeeps(s);
    case TryLock => TryLockKeeps(s);
    case MaskStep => MaskKeeps(s);
    case LoopEnd => LoopEndKeeps(s);
    case Read => ReadKeeps(s);
    case Handle => HandleKeeps(s);
  }

  // ---------------------------------------------------------------- theorems

  ghost predicate Reaches(s: State, steps: seq<Step>, s': State)
    decreases |steps|
  {
    if steps == [] then s' == s
    else
      var last := |steps| - 1;
      exists u :: Reaches(s, steps[..last], u) && Can(u, steps[last]) && s' == Apply(u, steps[last])
  }

  /** THEOREM. The invariant holds after every run, whatever the number of callers. */
  lemma {:induction false} EveryRunKeepsInv(s: State, steps: seq<Step>, s': State)
    requires Initial(s) && Reaches(s, steps, s')
    ensures Inv(s')
    decreases |steps|
  {
    if steps == [] {
      InitialInv(s);
    } else {
      var last := |steps| - 1;
      var u :| Reaches(s, steps[..last], u) && Can(u, steps[last]) && s' == Apply(u, steps[last]);
      EveryRunKeepsInv(s, steps[..last], u);
      StepKeepsInv(u, steps[last]);
    }
  }

  /** Reached from a state the factory sets up, by some run of any threads. */
  ghost predicate Reachable(s: State) {
    exists start: State, steps: seq<Step> :: Initial(start) && Reaches(start, steps, s)
  }

  lemma ReachableInv(s: State)
    requires Reachable(s)
    ensures Inv(s)
  {
    var start: State, steps: seq<Step> :| Initial(start) && Reaches(start, steps, s);
    EveryRunKeepsInv(start, steps, s);
  }

  function BitSum(v: nat): nat {
    (if HasPause(v) then PAUSE else 0) + (if HasContinue(v) then CONTINUE else 0)
    + (if HasShutdown(v) then SHUTDOWN else 0)
  }

  lemma CounterValues(s: State)
    requires ProtocolInv(s) && GateInv(s)
    ensures s.counter in {0, PAUSE, CONTINUE, PAUSE + CONTINUE, SHUTDOWN, SHUTDOWN + CONTINUE}
  {
  }

  lemma SumOfEvents(v: nat)
    requires v in {0, PAUSE, CONTINUE, PAUSE + CONTINUE, SHUTDOWN, SHUTDOWN + CONTINUE}
    ensures v == BitSum(v)
  {
  }

  lemma ReachableCounter(s: State)
    requires Reachable(s)
    ensures s.counter in {0, PAUSE, CONTINUE, PAUSE + CONTINUE, SHUTDOWN, SHUTDOWN + CONTINUE}
  {
    ReachableInv(s);
    CounterValues(s);
  }

  /** THEOREM. The adding counter never carries from one event bit into another: it is always the sum
    * of different pending events: PAUSE, which is 2, CONTINUE, which is 4, and SHUTDOWN, which is 8. */
  lemma NoCarry(s: State)
    requires Reachable(s)
    ensures s.counter in {0, 2, 4, 6, 8, 12}
    ensures s.counter == BitSum(s.counter)
  {
    ReachableCounter(s);
    SumOfEvents(s.counter);
  }

  /** THEOREM. A step of a caller that changes the tables is taken by the owner of the gate, after its
    * PAUSE was acknowledged and while the dispatch thread waits to be released; the dispatch thread
    * itself only masks, under the gate, and never changes the input array or a binding. */
  lemma TablesGuarded(s: State, a: Step)
    requires Reachable(s) && Can(s, a) && Apply(s, a).tables != s.tables
    ensures if ByDispatchThread(a)
            then s.gate.ByDispatcher? && Apply(s, a).tables.inFds == s.tables.inFds
                 && Apply(s, a).tables.index == s.tables.index && Apply(s, a).tables.maxFd == s.tables.maxFd
            else a.Update? && s.gate == ByCaller(a.c) && s.disp.Parked? && s.counter == 0 && s.acks == 0
                 && s.pauses == s.acked
  {
    ReachableInv(s);
    if a.MaskStep? {
      MaskKeepsGood(s.tables, s.tables.inFds[s.disp.i].fd);
    } else {
      assert a.Update?;
      assert Holder(s) == s.callers[a.c];
    }
  }

  /** THEOREM. When a caller updates the tables its request takes effect, on its own queue and processor
    * only. */
  lemma UpdateTakesEffect(s: State, c: nat)
    requires Reachable(s) && CanUpdate(s, c)
    ensures var req := s.callers[c].req;
      var k := if req.BindReq? then QIndex(req.qId) else req.k;
      var t, t' := s.tables, ApplyUpdate(s, c).tables;
      && Bound(t', req.p, k) == (if req.BindReq? then s.callers[c].fd else -1)
      && (forall p: nat, k': nat :: p != req.p || k' != k ==> Bound(t', p, k') == Bound(t, p, k'))
  {
    ReachableInv(s);
    assert Holder(s) == s.callers[c];
    match s.callers[c].req
    case BindReq(p, qId) => BindKeepsGood(s.tables, p, qId, s.callers[c].fd);
    case UnbindReq(p, k) => UnbindKeepsGood(s.tables, p, k);
  }

  /** THEOREM. Every socket bound and not masked can be reported by select, the largest included, and select
    * returns without one exactly when an event is pending. */
  lemma SelectReports(s: State, fd: int)
    requires Reachable(s) && s.disp.Selecting?
    ensures fd in s.tables.rfds && fd != s.tables.event ==> Can(s, Select({fd}))
    ensures Can(s, Select({})) <==> s.counter > 0
  {
    ReachableInv(s);
  }

  /** THEOREM. When the dispatch thread finds a socket shut down and the gate free, it takes the gate and
    * gives it back with that descriptor out of the select set, every binding as it was, and goes on with
    * the next one. */
  lemma MaskTakesEffect(s: State)
    requires Reachable(s) && Can(s, TryLock)
    ensures var (u, fd) := (Apply(s, TryLock), s.tables.inFds[s.disp.i].fd);
      && u.gate.ByDispatcher? && u.tables == s.tables && Can(u, MaskStep)
      && var w := Apply(u, MaskStep);
         && w.tables == s.tables.(rfds := s.tables.rfds - {fd})
         && w == s.(tables := w.tables, disp := Looping(s.disp.i + 1, s.disp.ready, s.disp.nfds))
  {
    ReachableInv(s);
    MaskKeepsGood(s.tables, s.tables.inFds[s.disp.i].fd);
  }

  /** THEOREM. Every PAUSE gets one acknowledgement: at any moment the PAUSEs not yet acknowledged are
    * the one of the caller that waits for it, or none; and no acknowledgement is left over for a later
    * caller. */
  lemma OneAckPerPause(s: State)
    requires Reachable(s)
    ensures s.acked <= s.pauses <= s.acked + 1
    ensures s.pauses == s.acked + 1 ==> Holder(s).AwaitAck? && s.acks == 0
    ensures s.acks <= 1 && (s.acks == 1 ==> Holder(s).AwaitAck? && s.disp.Parked? && s.pauses == s.acked)
  {
    ReachableInv(s);
  }

  /** THEOREM. The tables agree in every reachable state, and every socket the dispatch thread is about
    * to receive from is still bound and an entry of the input array at a position its loop visits. */
  lemma SocketsStayOpen(s: State, fd: int)
    requires Reachable(s) && (s.disp.Looping? || s.disp.Masking?) && fd in s.disp.ready && fd != s.tables.event
    ensures Good(s.tables) && FindFd(s.tables.inFds, fd) < |s.tables.inFds| == s.disp.nfds
    ensures exists p: nat, k: nat :: Bound(s.tables, p, k) == fd
  {
    ReachableInv(s);
    var i := FindFd(s.tables.inFds, fd);
    var k := QIndex(s.tables.inFds[i].qId);
    assert Indexed(s.tables, k, fd);
  }

  function IsPause(): Step -> bool {
    (a: Step) => a.Pause?
  }

  function IsStop(): Step -> bool {
    (a: Step) => a.Stop?
  }

  function IsTakeAck(): Step -> bool {
    (a: Step) => a.TakeAck?
  }

  lemma HistoryStep(s: State, a: Step)
    requires Can(s, a)
    ensures One(Apply(s, a).stopping) == One(s.stopping) + One(a.Stop?)
    ensures Apply(s, a).pauses == s.pauses + One(a.Pause?)
    ensures Apply(s, a).acked - Apply(s, a).acks == s.acked - s.acks + One(a.TakeAck?)
  {
  }

  /** THEOREM. What the other theorems speak of is what happened in the run: a shutdown is asked for
    * at most once and is then known, there are as many PAUSEs as callers sent, and every ACK was taken by
    * one caller or is still there. */
  lemma {:induction false} HistoriesAreTheRun(s: State, steps: seq<Step>, s': State)
    requires Initial(s) && Reaches(s, steps, s')
    ensures One(s'.stopping) == Count(steps, IsStop())
    ensures s'.pauses == Count(steps, IsPause())
    ensures s'.acked == s'.acks + Count(steps, IsTakeAck())
    decreases |steps|
  {
    if steps != [] {
      var last := |steps| - 1;
      var u :| Reaches(s, steps[..last], u) && Can(u, steps[last]) && s' == Apply(u, steps[last]);
      HistoriesAreTheRun(s, steps[..last], u);
      CountLast(steps, IsStop());
      CountLast(steps, IsPause());
      CountLast(steps, IsTakeAck());
      HistoryStep(u, steps[last]);
    }
  }

  /** The dispatch thread's next step. */
  function NextStep(s: State): Step {
    match s.disp
    case Top => Snapshot
    case Selecting(_, _, _) => Select({})
    case Looping(i, _, nfds) => if i < nfds then Next else LoopEnd
    case Masking(_, _, _) => MaskStep
    case Events(_) => Handle
    case _ => Read
  }

  /** An upper bound on the steps of the dispatch thread until it acknowledges a PAUSE. */
  function Rank(s: State): nat {
    var n := |s.tables.inFds|;
    match s.disp
    case Parked => if s.counter == 0 then 0 else 2
    case Events(ev) => if HasPause(ev) then 1 else n + 7
    case Reading => 2
    case Looping(i, ready, nfds) =>
      (if i <= nfds then nfds - i else 0) + 3 + if s.tables.event in ready then 0 else n + 4
    case Selecting(_, _, _) => n + 5
    case Top => n + 6
    case _ => 0
  }

  /** While a caller waits for its ACK, the dispatch thread always has a step to take that does not need
    * the gate, and nobody else has one. */
  lemma OnlyDispatcherMoves(s: State)
    requires Inv(s) && Holder(s).AwaitAck? && s.acks == 0
    ensures Can(s, NextStep(s)) && ByDispatchThread(NextStep(s))
    ensures forall a :: Can(s, a) ==> ByDispatchThread(a) && !a.TryLock? && !a.MaskStep?
  {
  }

  lemma RankFallsInLoop(s: State, a: Step)
    requires ReadyInv(s) && SnapshotInv(s.tables, s.disp) && s.counter == PAUSE
    requires a.Snapshot? || a.Select? || a.Next? || a.LoopEnd?
    requires Can(s, a)
    ensures Rank(Apply(s, a)) < Rank(s)
  {
  }

  lemma RankFallsInEvents(s: State, a: Step)
    requires PauseUnderWay(s) && (a.Read? || a.Handle?) && Can(s, a)
    ensures Rank(Apply(s, a)) < Rank(s)
  {
  }

  lemma RankFalls(s: State, a: Step)
    requires Inv(s) && Holder(s).AwaitAck? && s.acks == 0
    requires ByDispatchThread(a) && !a.TryLock? && !a.MaskStep? && Can(s, a)
    ensures Rank(Apply(s, a)) < Rank(s)
  {
    if a.Read? || a.Handle? {
      RankFallsInEvents(s, a);
    } else {
      RankFallsInLoop(s, a);
    }
  }

  lemma HistoryGrows(s: State, a: Step)
    requires Can(s, a)
    ensures s.pauses <= Apply(s, a).pauses && s.acked <= Apply(s, a).acked
  {
  }

  lemma {:induction false} HistoryOfRun(s: State, steps: seq<Step>, s': State)
    requires Reaches(s, steps, s')
    ensures s.pauses <= s'.pauses && s.acked <= s'.acked
    decreases |steps|
  {
    if steps != [] {
      var last := |steps| - 1;
      var u :| Reaches(s, steps[..last], u) && Can(u, steps[last]) && s' == Apply(u, steps[last]);
      HistoryOfRun(s, steps[..last], u);
      HistoryGrows(u, steps[last]);
    }
  }

  lemma AwaitingStep(s: State, a: Step)
    requires Inv(s) && s.pauses == s.acked + 1 && Can(s, a)
    ensures Inv(Apply(s, a)) && Rank(Apply(s, a)) < Rank(s)
  {
    OnlyDispatcherMoves(s);
    RankFalls(s, a);
    StepKeepsInv(s, a);
  }

  lemma {:induction false} RankBounds(s: State, steps: seq<Step>, s': State)
    requires Inv(s) && s.pauses == s.acked + 1 && Reaches(s, steps, s')
    requires s'.pauses == s.pauses && s'.acked == s.acked
    ensures Inv(s') && Rank(s') + |steps| <= Rank(s)
    decreases |steps|
  {
    if steps != [] {
      var last := |steps| - 1;
      var u :| Reaches(s, steps[..last], u) && Can(u, steps[last]) && s' == Apply(u, steps[last]);
      HistoryOfRun(s, steps[..last], u);
      HistoryGrows(u, steps[last]);
      RankBounds(s, steps[..last], u);
      AwaitingStep(u, steps[last]);
    }
  }

  /** THEOREM. A bind or unbind that has sent PAUSE is answered: until then the dispatch thread always
    * has a step that does not need the gate, no other thread has any, and no run of more than Rank
    * steps goes by without the answer. */
  lemma AckComes(s: State, steps: seq<Step>, s': State)
    requires Reachable(s) && s.pauses == s.acked + 1
    requires Reaches(s, steps, s') && s'.pauses == s.pauses && s'.acked == s.acked
    ensures Can(s', NextStep(s')) && ByDispatchThread(NextStep(s'))
    ensures forall a :: Can(s', a) ==> ByDispatchThread(a) && !a.TryLock?
    ensures |steps| < Rank(s) <= 2 * |s.tables.inFds| + 7
  {
    ReachableInv(s);
    RankBounds(s, steps, s');
    OnlyDispatcherMoves(s');
    assert Rank(s') > 0;
  }

  /** THEOREM. When no bind or unbind is inside the gate and no shutdown was asked for, the dispatch
    * thread is left waiting with nothing to release it exactly when the last handshake was an unbind
    * that found nothing bound; otherwise it runs or its CONTINUE is pending. */
  lemma ReleasedUnlessStranded(s: State)
    requires Reachable(s) && Holder(s).Idle? && !s.stopping
    ensures s.stranded <==> s.disp.Parked? && s.counter == 0
    ensures !s.stranded ==> (s.disp.Parked? ==> HasContinue(s.counter))
    ensures !s.stranded && !s.disp.Selecting? ==> Can(s, NextStep(s))
  {
    ReachableInv(s);
  }

  /** How far a bind or unbind caller is from having left the gate. */
  function StagesLeft(x: Caller): nat {
    match x
    case Idle => 0
    case Leaving => 1
    case Updated => 2
    case Acked(_, _) => 3
    case AwaitAck(_, _) => 4
    case Held(_) => 5
  }

  /** A step of a caller past the lock; a bind can give up at first, as one that gets no descriptor does. */
  function CallerStepOf(c: nat, x: Caller): Step {
    match x
    case Held(req) => if req.BindReq? then Refuse(c) else Pause(c, 0)
    case AwaitAck(_, _) => TakeAck(c)
    case Acked(_, _) => Update(c)
    case Updated => Continue(c)
    case _ => Unlock(c)
  }

  /** THEOREM. The caller inside the gate always has a step to take, but for the time until its PAUSE is
    * acknowledged, and a bind of an unbound queue that got a descriptor can go on; each of its steps brings
    * it closer to leaving, and no other thread's step takes it back. */
  lemma CallersFinish(s: State, c: nat, a: Step)
    requires Reachable(s) && s.gate == ByCaller(c)
    ensures c < |s.callers| && StagesLeft(s.callers[c]) > 0
    ensures (s.callers[c].AwaitAck? && s.acks == 0) || Can(s, CallerStepOf(c, s.callers[c]))
    ensures s.callers[c].Held? && s.callers[c].req.BindReq? ==>
      QueueId(s.callers[c].req.qId) &&
      (Bound(s.tables, s.callers[c].req.p, QIndex(s.callers[c].req.qId)) == -1 ==>
         forall fd :: Unused(s.tables, fd) ==> Can(s, Pause(c, fd)))
    ensures Can(s, a) ==>
      |Apply(s, a).callers| == |s.callers| &&
      if ByDispatchThread(a) then Apply(s, a).callers == s.callers
      else !a.Lock? && !a.Stop? && a.c == c && StagesLeft(Apply(s, a).callers[c]) < StagesLeft(s.callers[c])
  {
    ReachableInv(s);
    OwnerCanMove(s, c);
    if Can(s, a) {
      if ByDispatchThread(a) {
        DispatcherKeepsCallers(s, a);
      } else {
        OnlyOwnerMoves(s, c, a);
      }
    }
  }

  lemma OwnerCanMove(s: State, c: nat)
    requires GateInv(s) && ProtocolInv(s) && RequestInv(s) && s.gate == ByCaller(c)
    ensures c < |s.callers| && StagesLeft(s.callers[c]) > 0
    ensures (s.callers[c].AwaitAck? && s.acks == 0) || Can(s, CallerStepOf(c, s.callers[c]))
    ensures s.callers[c].Held? && s.callers[c].req.BindReq? ==> QueueId(s.callers[c].req.qId)
  {
    assert Holder(s) == s.callers[c];
  }

  lemma DispatcherKeepsCallers(s: State, a: Step)
    requires Can(s, a) && ByDispatchThread(a)
    ensures Apply(s, a).callers == s.callers
  {
  }

  lemma OnlyOwnerMoves(s: State, c: nat, a: Step)
    requires GateInv(s) && s.gate == ByCaller(c) && Can(s, a) && !ByDispatchThread(a)
    ensures !a.Lock? && !a.Stop? && a.c == c && c < |s.callers| == |Apply(s, a).callers|
    ensures StagesLeft(Apply(s, a).callers[c]) < StagesLeft(s.callers[c])
  {
    assert !s.callers[c].Idle?;
  }

  /** THEOREM. CONTINUE releases the dispatch thread: it reads the event, and is back at the top of its
    * loop, with nothing pending. */
  lemma ContinueReleases(s: State, c: nat)
    requires Reachable(s) && CanContinue(s, c)
    ensures var u := Apply(s, Continue(c));
      && u.callers[c].Leaving? && !u.stranded && Can(u, Read)
      && var v := Apply(u, Read);
         && Can(v, Handle)
         && Apply(v, Handle) == s.(disp := Top, counter := 0, stranded := false, callers := u.callers)
  {
    ReachableInv(s);
    OwnerAtRest(s, c);
    ReleasesAtRest(s, c);
  }

  lemma OwnerAtRest(s: State, c: nat)
    requires GateInv(s) && ProtocolInv(s) && CanContinue(s, c)
    ensures s.disp.Parked? && s.counter == 0
  {
    assert Holder(s) == s.callers[c];
  }

  lemma ReleasesAtRest(s: State, c: nat)
    requires CanContinue(s, c) && s.disp.Parked? && s.counter == 0
    ensures var u := Apply(s, Continue(c));
      && u.callers[c].Leaving? && !u.stranded && Can(u, Read)
      && var v := Apply(u, Read);
         && Can(v, Handle)
         && Apply(v, Handle) == s.(disp := Top, counter := 0, stranded := false, callers := u.callers)
  {
    assert HasContinue(CONTINUE) && !HasShutdown(CONTINUE);
  }

  /** THEOREM. A stranded dispatch thread still answers the next PAUSE. */
  lemma StrandedStillAnswers(s: State, c: nat, fd: int)
    requires Reachable(s) && s.stranded && s.gate == ByCaller(c) && CanPause(s, c, fd)
    ensures var p := ApplyPause(s, c, fd);
      && CanRead(p) && CanHandle(ApplyRead(p))
      && ApplyHandle(ApplyRead(p)).acks == 1 && ApplyHandle(ApplyRead(p)).disp.Parked?
  {
    ReachableInv(s);
    assert Holder(s).Held?;
  }

  /** THEOREM. Once the shutdown event has been written the dispatch thread never waits again until it
    * has ended, also when it was stranded. */
  lemma ShutdownNeverWaits(s: State)
    requires Reachable(s) && s.stopping
    ensures s.disp.Exited? || Can(s, NextStep(s))
    ensures !s.disp.Exited? ==> HasShutdown(s.counter) || s.disp.Events?
  {
    ReachableInv(s);
    StoppingMoves(s);
  }

  lemma StoppingMoves(s: State)
    requires Inv(s) && s.stopping
    ensures s.disp.Exited? || Can(s, NextStep(s))
    ensures !s.disp.Exited? ==> HasShutdown(s.counter) || s.disp.Events?
  {
    assert Holder(s).Idle?;
    assert HasShutdown(SHUTDOWN) && HasShutdown(SHUTDOWN + CONTINUE);
  }

  /** An unbind without effect does strand the dispatch thread: one caller, one processor, no queue. */
  lemma StrandingRun(s: State) returns (steps: seq<Step>, s': State)
    requires Initial(s) && |s.callers| == 1 && |s.tables.index| == 1
    ensures Reaches(s, steps, s') && Holder(s').Idle? && s'.stranded && s'.disp.Parked? && s'.counter == 0
  {
    var req := UnbindReq(0, 0);
    var s2 := StrandingStart(s, req);
    steps := [] + [Lock(0, req)] + [Pause(0, 0)];
    var s6 := DispatcherReads(s2);
    ReadRun(s, steps, s2, s6);
    steps := steps + [Snapshot] + [Select({})] + [LoopEnd] + [Read];
    steps, s' := StrandingEnd(s, steps, s6, req);
  }

  lemma StrandingStart(s: State, req: Request) returns (s2: State)
    requires Initial(s) && |s.callers| == 1 && req.UnbindReq? && ReqOk(s.tables, req)
    ensures s2 == s.(gate := ByCaller(0), callers := [AwaitAck(req, 0)], counter := PAUSE, pauses := 1)
    ensures Reaches(s, [] + [Lock(0, req)] + [Pause(0, 0)], s2)
  {
    var s1 := s.(gate := ByCaller(0), callers := [Held(req)]);
    Append(s, [], s, Lock(0, req), s1);
    s2 := s.(gate := ByCaller(0), callers := [AwaitAck(req, 0)], counter := PAUSE, pauses := 1);
    Append(s, [] + [Lock(0, req)], s1, Pause(0, 0), s2);
  }

  lemma StrandingEnd(start: State, before: seq<Step>, s: State, req: Request) returns (steps: seq<Step>, s': State)
    requires Reaches(start, before, s) && |s.callers| == 1 && s.callers[0] == AwaitAck(req, 0)
    requires s.acks == 0 && s.counter == 0 && s.disp == Events(PAUSE) && s.gate == ByCaller(0)
    requires req.UnbindReq? && ReqOk(s.tables, req) && s.tables.index[req.p][req.k] == -1
    ensures Reaches(start, steps, s') && Holder(s').Idle? && s'.stranded && s'.disp.Parked? && s'.counter == 0
  {
    PauseAnswered(s);
    var s1 := Apply(s, Handle);
    Append(start, before, s, Handle, s1);
    steps, s' := StrandingTake(start, before + [Handle], s1, req);
  }

  lemma PauseAnswered(s: State)
    requires s.disp == Events(PAUSE)
    ensures Can(s, Handle) && Apply(s, Handle) == s.(acks := s.acks + 1, acked := s.acked + 1, disp := Parked)
  {
  }

  lemma StrandingTake(start: State, before: seq<Step>, s: State, req: Request) returns (steps: seq<Step>, s': State)
    requires Reaches(start, before, s) && |s.callers| == 1 && s.callers[0] == AwaitAck(req, 0)
    requires s.acks == 1 && s.counter == 0 && s.disp.Parked? && s.gate == ByCaller(0)
    requires req.UnbindReq? && ReqOk(s.tables, req) && s.tables.index[req.p][req.k] == -1
    ensures Reaches(start, steps, s') && Holder(s').Idle? && s'.stranded && s'.disp.Parked? && s'.counter == 0
  {
    var s1 := s.(acks := 0, callers := [Acked(req, 0)]);
    Append(start, before, s, TakeAck(0), s1);
    steps, s' := StrandingLeave(start, before + [TakeAck(0)], s1, req);
  }

  lemma StrandingLeave(start: State, before: seq<Step>, s: State, req: Request) returns (steps: seq<Step>, s': State)
    requires Reaches(start, before, s) && s.callers == [Acked(req, 0)]
    requires s.disp.Parked? && s.counter == 0 && s.gate == ByCaller(0)
    requires req.UnbindReq? && ReqOk(s.tables, req) && s.tables.index[req.p][req.k] == -1
    ensures Reaches(start, steps, s') && Holder(s').Idle? && s'.stranded && s'.disp.Parked? && s'.counter == 0
  {
    var s1 := s.(stranded := true, callers := [Leaving]);
    Append(start, before, s, Update(0), s1);
    steps := before + [Update(0)];
    s' := s1.(gate := Free, callers := [Idle]);
    Append(start, steps, s1, Unlock(0), s');
    steps := steps + [Unlock(0)];
  }

  function DispatcherReads(s: State): State {
    s.(counter := 0, disp := Events(s.counter))
  }

  /** From the top of its loop, with a pending event and no socket bound, the dispatch thread reads it. */
  lemma ReadRun(start: State, steps: seq<Step>, s: State, s': State)
    requires Reaches(start, steps, s) && s.disp.Top? && s.counter > 0 && s.tables.inFds == []
    requires s' == DispatcherReads(s)
    ensures Reaches(start, steps + [Snapshot] + [Select({})] + [LoopEnd] + [Read], s')
  {
    var t := s.tables;
    var s1 := s.(disp := Selecting(t.maxFd, t.rfds, 0));
    Append(start, steps, s, Snapshot, s1);
    var none: set<int> := {};
    var s2 := s.(disp := Looping(0, none + {t.event}, 0));
    Append(start, steps + [Snapshot], s1, Select({}), s2);
    var s3 := s.(disp := Reading);
    Append(start, steps + [Snapshot] + [Select({})], s2, LoopEnd, s3);
    Append(start, steps + [Snapshot] + [Select({})] + [LoopEnd], s3, Read, s');
  }

  lemma Append(s: State, steps: seq<Step>, u: State, a: Step, s': State)
    requires Reaches(s, steps, u) && Can(u, a) && s' == Apply(u, a)
    ensures Reaches(s, steps + [a], s')
  {
    assert (steps + [a])[..|steps|] == steps;
  }
}
